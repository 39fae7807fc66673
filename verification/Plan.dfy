/**
 The plan of the next seconds: which clip airs in each second, as a pointwise function of
 the second, the schedule and the pods of the ad breaks.
 */
module Plan {
  import opened Common
  import opened Schedule
  import opened Filler
  import opened Stitcher

  datatype PlanConfig = PlanConfig(ahead: nat, lead: nat, slateUri: string)

  // ----- the seconds of an ad break -----

  datatype Quantum = Quantum(kind: string, uri: string, offset: int, disc: bool)

  function Span(it: AdItem): nat { if it.duration > 0 then it.duration else 0 }

  function Part(it: AdItem, n: nat): (r: seq<Quantum>)
    ensures |r| == n && forall i :: 0 <= i < n ==> r[i] == Quantum("ad", it.uri, i, false)
  {
    seq(n, i => Quantum("ad", it.uri, i, false))
  }

  /** The pod, second by second. */
  function Expand(items: seq<AdItem>): seq<Quantum> {
    if items == [] then []
    else Expand(items[..|items| - 1]) + Part(items[|items| - 1], Span(items[|items| - 1]))
  }

  /** The pod cut or filled with slate to n seconds. */
  function Fitted(pod: seq<Quantum>, n: nat, slateUri: string): (r: seq<Quantum>)
    ensures |r| == n
    ensures forall i :: 0 <= i < n ==> r[i] == if i < |pod| then pod[i] else Quantum("slate", slateUri, 0, false)
  {
    seq(n, i requires 0 <= i < n => if i < |pod| then pod[i] else Quantum("slate", slateUri, 0, false))
  }

  function MarkFirst(q: seq<Quantum>): (r: seq<Quantum>)
    ensures |r| == |q|
  {
    if q == [] then q else q[0 := q[0].(disc := true)]
  }

  function Quanta(n: nat, items: seq<AdItem>, slateUri: string): (r: seq<Quantum>)
    ensures |r| == n
  {
    MarkFirst(Fitted(Expand(items), n, slateUri))
  }

  method BuildQuanta(n: nat, items: seq<AdItem>, slateUri: string) returns (out: seq<Quantum>)
    ensures out == Quanta(n, items, slateUri)
  {
    out := [];
    var j := 0;
    while j < |items|
      invariant j <= |items|
      invariant out == Expand(items[..j])
    {
      out := AddPart(out, items[j]);
      assert items[..j + 1][..j] == items[..j];
      j := j + 1;
    }
    assert items[..j] == items;
    while |out| < n
      invariant |out| >= |Expand(items)|
      invariant |out| > |Expand(items)| ==> |out| <= n
      invariant forall i :: 0 <= i < |out| ==>
        out[i] == if i < |Expand(items)| then Expand(items)[i] else Quantum("slate", slateUri, 0, false)
    {
      out := out + [Quantum("slate", slateUri, 0, false)];
    }
    if |out| > n { out := out[..n]; }
    assert out == Fitted(Expand(items), n, slateUri);
    if |out| > 0 { out := out[0 := out[0].(disc := true)]; }
  }

  method AddPart(before: seq<Quantum>, it: AdItem) returns (out: seq<Quantum>)
    ensures out == before + Part(it, Span(it))
  {
    out := before;
    for i := 0 to Span(it)
      invariant out == before + Part(it, i)
    {
      out := out + [Quantum("ad", it.uri, i, false)];
      assert Part(it, i + 1) == Part(it, i) + [Quantum("ad", it.uri, i, false)];
    }
  }

  /** The creative that plays i seconds into a pod, and the second of it. */
  function AdAt(items: seq<AdItem>, i: int): Option<(AdItem, int)> {
    if items == [] then None
    else if 0 <= i < Span(items[0]) then Some((items[0], i))
    else AdAt(items[1..], i - Span(items[0]))
  }

  lemma {:induction false} ExpandFront(items: seq<AdItem>)
    requires items != []
    ensures Expand(items) == Part(items[0], Span(items[0])) + Expand(items[1..])
    decreases |items|
  {
    var n := |items| - 1;
    if n > 0 {
      ExpandFront(items[..n]);
      assert items[1..][..n - 1] == items[..n][1..];
    }
  }

  lemma {:induction false} ExpandedAt(items: seq<AdItem>, i: nat)
    ensures AdAt(items, i).Some? <==> i < |Expand(items)|
    ensures AdAt(items, i).Some? ==>
      Expand(items)[i] == Quantum("ad", AdAt(items, i).value.0.uri, AdAt(items, i).value.1, false)
    decreases |items|
  {
    if items != [] {
      ExpandFront(items);
      if i >= Span(items[0]) { ExpandedAt(items[1..], i - Span(items[0])); }
    }
  }

  /** Every second of a break plays the second of the pod that it falls on, or the slate behind the pod. */
  lemma {:induction false} QuantaAt(n: nat, items: seq<AdItem>, slateUri: string, i: nat)
    requires i < n
    ensures Quanta(n, items, slateUri)[i] ==
      match AdAt(items, i)
      case Some(x) => Quantum("ad", x.0.uri, x.1, i == 0)
      case None => Quantum("slate", slateUri, 0, i == 0)
  {
    ExpandedAt(items, i);
  }

  // ----- every second -----

  function FindEntry(entries: seq<Entry>, ts: int): (r: Option<Entry>)
    ensures r.Some? ==> r.value in entries && Covers(r.value, ts)
    ensures r.None? ==> forall e <- entries :: !Covers(e, ts)
  {
    if entries == [] then None else if Covers(entries[0], ts) then Some(entries[0]) else FindEntry(entries[1..], ts)
  }

  method SearchEntry(entries: seq<Entry>, ts: int) returns (r: Option<Entry>)
    ensures r == FindEntry(entries, ts)
  {
    for i := 0 to |entries|
      invariant FindEntry(entries, ts) == FindEntry(entries[i..], ts)
    {
      if Covers(entries[i], ts) { return Some(entries[i]); }
      assert entries[i..][1..] == entries[i + 1..];
    }
    return None;
  }

  function SlateClip(cfg: PlanConfig, ts: nat): Clip {
    Clip(ts, ts, 1, "slate", cfg.slateUri, ts, false, None, 0, "")
  }

  /** The clip of a second of an ad break with the given pod; the slate loops, so its offset is the clock. */
  function BreakClip(cfg: PlanConfig, e: Entry, pod: seq<AdItem>, ts: nat): Clip
    requires Covers(e, ts)
  {
    var q := Quanta(e.dur, pod, cfg.slateUri)[ts - e.start];
    Clip(ts, ts, 1, q.kind, q.uri, if q.kind == "slate" then ts else q.offset, q.disc, Some(e.start), e.dur, e.scte35)
  }

  function EntryClip(cfg: PlanConfig, e: Entry, pod: seq<AdItem>, ts: nat): Clip
    requires Covers(e, ts)
  {
    match e.kind
    case Content => Clip(ts, ts, 1, "content", e.uri, ts - e.start + e.off, false, None, 0, "")
    case Bumper => Clip(ts, ts, 1, "bumper", e.uri, ts - e.start + e.off, false, None, 0, "")
    case AdBreak => BreakClip(cfg, e, pod, ts)
    case Slate => SlateClip(cfg, ts)
    case Unknown(_) => SlateClip(cfg, ts)
  }

  function PodOf(pods: map<int, seq<AdItem>>, start: int): seq<AdItem> { if start in pods then pods[start] else [] }

  /** What airs in a second, whenever it is planned. */
  function ClipAt(cfg: PlanConfig, entries: seq<Entry>, pods: map<int, seq<AdItem>>, ts: nat): (c: Clip)
    ensures c.start == ts && c.number == ts && c.seconds == 1
  {
    match FindEntry(entries, ts)
    case None => SlateClip(cfg, ts)
    case Some(e) => EntryClip(cfg, e, PodOf(pods, e.start), ts)
  }

  /** A discontinuity where ads begin or end. */
  function Flagged(c: Clip, prevKind: string): Clip {
    c.(disc := c.disc || (c.kind == "ad" && prevKind != "ad") || (c.kind != "ad" && prevKind == "ad"))
  }

  function KindBefore(cfg: PlanConfig, entries: seq<Entry>, pods: map<int, seq<AdItem>>, now: nat, ts: nat): string {
    if ts <= now then "" else ClipAt(cfg, entries, pods, ts - 1).kind
  }

  /** n seconds from now on. */
  function Layout(cfg: PlanConfig, entries: seq<Entry>, pods: map<int, seq<AdItem>>, now: nat, n: nat): (r: seq<Clip>)
    ensures |r| == n
    ensures forall i :: 0 <= i < n ==>
      r[i] == Flagged(ClipAt(cfg, entries, pods, now + i), KindBefore(cfg, entries, pods, now, now + i))
  {
    seq(n, i requires 0 <= i < n =>
      Flagged(ClipAt(cfg, entries, pods, now + i), KindBefore(cfg, entries, pods, now, now + i)))
  }

  /** Layouts made at different moments agree on every second they share, but for the flag of the later one's first. */
  lemma {:induction false} LayoutsAgree(cfg: PlanConfig, entries: seq<Entry>, pods: map<int, seq<AdItem>>, now: nat,
      n: nat, now': nat, n': nat, ts: nat)
    requires now <= now' <= ts < now + n && ts < now' + n'
    ensures var (c, c') := (Layout(cfg, entries, pods, now, n)[ts - now],
        Layout(cfg, entries, pods, now', n')[ts - now']);
      c.start == ts && (if ts == now' then c'.(disc := c.disc) == c else c' == c)
  {
    hide ClipAt, Flagged;
    FlagOnly(ClipAt(cfg, entries, pods, ts), KindBefore(cfg, entries, pods, now, ts),
        KindBefore(cfg, entries, pods, now', ts));
  }

  lemma {:induction false} FlagOnly(c: Clip, k: string, k': string)
    ensures Flagged(c, k').(disc := Flagged(c, k).disc) == Flagged(c, k) && Flagged(c, k).start == c.start
  {
  }

  // ----- flags -----

  /** Ads begin or end with this second of a list; nothing is known in front of its first one. */
  predicate AdEdge(clips: seq<Clip>, i: nat)
    requires i < |clips|
  {
    (clips[i].kind == "ad") != (i > 0 && clips[i - 1].kind == "ad")
  }

  /** A second carries the flag exactly where ads begin or end, and where an ad break begins. */
  predicate FlagsMarkEdges(clips: seq<Clip>) {
    forall i :: 0 <= i < |clips| ==>
      (clips[i].disc <==> AdEdge(clips, i) || clips[i].breakStart == Some(clips[i].start))
  }

  lemma {:induction false} OwnFlag(cfg: PlanConfig, entries: seq<Entry>, pods: map<int, seq<AdItem>>, ts: nat)
    ensures var c := ClipAt(cfg, entries, pods, ts); c.disc <==> c.breakStart == Some(ts)
  {
    var e := FindEntry(entries, ts);
    if e.Some? && e.value.kind.AdBreak? {
      QuantaAt(e.value.dur, PodOf(pods, e.value.start), cfg.slateUri, ts - e.value.start);
    }
    hide Quanta, FindEntry, AdAt;
  }

  lemma {:induction false} LayoutMarksEdges(cfg: PlanConfig, entries: seq<Entry>, pods: map<int, seq<AdItem>>,
      now: nat, n: nat)
    ensures FlagsMarkEdges(Layout(cfg, entries, pods, now, n))
  {
    var r := Layout(cfg, entries, pods, now, n);
    forall i | 0 <= i < n
      ensures r[i].disc <==> AdEdge(r, i) || r[i].breakStart == Some(r[i].start)
    {
      SecondMarksEdge(cfg, entries, pods, now, n, i);
    }
  }

  lemma {:induction false} SecondMarksEdge(cfg: PlanConfig, entries: seq<Entry>, pods: map<int, seq<AdItem>>,
      now: nat, n: nat, i: nat)
    requires i < n
    ensures var r := Layout(cfg, entries, pods, now, n);
      r[i].disc <==> AdEdge(r, i) || r[i].breakStart == Some(r[i].start)
  {
    hide ClipAt, Flagged, Layout;
    OwnFlag(cfg, entries, pods, now + i);
    FlagIsEdge(ClipAt(cfg, entries, pods, now + i), KindBefore(cfg, entries, pods, now, now + i));
    if i > 0 {
      FlagIsEdge(ClipAt(cfg, entries, pods, now + i - 1), KindBefore(cfg, entries, pods, now, now + i - 1));
    }
  }

  lemma {:induction false} FlagIsEdge(c: Clip, before: string)
    ensures var f := Flagged(c, before);
      && f.kind == c.kind && f.start == c.start && f.breakStart == c.breakStart
      && (f.disc <==> c.disc || (c.kind == "ad") != (before == "ad"))
  {
  }

  // ----- due and released -----

  /** The planner looks at whole seconds. */
  predicate Due(ts: int, slot: int, lead: int) { ts <= slot + lead }

  const SECOND := 1_000_000_000

  /** The engine looks at the clock in nanoseconds. */
  predicate Released(ts: int, clock: int, lead: int) { SECOND * ts <= clock + SECOND * lead }

  /** A clip is due for the planner exactly when the engine releases it, at every moment of a second. */
  lemma {:induction false} DueIsReleased(ts: int, clock: int, lead: int)
    ensures Due(ts, clock / SECOND, lead) <==> Released(ts, clock, lead)
  {
  }
}
