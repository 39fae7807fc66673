/**
 What the commands do to the stream: the picture that the planner lays out for every
 second, with the pods of the ad breaks. An insert is a splice of the stream exactly when
 it cuts no ad break in two, since the planner starts the rest of a cut break over; a
 skip is always a cut of the stream.
 */
module Stream {
  import opened Common
  import opened Schedule
  import opened ScheduleCut
  import opened Filler
  import opened Stitcher
  import opened Plan
  import opened Store
  import opened StoreRuns

  /** What a viewer sees in one second; the slate loops, and any second of it is as good as any other. */
  datatype Picture = Picture(kind: string, uri: string, offset: int)

  function PictureOf(c: Clip): Picture { Picture(c.kind, c.uri, if c.kind == "slate" then 0 else c.offset) }

  function Streams(cfg: PlanConfig, t: seq<Entry>, pods: map<int, seq<AdItem>>, ts: nat): Picture {
    PictureOf(ClipAt(cfg, t, pods, ts))
  }

  // ----- the entry of a second -----

  /** The position function and the planner look at the same entry. */
  lemma {:induction false} AirIsFound(t: seq<Entry>, n: int)
    ensures Air(t, n) == match FindEntry(t, n) case None => None case Some(e) => Some(Show(e, n))
  {
    if t != [] && !Covers(t[0], n) {
      AirIsFound(t[1..], n);
    }
  }

  /** For content and bumpers the planned clip has the source and the position that Air says; slate where Air is
      empty. */
  lemma {:induction false} PlannedIsAir(cfg: PlanConfig, t: seq<Entry>, pods: map<int, seq<AdItem>>, ts: nat)
    ensures var c := ClipAt(cfg, t, pods, ts);
      match Air(t, ts)
      case None => OnSlate(cfg, c)
      case Some(s) =>
        && (s.kind == Content ==> c.kind == "content" && c.uri == s.uri && c.offset == s.pos)
        && (s.kind == Bumper ==> c.kind == "bumper" && c.uri == s.uri && c.offset == s.pos)
        && (s.kind == AdBreak <==> c.breakStart.Some?) && (s.kind == AdBreak ==> c.scte35 == s.scte35)
        && (s.kind != AdBreak && s.kind != Content && s.kind != Bumper ==> OnSlate(cfg, c))
        && (c.kind == "slate" ==> OnSlate(cfg, c))
    ensures var c := ClipAt(cfg, t, pods, ts);
      c.breakStart.Some? ==>
        var e := FindEntry(t, ts);
        e.Some? && e.value.kind == AdBreak && c.breakStart == Some(e.value.start) && c.breakSeconds == e.value.dur
  {
    AirIsFound(t, ts);
    var e := FindEntry(t, ts);
    if e.Some? && e.value.kind.AdBreak? {
      QuantaAt(e.value.dur, PodOf(pods, e.value.start), cfg.slateUri, ts - e.value.start);
    }
    hide Quanta, Air, FindEntry, AdAt;
  }

  /** The slate loops on the clock: the second that it plays is that of the stream. */
  predicate OnSlate(cfg: PlanConfig, c: Clip) { c.kind == "slate" && c.uri == cfg.slateUri && c.offset == c.start }

  lemma {:induction false} FoundAlone(t: seq<Entry>, i: nat, n: int)
    requires Disjoint(t) && i < |t| && Covers(t[i], n)
    ensures FindEntry(t, n) == Some(t[i])
  {
    var e := FindEntry(t, n).value;
    var j :| 0 <= j < |t| && t[j] == e;
    assert i == j;
  }

  lemma {:induction false} FoundIn(t: seq<Entry>, e: Entry, n: int)
    requires Disjoint(t) && e in t && Covers(e, n)
    ensures FindEntry(t, n) == Some(e)
  {
    var i :| 0 <= i < |t| && t[i] == e;
    FoundAlone(t, i, n);
  }

  // ----- an insert -----

  /** What is left of an entry in front of the moment. */
  function Headed(e: Entry, at: int): Entry { if at < End(e) then e.(dur := at - e.start) else e }

  /** The entry of the spliced table that plays a second: a head, the new entry, or a moved one. */
  function SplicedEntry(t: seq<Entry>, at: int, ins: Entry, n: int): Option<Entry> {
    if n < at then match FindEntry(t, n) case None => None case Some(e) => Some(Headed(e, at))
    else if n < at + ins.dur then Some(ins.(start := at))
    else match FindEntry(t, n - ins.dur) case None => None case Some(e) => Some(Moved(e, at, ins.dur))
  }

  lemma {:induction false} InParts(a: seq<Entry>, b: seq<Entry>, x: Entry, c: seq<Entry>)
    ensures x in a + (b + [x] + c)
    ensures forall e :: (e in a ==> e in a + (b + [x] + c)) && (e in b ==> e in a + (b + [x] + c))
                        && (e in c ==> e in a + (b + [x] + c))
  {
    var r := a + (b + [x] + c);
    assert r[|a| + |b|] == x;
    forall i | 0 <= i < |c| ensures c[i] in r { assert r[|a| + |b| + 1 + i] == c[i]; }
    forall i | 0 <= i < |b| ensures b[i] in r { assert r[|a| + i] == b[i]; }
    forall i | 0 <= i < |a| ensures a[i] in r { assert r[i] == a[i]; }
  }

  lemma {:induction false} LiveGoes(live: seq<Entry>, at: int, ins: Entry, j: nat)
    requires Split([], live, at) && 0 < ins.dur && j < |live|
    ensures Moved(live[j], at, ins.dur) in Tails(live, at, ins.dur)
    ensures live[j].start < at ==> live[j].(dur := at - live[j].start) in Heads(live, at)
  {
    InsertOnOrdered(live, at, ins);
    hide Heads, Tails, Moved;
    assert 0 < j ==> End(live[0]) <= live[j].start;
    assert Tails(live, at, ins.dur)[j] == Moved(live[j], at, ins.dur);
  }

  /** Where the entries of a table go when one is inserted. */
  lemma {:induction false} EntryGoes(t: seq<Entry>, at: int, ins: Entry, i: nat)
    requires Disjoint(t) && 0 < ins.dur && i < |t|
    ensures var r := Inserted(t, at, ins);
      (t[i].start < at ==> Headed(t[i], at) in r) && (at < End(t[i]) ==> Moved(t[i], at, ins.dur) in r)
  {
    var k := Ended(t, at);
    SplitTable(t, at);
    AfterEnded(t, at);
    InParts(t[..k], Heads(t[k..], at), ins.(start := at), Tails(t[k..], at, ins.dur));
    hide Heads, Tails, Moved, Disjoint;
    if i < k {
      assert t[..k][i] == t[i];
    } else {
      assert t[k..][i - k] == t[i];
      assert Split([], t[k..], at) by {
        hide *;
        SplitLive(t[..k], t[k..], at);
      }
      LiveGoes(t[k..], at, ins, i - k);
    }
  }

  lemma {:induction false} SplitLive(pre: seq<Entry>, live: seq<Entry>, at: int)
    requires Split(pre, live, at)
    ensures Split([], live, at)
  {
  }

  lemma {:induction false} MovedCovers(e: Entry, at: int, d: int, n: int)
    requires 0 < d && at + d <= n && Covers(e, n - d)
    ensures Covers(Moved(e, at, d), n) && at < End(e)
  {
  }

  /** Which entry plays a second after an insert, when one played before it. */
  lemma {:induction false} KeptEntry(t: seq<Entry>, at: int, ins: Entry, n: int, i: nat)
    requires Disjoint(t) && 0 < ins.dur && Disjoint(Inserted(t, at, ins)) && i < |t|
    ensures n < at && Covers(t[i], n) ==> FindEntry(Inserted(t, at, ins), n) == Some(Headed(t[i], at))
    ensures at + ins.dur <= n && Covers(t[i], n - ins.dur) ==>
      FindEntry(Inserted(t, at, ins), n) == Some(Moved(t[i], at, ins.dur))
  {
    EntryGoes(t, at, ins, i);
    hide Inserted, Disjoint, Moved, FindEntry;
    if n < at && Covers(t[i], n) {
      FoundIn(Inserted(t, at, ins), Headed(t[i], at), n);
    }
    if at + ins.dur <= n && Covers(t[i], n - ins.dur) {
      MovedCovers(t[i], at, ins.dur, n);
      FoundIn(Inserted(t, at, ins), Moved(t[i], at, ins.dur), n);
    }
  }

  lemma {:induction false} AddedEntry(t: seq<Entry>, at: int, ins: Entry, n: int)
    requires 0 < ins.dur && Disjoint(Inserted(t, at, ins)) && at <= n < at + ins.dur
    ensures FindEntry(Inserted(t, at, ins), n) == Some(ins.(start := at))
  {
    var k := Ended(t, at);
    InParts(t[..k], Heads(t[k..], at), ins.(start := at), Tails(t[k..], at, ins.dur));
    assert ins.(start := at) in Inserted(t, at, ins);
    hide Inserted, Disjoint, FindEntry;
    FoundIn(Inserted(t, at, ins), ins.(start := at), n);
  }

  /** Which entry plays a second after an insert. */
  lemma {:induction false} InsertedEntry(t: seq<Entry>, at: int, ins: Entry, n: int)
    requires Disjoint(t) && InsertShift(t, at, ins).Ok?
    ensures 0 < ins.dur && FindEntry(Inserted(t, at, ins), n) == SplicedEntry(t, at, ins, n)
  {
    InsertRefinesSplice(t, at, ins);
    assert 0 < ins.dur;
    hide Inserted, InsertShift, Disjoint, Replace, Schedule.Seconds, Air, Moved, FindEntry, Headed, Show;
    if at <= n < at + ins.dur {
      AddedEntry(t, at, ins, n);
    } else {
      var m := if n < at then n else n - ins.dur;
      if FindEntry(t, m).Some? {
        var i :| 0 <= i < |t| && t[i] == FindEntry(t, m).value;
        KeptEntry(t, at, ins, n, i);
      } else {
        assert Air(Inserted(t, at, ins), n) == SplicedAir(t, at, ins, n) == Air(t, m);
        AirIsFound(Inserted(t, at, ins), n);
        AirIsFound(t, m);
      }
    }
  }

  /** Every break keeps its pod: in front of the moment under its start, behind it under its new start. */
  predicate PodsFollow(t: seq<Entry>, at: int, d: int, pods: map<int, seq<AdItem>>, pods': map<int, seq<AdItem>>) {
    forall e <- t :: e.kind == AdBreak ==>
      && (e.start < at ==> PodOf(pods', e.start) == PodOf(pods, e.start))
      && (at < End(e) ==> PodOf(pods', Moved(e, at, d).start) == PodOf(pods, e.start))
  }

  /** An ad break is on the air at the moment and began before it. */
  predicate CutsBreak(t: seq<Entry>, at: int) {
    exists e <- t :: e.kind == AdBreak && e.start < at < End(e)
  }

  /** The stream of t with ins spliced in. */
  function SplicedStream(cfg: PlanConfig, t: seq<Entry>, at: nat, ins: Entry, pods: map<int, seq<AdItem>>,
    pods': map<int, seq<AdItem>>, ts: nat): Picture
  {
    if ts < at then Streams(cfg, t, pods, ts)
    else if ts < at + ins.dur then Streams(cfg, [ins.(start := at)], pods', ts)
    else Streams(cfg, t, pods, ts - ins.dur)
  }

  function EntryPicture(cfg: PlanConfig, e: Entry, pod: seq<AdItem>, ts: nat): Picture
    requires Covers(e, ts)
  {
    PictureOf(EntryClip(cfg, e, pod, ts))
  }

  /** A shorter entry shows the same pictures while it lasts. */
  lemma {:induction false} HeadedPicture(cfg: PlanConfig, e: Entry, at: int, pod: seq<AdItem>, ts: nat)
    requires Covers(e, ts) && ts < at
    ensures EntryPicture(cfg, Headed(e, at), pod, ts) == EntryPicture(cfg, e, pod, ts)
  {
    QuantaAt(e.dur, pod, cfg.slateUri, ts - e.start);
    QuantaAt(Headed(e, at).dur, pod, cfg.slateUri, ts - e.start);
    hide Quanta, AdAt;
  }

  /** A moved entry shows the same pictures later, unless it is the rest of an ad break. */
  lemma {:induction false} MovedPicture(cfg: PlanConfig, e: Entry, at: int, d: nat, pod: seq<AdItem>, ts: nat)
    requires 0 < d && at + d <= ts && Covers(e, ts - d) && 0 <= ts - d
    requires e.kind == AdBreak ==> at <= e.start
    ensures Covers(Moved(e, at, d), ts)
    ensures EntryPicture(cfg, Moved(e, at, d), pod, ts) == EntryPicture(cfg, e, pod, ts - d)
  {
    hide Quanta;
  }

  function SlatePicture(cfg: PlanConfig): Picture { Picture("slate", cfg.slateUri, 0) }

  lemma {:induction false} StreamFound(cfg: PlanConfig, t: seq<Entry>, pods: map<int, seq<AdItem>>, ts: nat)
    ensures Streams(cfg, t, pods, ts) ==
      match FindEntry(t, ts)
      case None => SlatePicture(cfg)
      case Some(e) => EntryPicture(cfg, e, PodOf(pods, e.start), ts)
  {
    hide EntryClip;
  }

  lemma {:induction false} AddedStream(cfg: PlanConfig, t: seq<Entry>, added: Entry, pods: map<int, seq<AdItem>>,
      ts: nat)
    requires FindEntry(t, ts) == Some(added)
    ensures Streams(cfg, t, pods, ts) == Streams(cfg, [added], pods, ts)
  {
    assert FindEntry([added], ts) == Some(added);
    hide EntryClip;
  }

  lemma {:induction false} InsertSplicesStream(cfg: PlanConfig, t: seq<Entry>, at: nat, ins: Entry,
      pods: map<int, seq<AdItem>>, pods': map<int, seq<AdItem>>, ts: nat)
    requires Disjoint(t) && InsertShift(t, at, ins).Ok? && !CutsBreak(t, at) && PodsFollow(t, at, ins.dur, pods, pods')
    ensures Streams(cfg, Inserted(t, at, ins), pods', ts) == SplicedStream(cfg, t, at, ins, pods, pods', ts)
  {
    hide *;
    InsertedEntry(t, at, ins, ts);
    StreamOfSpliced(cfg, t, Inserted(t, at, ins), at, ins, pods, pods', ts);
  }

  lemma {:induction false} StreamOfSpliced(cfg: PlanConfig, t: seq<Entry>, r: seq<Entry>, at: nat, ins: Entry,
      pods: map<int, seq<AdItem>>, pods': map<int, seq<AdItem>>, ts: nat)
    requires 0 < ins.dur && !CutsBreak(t, at) && PodsFollow(t, at, ins.dur, pods, pods')
    requires FindEntry(r, ts) == SplicedEntry(t, at, ins, ts)
    ensures Streams(cfg, r, pods', ts) == SplicedStream(cfg, t, at, ins, pods, pods', ts)
  {
    hide Streams, EntryPicture, FindEntry, Moved, Headed, PodOf, CutsBreak, PodsFollow;
    if at <= ts < at + ins.dur {
      AddedStream(cfg, r, ins.(start := at), pods', ts);
    } else {
      var m := if ts < at then ts else ts - ins.dur;
      StreamFound(cfg, t, pods, m);
      StreamFound(cfg, r, pods', ts);
      if FindEntry(t, m).Some? {
        KeptPicture(cfg, t, at, ins, pods, pods', ts, FindEntry(t, m).value);
      }
    }
  }

  /** An entry that is not the rest of an ad break shows what it showed. */
  lemma {:induction false} KeptPicture(cfg: PlanConfig, t: seq<Entry>, at: nat, ins: Entry,
      pods: map<int, seq<AdItem>>, pods': map<int, seq<AdItem>>, ts: nat, e: Entry)
    requires 0 < ins.dur && !CutsBreak(t, at) && PodsFollow(t, at, ins.dur, pods, pods') && e in t
    ensures var h := Headed(e, at);
      ts < at && Covers(e, ts) ==>
        && Covers(h, ts)
        && EntryPicture(cfg, h, PodOf(pods', h.start), ts) == EntryPicture(cfg, e, PodOf(pods, e.start), ts)
    ensures var m := Moved(e, at, ins.dur);
      at + ins.dur <= ts && Covers(e, ts - ins.dur) ==>
        && Covers(m, ts)
        && EntryPicture(cfg, m, PodOf(pods', m.start), ts) == EntryPicture(cfg, e, PodOf(pods, e.start), ts - ins.dur)
  {
    hide PodOf;
    if ts < at && Covers(e, ts) {
      HeadedPicture(cfg, e, at, PodOf(pods, e.start), ts);
      OtherPod(cfg, Headed(e, at), PodOf(pods, e.start), PodOf(pods', e.start), ts);
    }
    if at + ins.dur <= ts && Covers(e, ts - ins.dur) {
      var m := Moved(e, at, ins.dur);
      MovedPicture(cfg, e, at, ins.dur, PodOf(pods, e.start), ts);
      OtherPod(cfg, m, PodOf(pods, e.start), PodOf(pods', m.start), ts);
    }
  }

  /** Only an ad break looks at its pod. */
  lemma {:induction false} OtherPod(cfg: PlanConfig, e: Entry, pod: seq<AdItem>, pod': seq<AdItem>, ts: nat)
    requires Covers(e, ts) && (e.kind == AdBreak ==> pod == pod')
    ensures EntryPicture(cfg, e, pod, ts) == EntryPicture(cfg, e, pod', ts)
  {
    hide BreakClip;
  }

  // ----- a break that is cut -----

  /** What a pod shows i seconds after the start of its break. */
  function PodPicture(cfg: PlanConfig, pod: seq<AdItem>, i: nat): Picture {
    match AdAt(pod, i)
    case Some(x) => Picture("ad", x.0.uri, x.1)
    case None => SlatePicture(cfg)
  }

  /** The planner takes the rest of a cut break for a break of its own and plays its pod from the first second on. */
  lemma {:induction false} RestStartsOver(cfg: PlanConfig, t: seq<Entry>, at: nat, ins: Entry, e: Entry,
      pods': map<int, seq<AdItem>>, i: nat)
    requires Disjoint(t) && InsertShift(t, at, ins).Ok?
    requires e in t && e.kind == AdBreak && e.start < at && i < End(e) - at
    ensures var c, pod := ClipAt(cfg, Inserted(t, at, ins), pods', at + ins.dur + i), PodOf(pods', at + ins.dur);
      && c.breakStart == Some(at + ins.dur) && c.breakSeconds == End(e) - at
      && PictureOf(c) == PodPicture(cfg, pod, i)
  {
    hide *;
    InsertedIsLonger(t, at, ins);
    RestEntry(t, at, ins, e, at + ins.dur + i);
    BreakAt(cfg, Inserted(t, at, ins), pods', at + ins.dur + i, e.(start := at + ins.dur, dur := End(e) - at,
      off := e.off + (at - e.start)));
  }

  lemma {:induction false} RestEntry(t: seq<Entry>, at: nat, ins: Entry, e: Entry, ts: nat)
    requires Disjoint(t) && InsertShift(t, at, ins).Ok?
    requires e in t && e.start < at && at + ins.dur <= ts < End(e) + ins.dur
    ensures 0 < ins.dur && FindEntry(Inserted(t, at, ins), ts) ==
      Some(e.(start := at + ins.dur, dur := End(e) - at, off := e.off + (at - e.start)))
  {
    hide Inserted, Disjoint, InsertShift, FindEntry;
    InsertedEntry(t, at, ins, ts);
    FoundIn(t, e, ts - ins.dur);
  }

  lemma {:induction false} BreakAt(cfg: PlanConfig, t: seq<Entry>, pods: map<int, seq<AdItem>>, ts: nat, e: Entry)
    requires FindEntry(t, ts) == Some(e) && e.kind == AdBreak
    ensures var c := ClipAt(cfg, t, pods, ts);
      && c.breakStart == Some(e.start) && c.breakSeconds == e.dur
      && PictureOf(c) == PodPicture(cfg, PodOf(pods, e.start), ts - e.start)
  {
    hide BreakClip, FindEntry, PodPicture, PodOf;
    BreakPicture(cfg, e, PodOf(pods, e.start), ts);
  }

  lemma {:induction false} BreakPicture(cfg: PlanConfig, e: Entry, pod: seq<AdItem>, ts: nat)
    requires Covers(e, ts)
    ensures var c := BreakClip(cfg, e, pod, ts);
      && c.breakStart == Some(e.start) && c.breakSeconds == e.dur
      && PictureOf(c) == PodPicture(cfg, pod, ts - e.start)
  {
    QuantaAt(e.dur, pod, cfg.slateUri, ts - e.start);
    hide Quanta, AdAt;
  }

  /** A pod of one spot that fills a break. */
  function OneSpot(e: Entry): seq<AdItem> { [AdItem("spot", "spot", e.dur, "spot")] }

  lemma {:induction false} OneSpotAt(e: Entry, i: nat)
    requires i < e.dur
    ensures AdAt(OneSpot(e), i) == Some((AdItem("spot", "spot", e.dur, "spot"), i))
  {
  }

  /** Pods with which a cut break shows: the spot runs on before the insert and starts over behind it. */
  lemma {:induction false} CutBreakShows(cfg: PlanConfig, t: seq<Entry>, at: nat, ins: Entry, e: Entry)
    requires Disjoint(t) && InsertShift(t, at, ins).Ok? && e in t && e.kind == AdBreak && e.start < at < End(e)
    ensures var pods := map[e.start := OneSpot(e)];
      var pods', ts := pods[at + ins.dur := OneSpot(e)], at + ins.dur;
      && PodsFollow(t, at, ins.dur, pods, pods')
      && Streams(cfg, Inserted(t, at, ins), pods', ts) == Picture("ad", "spot", 0)
      && SplicedStream(cfg, t, at, ins, pods, pods', ts) == Picture("ad", "spot", at - e.start)
  {
    hide *;
    InsertedIsLonger(t, at, ins);
    FollowingPods(t, at, ins.dur, e, OneSpot(e));
    RestEntry(t, at, ins, e, at + ins.dur);
    FoundIn(t, e, at);
    SpotBefore(cfg, t, at, ins, e, map[e.start := OneSpot(e)][at + ins.dur := OneSpot(e)]);
    SpotBehind(cfg, Inserted(t, at, ins), e, at + ins.dur, e.(start := at + ins.dur, dur := End(e) - at,
      off := e.off + (at - e.start)));
  }

  lemma {:induction false} SpotBefore(cfg: PlanConfig, t: seq<Entry>, at: nat, ins: Entry, e: Entry,
      pods': map<int, seq<AdItem>>)
    requires 0 < ins.dur && FindEntry(t, at) == Some(e) && e.kind == AdBreak
    ensures SplicedStream(cfg, t, at, ins, map[e.start := OneSpot(e)], pods', at + ins.dur)
      == Picture("ad", "spot", at - e.start)
  {
    hide FindEntry, OneSpot, Streams;
    SpotShows(cfg, t, map[e.start := OneSpot(e)], at, e, e);
  }

  lemma {:induction false} SpotBehind(cfg: PlanConfig, r: seq<Entry>, e: Entry, ts: nat, m: Entry)
    requires FindEntry(r, ts) == Some(m) && m.kind == AdBreak && m.start == ts && 0 < e.dur
    ensures Streams(cfg, r, map[e.start := OneSpot(e)][ts := OneSpot(e)], ts) == Picture("ad", "spot", 0)
  {
    hide FindEntry, OneSpot, Streams;
    SpotShows(cfg, r, map[e.start := OneSpot(e)][ts := OneSpot(e)], ts, m, e);
  }

  lemma {:induction false} SpotShows(cfg: PlanConfig, t: seq<Entry>, pods: map<int, seq<AdItem>>, ts: nat, m: Entry,
      e: Entry)
    requires FindEntry(t, ts) == Some(m) && m.kind == AdBreak
    requires m.start in pods && pods[m.start] == OneSpot(e) && ts - m.start < e.dur
    ensures Streams(cfg, t, pods, ts) == Picture("ad", "spot", ts - m.start)
  {
    hide ClipAt, FindEntry, PodPicture, OneSpot;
    BreakAt(cfg, t, pods, ts, m);
    SpotPicture(cfg, e, ts - m.start);
  }

  lemma {:induction false} InsertedIsLonger(t: seq<Entry>, at: int, ins: Entry)
    requires InsertShift(t, at, ins).Ok?
    ensures 0 < ins.dur
  {
  }

  lemma {:induction false} SpotPicture(cfg: PlanConfig, e: Entry, i: nat)
    requires i < e.dur
    ensures PodPicture(cfg, OneSpot(e), i) == Picture("ad", "spot", i)
  {
    OneSpotAt(e, i);
  }

  lemma {:induction false} FollowingPods(t: seq<Entry>, at: int, d: int, e: Entry, pod: seq<AdItem>)
    requires Disjoint(t) && 0 < d && e in t && e.start < at < End(e)
    ensures PodsFollow(t, at, d, map[e.start := pod], map[e.start := pod][at + d := pod]) && 0 < e.dur
  {
    var i :| 0 <= i < |t| && t[i] == e;
    forall j | 0 <= j < |t|
      ensures j < i ==> t[j].start < e.start && End(t[j]) <= at
      ensures i < j ==> at < t[j].start
    {
    }
  }

  /**
   On every table in order, inserting is a splice of the stream, whatever the pods are
   that the breaks keep, if and only if the moment does not lie inside an ad break.
   */
  lemma {:induction false} InsertRefinesStreamIff(cfg: PlanConfig, t: seq<Entry>, at: nat, ins: Entry)
    requires Disjoint(t) && InsertShift(t, at, ins).Ok?
    ensures !CutsBreak(t, at) <==> forall pods, pods', ts: nat :: PodsFollow(t, at, ins.dur, pods, pods') ==>
      Streams(cfg, Inserted(t, at, ins), pods', ts) == SplicedStream(cfg, t, at, ins, pods, pods', ts)
  {
    hide Disjoint, InsertShift, Inserted, SplicedStream, Streams, PodsFollow;
    if CutsBreak(t, at) {
      var e :| e in t && e.kind == AdBreak && e.start < at < End(e);
      CutBreakShows(cfg, t, at, ins, e);
      var pods := map[e.start := OneSpot(e)];
      var pods' := pods[at + ins.dur := OneSpot(e)];
      InsertedIsLonger(t, at, ins);
      var ts: nat := at + ins.dur;
      assert PodsFollow(t, at, ins.dur, pods, pods');
      assert Streams(cfg, Inserted(t, at, ins), pods', ts) != SplicedStream(cfg, t, at, ins, pods, pods', ts);
    } else {
      forall pods, pods', ts: nat | PodsFollow(t, at, ins.dur, pods, pods')
        ensures Streams(cfg, Inserted(t, at, ins), pods', ts) == SplicedStream(cfg, t, at, ins, pods, pods', ts)
      {
        InsertSplicesStream(cfg, t, at, ins, pods, pods', ts);
      }
    }
  }

  /**
   A break of ten seconds, with a slate of five seconds put into its middle, and the same
   spot as the pod of both halves: by its position the break goes on behind the slate, but
   on the stream it is a new break whose spot starts over and loses its second half.
   */
  lemma {:induction false} BreakIsStartedOver(cfg: PlanConfig, e: Entry, ins: Entry)
    requires e == Entry(AdBreak, "", "", 100, 10, 0, "", "") && ins == Entry(Slate, "", "", 0, 5, 0, "", "")
    ensures var r, pods := Inserted([e], 105, ins), map[100 := OneSpot(e), 110 := OneSpot(e)];
      && InsertShift([e], 105, ins).Ok?
      && Air(r, 110) == Air([e], 105)
      && PictureOf(ClipAt(cfg, [e], pods, 105)) == Picture("ad", "spot", 5)
      && PictureOf(ClipAt(cfg, r, pods, 110)) == Picture("ad", "spot", 0)
      && ClipAt(cfg, r, pods, 110).breakStart == Some(110) && ClipAt(cfg, r, pods, 110).breakSeconds == 5
  {
    BreakIsAccepted(e, ins);
    assert e in [e] && e.start == 100 && End(e) == 110 && ins.dur == 5 && e.dur == 10;
    hide *;
    var pods := map[100 := OneSpot(e), 110 := OneSpot(e)];
    PositionGoesOn([e], 105, ins, 110);
    RestStartsOver(cfg, [e], 105, ins, e, pods, 0);
    BreakAt(cfg, [e], pods, 105, e);
    PodOfKey(pods, 100);
    PodOfKey(pods, 110);
    SpotPicture(cfg, e, 0);
    SpotPicture(cfg, e, 5);
  }

  lemma {:induction false} PodOfKey(pods: map<int, seq<AdItem>>, start: int)
    requires start in pods
    ensures PodOf(pods, start) == pods[start]
  {
  }

  lemma {:induction false} BreakIsAccepted(e: Entry, ins: Entry)
    requires e == Entry(AdBreak, "", "", 100, 10, 0, "", "") && ins == Entry(Slate, "", "", 0, 5, 0, "", "")
    ensures InsertShift([e], 105, ins).Ok? && Disjoint([e]) && FindEntry([e], 105) == Some(e)
  {
  }

  lemma {:induction false} PositionGoesOn(t: seq<Entry>, at: int, ins: Entry, n: int)
    requires Disjoint(t) && InsertShift(t, at, ins).Ok? && at + ins.dur <= n
    ensures Air(Inserted(t, at, ins), n) == Air(t, n - ins.dur)
  {
    InsertRefinesSplice(t, at, ins);
    hide Inserted, Disjoint, Air, Replace, Schedule.Seconds;
  }

  // ----- a skip -----

  /** The entry of a table that plays a second when p seconds from at on are cut out of a chain that ends at ce. */
  function CutEntry(t: seq<Entry>, at: int, p: int, ce: int, n: int): Option<Entry> {
    if n < at then match FindEntry(t, n) case None => None case Some(e) => Some(Headed(e, at))
    else if n < ce - p then
      match FindEntry(t, n + p) case None => None case Some(e) => Some(e.(start := e.start - p))
    else if n < ce then None
    else FindEntry(t, n)
  }

  /** Which part of a table covers a second, by its place. */
  lemma {:induction false} PartOf(pre: seq<Entry>, cur: Entry, chain: seq<Entry>, other: seq<Entry>, at: int, ce: int,
      e: Entry, n: int)
    requires Parts(pre, cur, chain, other, at, ce) && e in Whole(pre, cur, chain, other) && Covers(e, n)
    ensures n < at ==> e in pre || (e == cur && e.start < at)
    ensures End(cur) <= n < ce ==> e in chain
    ensures ce <= n ==> e in other
    ensures e in pre ==> End(e) <= at
  {
  }

  lemma {:induction false} PartGoes(pre: seq<Entry>, cur: Entry, chain: seq<Entry>, other: seq<Entry>, at: int,
      e: Entry)
    requires at < End(cur)
    ensures var r := Cut(pre, cur, chain, other, at);
      && (e in pre && End(e) <= at ==> Headed(e, at) in r)
      && (e == cur && e.start < at ==> Headed(e, at) in r)
      && (e in chain ==> e.(start := e.start - (End(cur) - at)) in r)
      && (e in other ==> e in r)
  {
    var p := End(cur) - at;
    AdvanceElements(chain, p);
    if e in chain {
      var i :| 0 <= i < |chain| && chain[i] == e;
      assert Advance(chain, p)[i] == e.(start := e.start - p);
    }
    if e == cur && e.start < at {
      assert Shortened(cur, at)[0] == Headed(e, at);
    }
  }

  lemma {:induction false} PulledCovers(e: Entry, p: int, n: int)
    requires Covers(e, n + p)
    ensures Covers(e.(start := e.start - p), n)
  {
  }

  /** Which entry plays a second after a skip, when one played the second it comes from. */
  lemma {:induction false} KeptByCut(pre: seq<Entry>, cur: Entry, chain: seq<Entry>, other: seq<Entry>, at: int,
      ce: int, e: Entry, n: int)
    requires Parts(pre, cur, chain, other, at, ce) && e in Whole(pre, cur, chain, other)
    requires Disjoint(Cut(pre, cur, chain, other, at))
    ensures var r, p := Cut(pre, cur, chain, other, at), End(cur) - at;
      && (n < at && Covers(e, n) ==> FindEntry(r, n) == Some(Headed(e, at)))
      && (at <= n < ce - p && Covers(e, n + p) ==> FindEntry(r, n) == Some(e.(start := e.start - p)))
      && (ce <= n && Covers(e, n) ==> FindEntry(r, n) == Some(e))
  {
    var r, p := Cut(pre, cur, chain, other, at), End(cur) - at;
    PartGoes(pre, cur, chain, other, at, e);
    hide Cut, Disjoint, FindEntry, Parts, Whole;
    if n < at && Covers(e, n) {
      PartOf(pre, cur, chain, other, at, ce, e, n);
      FoundIn(r, Headed(e, at), n);
    }
    if at <= n < ce - p && Covers(e, n + p) {
      PartOf(pre, cur, chain, other, at, ce, e, n + p);
      PulledCovers(e, p, n);
      FoundIn(r, e.(start := e.start - p), n);
    }
    if ce <= n && Covers(e, n) {
      PartOf(pre, cur, chain, other, at, ce, e, n);
      FoundIn(r, e, n);
    }
  }

  lemma {:induction false} NothingAfterCut(t: seq<Entry>, r: seq<Entry>, at: int, p: int, ce: int, n: int)
    requires Air(r, n) == CutAir(t, at, p, ce, n) && CutEntry(t, at, p, ce, n) == None
    ensures FindEntry(r, n) == None
  {
    hide Air, FindEntry, Headed;
    AirIsFound(r, n);
    AirIsFound(t, n);
    AirIsFound(t, n + p);
  }

  lemma {:induction false} CutFound(pre: seq<Entry>, cur: Entry, chain: seq<Entry>, other: seq<Entry>, at: int,
      ce: int, n: int)
    requires Parts(pre, cur, chain, other, at, ce)
    ensures FindEntry(Cut(pre, cur, chain, other, at), n)
      == CutEntry(Whole(pre, cur, chain, other), at, End(cur) - at, ce, n)
  {
    hide *;
    AirOfCut(pre, cur, chain, other, at, ce, n);
    CutIsDisjoint(pre, cur, chain, other, at, ce);
    var t, r, p := Whole(pre, cur, chain, other), Cut(pre, cur, chain, other, at), End(cur) - at;
    if CutEntry(t, at, p, ce, n).None? {
      NothingAfterCut(t, r, at, p, ce, n);
    } else {
      var m := if n < at || ce <= n then n else n + p;
      PartsAreApart(pre, cur, chain, other, at, ce);
      CutEntryFrom(t, at, p, ce, n);
      KeptByCut(pre, cur, chain, other, at, ce, FindEntry(t, m).value, n);
    }
  }

  lemma {:induction false} PartsAreApart(pre: seq<Entry>, cur: Entry, chain: seq<Entry>, other: seq<Entry>, at: int,
      ce: int)
    requires Parts(pre, cur, chain, other, at, ce)
    ensures 0 < End(cur) - at
  {
  }

  lemma {:induction false} CutEntryFrom(t: seq<Entry>, at: int, p: int, ce: int, n: int)
    requires 0 <= p && CutEntry(t, at, p, ce, n).Some?
    ensures var e := FindEntry(t, if n < at || ce <= n then n else n + p);
      && e.Some? && e.value in t && Covers(e.value, if n < at || ce <= n then n else n + p)
      && (n < at ==> CutEntry(t, at, p, ce, n) == Some(Headed(e.value, at)))
      && (at <= n < ce ==> n < ce - p && CutEntry(t, at, p, ce, n) == Some(e.value.(start := e.value.start - p)))
      && (at <= n && ce <= n ==> CutEntry(t, at, p, ce, n) == Some(e.value))
  {
    hide FindEntry, Headed;
  }

  lemma {:induction false} SkipIsCut(t: seq<Entry>, at: int)
    requires Disjoint(t) && OnAir(t, at) < |t|
    ensures var (pre, cur, chain, other) := (Before(t, at), Current(t, at), Chain(t, at), Other(t, at));
      && Parts(pre, cur, chain, other, at, EndOfChain(t, at)) && t == Whole(pre, cur, chain, other)
      && Skipped(t, at) == Cut(pre, cur, chain, other, at) && Remainder(t, at) == End(cur) - at
  {
    SkipParts(t, at);
    SkipWhole(t, at);
    hide Disjoint, Before, Chain, Other, EndOfChain, OnAir, Current, Parts, Behind, Cut;
  }

  /** Which entry plays a second after a skip. */
  lemma {:induction false} SkippedEntry(t: seq<Entry>, at: int, n: int)
    requires Disjoint(t) && OnAir(t, at) < |t|
    ensures FindEntry(Skipped(t, at), n) == CutEntry(t, at, Remainder(t, at), EndOfChain(t, at), n)
  {
    hide *;
    SkipIsCut(t, at);
    CutFound(Before(t, at), Current(t, at), Chain(t, at), Other(t, at), at, EndOfChain(t, at), n);
  }

  /** Every break keeps its pod, the breaks back to back behind the skipped entry under their new start. */
  predicate PodsArePulled(t: seq<Entry>, at: int, p: int, ce: int, pods: map<int, seq<AdItem>>,
    pods': map<int, seq<AdItem>>)
  {
    forall e <- t :: e.kind == AdBreak ==>
      && (e.start < at || ce <= e.start ==> PodOf(pods', e.start) == PodOf(pods, e.start))
      && (at < e.start < ce ==> PodOf(pods', e.start - p) == PodOf(pods, e.start))
  }

  /** The stream of t without p seconds from at on, where the chain on the air ends at ce. */
  function CutStream(cfg: PlanConfig, t: seq<Entry>, at: nat, p: nat, ce: int, pods: map<int, seq<AdItem>>,
    ts: nat): Picture
  {
    if ts < at then Streams(cfg, t, pods, ts)
    else if ts < ce - p then Streams(cfg, t, pods, ts + p)
    else if ts < ce then SlatePicture(cfg)
    else Streams(cfg, t, pods, ts)
  }

  lemma {:induction false} PulledPicture(cfg: PlanConfig, e: Entry, p: int, pod: seq<AdItem>, ts: nat)
    requires 0 < p && Covers(e, ts + p)
    ensures Covers(e.(start := e.start - p), ts)
    ensures EntryPicture(cfg, e.(start := e.start - p), pod, ts) == EntryPicture(cfg, e, pod, ts + p)
  {
    hide Quanta;
  }

  /** The entries that cover a second behind the rest that is cut out begin behind the moment. */
  predicate Behinds(t: seq<Entry>, at: int, p: int, ce: int) {
    at + p <= ce && forall e <- t :: at + p < End(e) ==> at < e.start && (ce < End(e) ==> ce <= e.start)
  }

  lemma {:induction false} BehindCut(pre: seq<Entry>, cur: Entry, chain: seq<Entry>, other: seq<Entry>, at: int,
      ce: int)
    requires Parts(pre, cur, chain, other, at, ce)
    ensures Behinds(Whole(pre, cur, chain, other), at, End(cur) - at, ce)
  {
    hide Disjoint;
    forall e <- Whole(pre, cur, chain, other) | End(cur) < End(e)
      ensures at < e.start && (ce < End(e) ==> ce <= e.start)
    {
      assert e !in pre && e != cur;
    }
  }

  /**
   Skipping is a cut of the stream, on every table in order and whatever pods the breaks
   keep: also a break that is skipped in its middle shows in front what it showed.
   */
  lemma {:induction false} SkipRefinesStream(cfg: PlanConfig, t: seq<Entry>, at: nat, pods: map<int, seq<AdItem>>,
      pods': map<int, seq<AdItem>>, ts: nat)
    requires Disjoint(t) && OnAir(t, at) < |t|
    ensures 0 < Remainder(t, at)
    ensures PodsArePulled(t, at, Remainder(t, at), EndOfChain(t, at), pods, pods') ==>
      Streams(cfg, Skipped(t, at), pods', ts) == CutStream(cfg, t, at, Remainder(t, at), EndOfChain(t, at), pods, ts)
  {
    OnAirCovers(t, at);
    assert 0 < Remainder(t, at);
    hide *;
    if PodsArePulled(t, at, Remainder(t, at), EndOfChain(t, at), pods, pods') {
      SkippedEntry(t, at, ts);
      SkippedBehinds(t, at);
      StreamOfCut(cfg, t, Skipped(t, at), at, Remainder(t, at), EndOfChain(t, at), pods, pods', ts);
    }
  }

  lemma {:induction false} SkippedBehinds(t: seq<Entry>, at: int)
    requires Disjoint(t) && OnAir(t, at) < |t|
    ensures Behinds(t, at, Remainder(t, at), EndOfChain(t, at))
  {
    hide *;
    SkipIsCut(t, at);
    BehindCut(Before(t, at), Current(t, at), Chain(t, at), Other(t, at), at, EndOfChain(t, at));
  }

  lemma {:induction false} StreamOfCut(cfg: PlanConfig, t: seq<Entry>, r: seq<Entry>, at: nat, p: nat, ce: int,
      pods: map<int, seq<AdItem>>, pods': map<int, seq<AdItem>>, ts: nat)
    requires 0 < p && Behinds(t, at, p, ce) && PodsArePulled(t, at, p, ce, pods, pods')
    requires FindEntry(r, ts) == CutEntry(t, at, p, ce, ts)
    ensures Streams(cfg, r, pods', ts) == CutStream(cfg, t, at, p, ce, pods, ts)
  {
    hide Streams, EntryPicture, FindEntry, Headed, PodOf, Behinds, PodsArePulled;
    var m := if ts < at || ce <= ts then ts else ts + p;
    StreamFound(cfg, t, pods, m);
    StreamFound(cfg, r, pods', ts);
    if FindEntry(t, m).Some? {
      PictureOfCut(cfg, t, at, p, ce, pods, pods', ts, FindEntry(t, m).value);
    }
  }

  lemma {:induction false} PictureOfCut(cfg: PlanConfig, t: seq<Entry>, at: nat, p: nat, ce: int,
      pods: map<int, seq<AdItem>>, pods': map<int, seq<AdItem>>, ts: nat, e: Entry)
    requires 0 < p && Behinds(t, at, p, ce) && PodsArePulled(t, at, p, ce, pods, pods') && e in t
    ensures var h := Headed(e, at);
      ts < at && Covers(e, ts) ==>
        && Covers(h, ts)
        && EntryPicture(cfg, h, PodOf(pods', h.start), ts) == EntryPicture(cfg, e, PodOf(pods, e.start), ts)
    ensures var m := e.(start := e.start - p);
      at <= ts < ce - p && Covers(e, ts + p) ==>
        && Covers(m, ts)
        && EntryPicture(cfg, m, PodOf(pods', m.start), ts) == EntryPicture(cfg, e, PodOf(pods, e.start), ts + p)
    ensures at <= ts && ce <= ts && Covers(e, ts) ==>
        EntryPicture(cfg, e, PodOf(pods', e.start), ts) == EntryPicture(cfg, e, PodOf(pods, e.start), ts)
  {
    hide PodOf, EntryPicture;
    if ts < at && Covers(e, ts) {
      HeadedPicture(cfg, e, at, PodOf(pods, e.start), ts);
      OtherPod(cfg, Headed(e, at), PodOf(pods, e.start), PodOf(pods', e.start), ts);
    }
    if at <= ts < ce - p && Covers(e, ts + p) {
      var m := e.(start := e.start - p);
      PulledPicture(cfg, e, p, PodOf(pods, e.start), ts);
      OtherPod(cfg, m, PodOf(pods, e.start), PodOf(pods', m.start), ts);
    }
    if at <= ts && ce <= ts && Covers(e, ts) {
      OtherPod(cfg, e, PodOf(pods, e.start), PodOf(pods', e.start), ts);
    }
  }

  // ----- a command -----

  /** A command that shifts does so in the middle of an ad break. */
  predicate StartsBreakOver(s: Sheet, q: Request, assets: Assets)
    requires Prepared(q, assets).Ok?
  {
    q.command.typ != SkipCurrent && CutsBreak(s.rows, MomentAndEntry(q, assets).0)
  }

  /** The pods that every break keeps through a command. */
  predicate PodsAreKept(s: Sheet, q: Request, assets: Assets, pods: map<int, seq<AdItem>>,
    pods': map<int, seq<AdItem>>)
    requires Prepared(q, assets).Ok?
  {
    var (t, (at, ins)) := (s.rows, MomentAndEntry(q, assets));
    if q.command.typ != SkipCurrent then PodsFollow(t, at, ins.dur, pods, pods')
    else OnAir(t, at) < |t| && PodsArePulled(t, at, Remainder(t, at), EndOfChain(t, at), pods, pods')
  }

  /** The stream that a command asks for. */
  function AskedStream(cfg: PlanConfig, s: Sheet, q: Request, assets: Assets, pods: map<int, seq<AdItem>>,
    pods': map<int, seq<AdItem>>, ts: nat): Picture
    requires Prepared(q, assets).Ok? && 0 <= MomentAndEntry(q, assets).0
  {
    var (t, (at, ins)) := (s.rows, MomentAndEntry(q, assets));
    if q.command.typ != SkipCurrent then SplicedStream(cfg, t, at, ins, pods, pods', ts)
    else if OnAir(t, at) < |t| && 0 < Remainder(t, at) then
      CutStream(cfg, t, at, Remainder(t, at), EndOfChain(t, at), pods, ts)
    else Streams(cfg, t, pods, ts)
  }

  /**
   An applied command splices or cuts the stream itself, whatever pods the breaks keep, if
   and only if it does not insert in the middle of an ad break.
   */
  lemma {:induction false} CommandRefinesStreamIff(cfg: PlanConfig, s: Sheet, q: Request, assets: Assets)
    requires Good(s) && Run(s, q, assets).1.Applied? && Prepared(q, assets).Ok?
    requires 0 <= MomentAndEntry(q, assets).0
    ensures !StartsBreakOver(s, q, assets) <==>
        forall pods, pods', ts: nat :: PodsAreKept(s, q, assets, pods, pods') ==>
      Streams(cfg, Run(s, q, assets).0.rows, pods', ts) == AskedStream(cfg, s, q, assets, pods, pods', ts)
  {
    hide *;
    AppliedTable(s, q, assets);
    if q.command.typ == SkipCurrent {
      forall pods, pods', ts: nat | PodsAreKept(s, q, assets, pods, pods')
        ensures Streams(cfg, Run(s, q, assets).0.rows, pods', ts) == AskedStream(cfg, s, q, assets, pods, pods', ts)
      {
        SkipCommand(cfg, s, q, assets, pods, pods', ts);
      }
      SkipStartsNothingOver(s, q, assets);
    } else {
      InsertCommand(cfg, s, q, assets);
    }
  }

  lemma {:induction false} SkipStartsNothingOver(s: Sheet, q: Request, assets: Assets)
    requires Prepared(q, assets).Ok? && q.command.typ == SkipCurrent
    ensures !StartsBreakOver(s, q, assets)
  {
    hide Prepared, CutsBreak;
  }

  lemma {:induction false} SkipCommand(cfg: PlanConfig, s: Sheet, q: Request, assets: Assets,
      pods: map<int, seq<AdItem>>, pods': map<int, seq<AdItem>>, ts: nat)
    requires Prepared(q, assets).Ok? && q.command.typ == SkipCurrent && 0 <= MomentAndEntry(q, assets).0
    requires Disjoint(s.rows) && PodsAreKept(s, q, assets, pods, pods')
    ensures Streams(cfg, Skipped(s.rows, MomentAndEntry(q, assets).0), pods', ts)
      == AskedStream(cfg, s, q, assets, pods, pods', ts)
  {
    hide Prepared, Streams, PodsArePulled, CutStream, Skipped, OnAir, Remainder, Disjoint;
    SkipRefinesStream(cfg, s.rows, MomentAndEntry(q, assets).0, pods, pods', ts);
  }

  lemma {:induction false} InsertCommand(cfg: PlanConfig, s: Sheet, q: Request, assets: Assets)
    requires Prepared(q, assets).Ok? && q.command.typ != SkipCurrent && 0 <= MomentAndEntry(q, assets).0
    requires Disjoint(s.rows)
    requires var (at, ins) := MomentAndEntry(q, assets); InsertShift(s.rows, at, ins).Ok?
    ensures var (at, ins) := MomentAndEntry(q, assets);
      !StartsBreakOver(s, q, assets) <==> forall pods, pods', ts: nat :: PodsAreKept(s, q, assets, pods, pods') ==>
        Streams(cfg, Inserted(s.rows, at, ins), pods', ts) == AskedStream(cfg, s, q, assets, pods, pods', ts)
  {
    hide Prepared, Streams, PodsFollow, SplicedStream, CutsBreak, InsertShift, Inserted, Disjoint;
    var (at, ins) := MomentAndEntry(q, assets);
    InsertRefinesStreamIff(cfg, s.rows, at, ins);
    forall pods, pods', ts: nat
      ensures PodsAreKept(s, q, assets, pods, pods') == PodsFollow(s.rows, at, ins.dur, pods, pods')
      ensures AskedStream(cfg, s, q, assets, pods, pods', ts) == SplicedStream(cfg, s.rows, at, ins, pods, pods', ts)
    {
    }
  }

  lemma {:induction false} AppliedTable(s: Sheet, q: Request, assets: Assets)
    requires Good(s) && Run(s, q, assets).1.Applied? && Prepared(q, assets).Ok?
    ensures Disjoint(s.rows)
    ensures var (t, (at, ins)) := (s.rows, MomentAndEntry(q, assets));
      if q.command.typ == SkipCurrent then OnAir(t, at) < |t| && Run(s, q, assets).0.rows == Skipped(t, at)
      else InsertShift(t, at, ins).Ok? && Run(s, q, assets).0.rows == Inserted(t, at, ins)
  {
    AppliedIsEdited(s, q, assets);
    var (at, ins) := MomentAndEntry(q, assets);
    EditApplies(s.rows, q.command, at, ins);
    hide Run, Replace, Disjoint, CheckEntries, Prepared, Skipped, Inserted, OnAir, InsertShift, Skip, Schedule.Seconds;
  }
}
