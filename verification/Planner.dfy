/**
 The planner with its broker, tick after tick: every plan is the pointwise layout of its
 schedule and the pods decided so far, and one break is aired from one pod.
 */
module Planner {
  import opened Common
  import opened Schedule
  import opened Filler
  import opened Stitcher
  import opened Plan
  import opened AdBroker

  // ----- one plan -----

  function EntryOf(b: Broker, start: int): PodEntry
    requires Valid(b) && start in b.pods
  {
    b.entries[b.pods[start]]
  }

  /** The clip of one second, without its boundary flag, and the broker behind it; None holds the plan back. */
  function Second(cfg: PlanConfig, entries: seq<Entry>, now: nat, ts: nat, b: Broker,
      turn: Turn): (r: (Option<Clip>, Broker))
    requires Valid(b)
    ensures Valid(r.1)
  {
    match FindEntry(entries, ts)
    case None => (Some(SlateClip(cfg, ts)), b)
    case Some(e) =>
      if !e.kind.AdBreak? then (Some(EntryClip(cfg, e, [], ts)), b) else
        AskedKeeps(b, e.start, turn);
        var c := Asked(b, e.start, turn);
        var en := EntryOf(c, e.start);
        if en.state == Ready then (Some(BreakClip(cfg, e, en.items, ts)), c)
        else if !Due(ts, now, cfg.lead) then (None, c)
        else
          GiveUpKeeps(c, e.start);
          (Some(BreakClip(cfg, e, [], ts)), GiveUp(c, e.start))
  }

  datatype Built = Built(clips: seq<Clip>, broker: Broker, held: bool)

  function TurnAt(feed: seq<Turn>, i: nat): Turn { if i < |feed| then feed[i] else Turn(false, []) }

  function LastKind(clips: seq<Clip>): string { if clips == [] then "" else clips[|clips| - 1].kind }

  /** The first n seconds of a plan. */
  function Build(cfg: PlanConfig, entries: seq<Entry>, now: nat, b: Broker, feed: seq<Turn>, n: nat): (p: Built)
    requires Valid(b)
    ensures Valid(p.broker)
  {
    if n == 0 then Built([], b, false) else
      var p := Build(cfg, entries, now, b, feed, n - 1);
      if p.held then p else
        var (clip, c) := Second(cfg, entries, now, now + n - 1, p.broker, TurnAt(feed, n - 1));
        match clip
        case None => Built(p.clips, c, true)
        case Some(clip) => Built(p.clips + [Flagged(clip, LastKind(p.clips))], c, false)
  }

  method BuildPlan(cfg: PlanConfig, entries: seq<Entry>, now: nat, pods: Pods, feed: seq<Turn>) returns (out: seq<Clip>)
    requires Valid(pods.Value())
    modifies pods
    ensures Valid(pods.Value())
    ensures var p := Build(cfg, entries, now, old(pods.Value()), feed, cfg.ahead);
      out == p.clips && pods.Value() == p.broker
  {
    hide Quanta, Asked, GiveUp, Flagged;
    ghost var b := pods.Value();
    out := [];
    var prevKind := "";
    var i := 0;
    while i < cfg.ahead
      invariant i <= cfg.ahead
      invariant Valid(pods.Value())
      invariant Build(cfg, entries, now, b, feed, i) == Built(out, pods.Value(), false) && prevKind == LastKind(out)
    {
      ghost var before := pods.Value();
      var ts := now + i;
      var clip, held := PlanSecond(cfg, entries, now, ts, pods, TurnAt(feed, i));
      if held {
        HeldBack(cfg, entries, now, b, feed, i + 1, cfg.ahead);
        return;
      }
      clip := Flagged(clip, prevKind);
      out := out + [clip];
      prevKind := clip.kind;
      i := i + 1;
    }
  }

  /** One second of the loop. */
  method PlanSecond(cfg: PlanConfig, entries: seq<Entry>, now: nat, ts: nat, pods: Pods, turn: Turn)
    returns (clip: Clip, held: bool)
    requires Valid(pods.Value())
    modifies pods
    ensures Valid(pods.Value())
    ensures Second(cfg, entries, now, ts, old(pods.Value()), turn) == (if held then None else Some(clip), pods.Value())
  {
    hide Quanta, Asked, GiveUp;
    clip, held := SlateClip(cfg, ts), false;
    var found := SearchEntry(entries, ts);
    if found.Some? {
      var e := found.value;
      if e.kind.AdBreak? {
        var due := Due(ts, now, cfg.lead);
        var en := pods.Pod(e.start, turn);
        var pod := en.items;
        if en.state != Ready {
          if !due { held := true; return; }
          GiveUpKeeps(pods.Value(), e.start);
          pods.Abandon(e.start);
          pod := [];
        }
        var quanta := BuildQuanta(e.dur, pod, cfg.slateUri);
        var q := quanta[ts - e.start];
        clip := Clip(ts, ts, 1, q.kind, q.uri, if q.kind == "slate" then ts else q.offset, q.disc,
                     Some(e.start), e.dur, e.scte35);
      } else {
        clip := EntryClip(cfg, e, [], ts);
      }
    }
  }

  lemma {:induction false} HeldBack(cfg: PlanConfig, entries: seq<Entry>, now: nat, b: Broker, feed: seq<Turn>,
      n: nat, m: nat)
    requires Valid(b) && n <= m && Build(cfg, entries, now, b, feed, n).held
    ensures Build(cfg, entries, now, b, feed, m) == Build(cfg, entries, now, b, feed, n)
    decreases m
  {
    hide Second;
    if n < m { HeldBack(cfg, entries, now, b, feed, n, m - 1); }
  }

  // ----- plans are pointwise -----

  /** The ad breaks of n seconds from now on are decided. */
  predicate Known(entries: seq<Entry>, pods: map<int, seq<AdItem>>, now: nat, n: nat) {
    forall ts :: now <= ts < now + n ==> KnownAt(entries, pods, ts)
  }

  predicate KnownAt(entries: seq<Entry>, pods: map<int, seq<AdItem>>, ts: int) {
    var e := FindEntry(entries, ts);
    e.Some? && e.value.kind.AdBreak? ==> e.value.start in pods
  }

  predicate Extends(p: map<int, seq<AdItem>>, q: map<int, seq<AdItem>>) {
    forall s <- p :: s in q && q[s] == p[s]
  }

  lemma {:induction false} SecondIsPointwise(cfg: PlanConfig, entries: seq<Entry>, now: nat, ts: nat, b: Broker,
      turn: Turn)
    requires Valid(b)
    ensures var (clip, c) := Second(cfg, entries, now, ts, b, turn);
      && Keeps(b, c)
      && (clip.Some? ==> clip.value == ClipAt(cfg, entries, ReadyPods(c), ts) && KnownAt(entries, ReadyPods(c), ts))
      && (clip.None? ==> !Due(ts, now, cfg.lead))
  {
    hide Quanta, Asked, GiveUp;
    var e := FindEntry(entries, ts);
    if e.Some? && e.value.kind.AdBreak? {
      var start := e.value.start;
      AskedKeeps(b, start, turn);
      var c := Asked(b, start, turn);
      if EntryOf(c, start).state != Ready {
        GiveUpKeeps(c, start);
        KeepsOn(b, c, GiveUp(c, start));
      }
    }
  }

  lemma {:induction false} ClipStays(cfg: PlanConfig, entries: seq<Entry>, p: map<int, seq<AdItem>>,
      q: map<int, seq<AdItem>>, ts: nat)
    requires Extends(p, q) && KnownAt(entries, p, ts)
    ensures ClipAt(cfg, entries, p, ts) == ClipAt(cfg, entries, q, ts) && KnownAt(entries, q, ts)
  {
    hide Quanta;
  }

  /** A layout does not change when more breaks are decided. */
  lemma {:induction false} LayoutStays(cfg: PlanConfig, entries: seq<Entry>, p: map<int, seq<AdItem>>,
      q: map<int, seq<AdItem>>, now: nat, n: nat)
    requires Extends(p, q) && Known(entries, p, now, n)
    ensures Layout(cfg, entries, p, now, n) == Layout(cfg, entries, q, now, n) && Known(entries, q, now, n)
  {
    hide ClipAt, Flagged, KnownAt;
    forall ts: nat | now <= ts < now + n
      ensures ClipAt(cfg, entries, p, ts) == ClipAt(cfg, entries, q, ts) && KnownAt(entries, q, ts)
    {
      ClipStays(cfg, entries, p, q, ts);
    }
    var a, b := Layout(cfg, entries, p, now, n), Layout(cfg, entries, q, now, n);
    forall i | 0 <= i < n ensures a[i] == b[i] {
      assert KindBefore(cfg, entries, p, now, now + i) == KindBefore(cfg, entries, q, now, now + i);
    }
  }

  lemma {:induction false} OneSecondMore(cfg: PlanConfig, entries: seq<Entry>, pods: map<int, seq<AdItem>>, now: nat,
      n: nat)
    requires Known(entries, pods, now, n) && KnownAt(entries, pods, now + n)
    ensures Known(entries, pods, now, n + 1)
    ensures Layout(cfg, entries, pods, now, n + 1)
         == Layout(cfg, entries, pods, now, n)
            + [Flagged(ClipAt(cfg, entries, pods, now + n), LastKind(Layout(cfg, entries, pods, now, n)))]
  {
    hide ClipAt, KnownAt;
    var a := Layout(cfg, entries, pods, now, n);
    assert LastKind(a) == KindBefore(cfg, entries, pods, now, now + n);
  }

  /** The plan as far as it goes: decided, and laid out second by second. */
  ghost predicate LaidOut(cfg: PlanConfig, entries: seq<Entry>, now: nat, b: Broker, p: Built)
    requires Valid(b) && Valid(p.broker)
  {
    && Keeps(b, p.broker)
    && Known(entries, ReadyPods(p.broker), now, |p.clips|)
    && p.clips == Layout(cfg, entries, ReadyPods(p.broker), now, |p.clips|)
  }

  lemma {:induction false} LaidOutStep(cfg: PlanConfig, entries: seq<Entry>, now: nat, b: Broker, p: Built, turn: Turn)
    requires Valid(b) && Valid(p.broker) && LaidOut(cfg, entries, now, b, p)
    ensures var n := |p.clips|;
      var (clip, c) := Second(cfg, entries, now, now + n, p.broker, turn);
      && LaidOut(cfg, entries, now, b, Built(p.clips, c, true))
      && (clip.Some? ==>
          LaidOut(cfg, entries, now, b, Built(p.clips + [Flagged(clip.value, LastKind(p.clips))], c, false)))
      && (clip.None? ==> n > cfg.lead)
  {
    hide Second, Layout, ReadyPods, Known, KnownAt, ClipAt, Flagged, LastKind;
    var n := |p.clips|;
    SecondIsPointwise(cfg, entries, now, now + n, p.broker, turn);
    var r := Second(cfg, entries, now, now + n, p.broker, turn);
    KeepsOn(b, p.broker, r.1);
    LayoutStays(cfg, entries, ReadyPods(p.broker), ReadyPods(r.1), now, n);
    if r.0.Some? {
      OneSecondMore(cfg, entries, ReadyPods(r.1), now, n);
    }
  }

  lemma {:induction false} LaidOutStart(cfg: PlanConfig, entries: seq<Entry>, now: nat, b: Broker)
    requires Valid(b)
    ensures LaidOut(cfg, entries, now, b, Built([], b, false))
  {
  }

  /**
   A plan is the gap-free pointwise layout of the schedule and the decided pods; what was
   decided stays, and only seconds that are not released yet are held back.
   */
  lemma {:induction false} PlanIsLayout(cfg: PlanConfig, entries: seq<Entry>, now: nat, b: Broker, feed: seq<Turn>,
      n: nat)
    requires Valid(b)
    ensures var p := Build(cfg, entries, now, b, feed, n);
      && LaidOut(cfg, entries, now, b, p)
      && |p.clips| <= n && (!p.held ==> |p.clips| == n) && (p.held ==> |p.clips| > cfg.lead)
  {
    hide LaidOut, Second, Flagged, LastKind, TurnAt;
    if n == 0 {
      LaidOutStart(cfg, entries, now, b);
    } else {
      PlanIsLayout(cfg, entries, now, b, feed, n - 1);
      var p := Build(cfg, entries, now, b, feed, n - 1);
      if !p.held {
        LaidOutStep(cfg, entries, now, b, p, TurnAt(feed, n - 1));
      }
    }
  }

  /** In every plan the flag is where ads begin or end and where an ad break begins, and nowhere else. */
  lemma {:induction false} PlanMarksEdges(cfg: PlanConfig, entries: seq<Entry>, now: nat, b: Broker, feed: seq<Turn>,
      n: nat)
    requires Valid(b)
    ensures FlagsMarkEdges(Build(cfg, entries, now, b, feed, n).clips)
  {
    hide Build, Layout, ReadyPods, Known, FlagsMarkEdges;
    PlanIsLayout(cfg, entries, now, b, feed, n);
    var p := Build(cfg, entries, now, b, feed, n);
    LayoutMarksEdges(cfg, entries, ReadyPods(p.broker), now, |p.clips|);
  }

  // ----- what decides a break -----

  /** One of the first n seconds of the plan lies in this break and is about to be released. */
  predicate IsDue(cfg: PlanConfig, entries: seq<Entry>, now: nat, n: nat, start: int) {
    exists ts :: now <= ts < now + n && ts <= now + cfg.lead && BreakAt(entries, ts) == Some(start)
  }

  function BreakAt(entries: seq<Entry>, ts: int): Option<int> {
    match FindEntry(entries, ts)
    case Some(e) => if e.kind.AdBreak? then Some(e.start) else None
    case None => None
  }

  /** The pod arrived while the first n seconds were planned. */
  predicate Arrived(feed: seq<Turn>, n: nat, pod: seq<AdItem>) {
    exists i, a :: 0 <= i < n && a in TurnAt(feed, i).answers && a.items == Some(pod)
  }

  /** A pod that the broker had, that arrived, or that is slate for a break that is due. */
  ghost predicate DecidedWell(cfg: PlanConfig, entries: seq<Entry>, now: nat, b: Broker, feed: seq<Turn>, n: nat,
      s: int, pod: seq<AdItem>)
    requires Valid(b)
  {
    s in ReadyPods(b) || Arrived(feed, n, pod) || (pod == [] && IsDue(cfg, entries, now, n, s))
  }

  lemma {:induction false} ReceivedArrived(b: Broker, answers: seq<Answer>, s: int)
    requires Valid(b)
    ensures var c := ReceiveAll(b, answers);
      Valid(c) && (s in ReadyPods(c) && s !in ReadyPods(b) ==> exists a <- answers :: a.items == Some(ReadyPods(c)[s]))
    decreases |answers|
  {
    ReceiveAllKeeps(b, answers);
    if answers != [] {
      var n := |answers| - 1;
      ReceivedArrived(b, answers[..n], s);
      assert answers[n] in answers;
    }
  }

  lemma {:induction false} AskedArrived(b: Broker, start: int, turn: Turn, s: int)
    requires Valid(b)
    ensures var c := Asked(b, start, turn);
      && Valid(c)
      && (s in ReadyPods(c) && s !in ReadyPods(b) ==> exists a <- turn.answers :: a.items == Some(ReadyPods(c)[s]))
  {
    hide ReceiveAll, Keeps;
    AskKeeps(b, start, turn.retry);
    ReceivedArrived(Ask(b, start, turn.retry), turn.answers, s);
  }

  /** What one second decides. */
  lemma {:induction false} SecondDecides(cfg: PlanConfig, entries: seq<Entry>, now: nat, ts: nat, b: Broker,
      turn: Turn, s: int)
    requires Valid(b)
    ensures var (clip, c) := Second(cfg, entries, now, ts, b, turn);
      && (s in ReadyPods(c) ==>
            || s in ReadyPods(b) || (exists a <- turn.answers :: a.items == Some(ReadyPods(c)[s]))
            || (ReadyPods(c)[s] == [] && ts <= now + cfg.lead && BreakAt(entries, ts) == Some(s)))
      && (clip.None? ==> BreakAt(entries, ts).Some? && BreakAt(entries, ts).value !in ReadyPods(c))
  {
    hide Quanta, Asked, GiveUp, ReadyPods, BreakClip;
    if BreakAt(entries, ts).Some? {
      var start := BreakAt(entries, ts).value;
      AskedKeeps(b, start, turn);
      AskedArrived(b, start, turn, s);
      var c := Asked(b, start, turn);
      ReadyIs(c, start);
      if EntryOf(c, start).state != Ready {
        GiveUpKeeps(c, start);
      }
    }
  }

  lemma {:induction false} ReadyIs(b: Broker, start: int)
    requires Valid(b) && start in b.pods
    ensures start in ReadyPods(b) <==> EntryOf(b, start).state == Ready
  {
  }

  lemma {:induction false} MoreIsDecided(cfg: PlanConfig, entries: seq<Entry>, now: nat, b: Broker, feed: seq<Turn>,
      n: nat, s: int, pod: seq<AdItem>)
    requires Valid(b)
    requires DecidedWell(cfg, entries, now, b, feed, n, s, pod)
          || (exists a <- TurnAt(feed, n).answers :: a.items == Some(pod))
          || (pod == [] && n <= cfg.lead && BreakAt(entries, now + n) == Some(s))
    ensures DecidedWell(cfg, entries, now, b, feed, n + 1, s, pod)
  {
    hide ReadyPods, BreakAt, TurnAt;
  }

  /** One more second of a plan. */
  lemma {:induction false} StepDecides(cfg: PlanConfig, entries: seq<Entry>, now: nat, b: Broker, feed: seq<Turn>,
      n: nat, p: Broker, s: int)
    requires Valid(b) && Valid(p)
    requires s in ReadyPods(p) ==> DecidedWell(cfg, entries, now, b, feed, n, s, ReadyPods(p)[s])
    ensures var (clip, c) := Second(cfg, entries, now, now + n, p, TurnAt(feed, n));
      s in ReadyPods(c) ==> DecidedWell(cfg, entries, now, b, feed, n + 1, s, ReadyPods(c)[s])
  {
    hide Second, ReadyPods, DecidedWell, BreakAt, TurnAt;
    var (clip, c) := Second(cfg, entries, now, now + n, p, TurnAt(feed, n));
    if s in ReadyPods(c) {
      SecondIsPointwise(cfg, entries, now, now + n, p, TurnAt(feed, n));
      SecondDecides(cfg, entries, now, now + n, p, TurnAt(feed, n), s);
      MoreIsDecided(cfg, entries, now, b, feed, n, s, ReadyPods(c)[s]);
    }
  }

  /** The plan stops only in front of a break that is not decided. */
  predicate HeldWell(entries: seq<Entry>, now: nat, p: Built)
    requires Valid(p.broker)
  {
    p.held ==>
      var start := BreakAt(entries, now + |p.clips|);
      start.Some? && start.value !in ReadyPods(p.broker)
  }

  /**
   Planning decides a break only with a pod that arrives, or for slate when one of its seconds is about
   to be released; and a plan is held back only in front of a break that is not decided.
   */
  lemma {:induction false} BreaksAreDecidedWell(cfg: PlanConfig, entries: seq<Entry>, now: nat, b: Broker,
      feed: seq<Turn>, n: nat)
    requires Valid(b)
    ensures var p := Build(cfg, entries, now, b, feed, n);
      && (forall s <- ReadyPods(p.broker) :: DecidedWell(cfg, entries, now, b, feed, n, s, ReadyPods(p.broker)[s]))
      && HeldWell(entries, now, p) && (!p.held ==> |p.clips| == n)
  {
    hide Second, ReadyPods, Flagged, DecidedWell, BreakAt, TurnAt;
    if n == 0 {
      NothingDecided(cfg, entries, now, b, feed);
    } else {
      BreaksAreDecidedWell(cfg, entries, now, b, feed, n - 1);
      var p, q := Build(cfg, entries, now, b, feed, n - 1), Build(cfg, entries, now, b, feed, n);
      if p.held {
        forall s | s in ReadyPods(p.broker)
          ensures DecidedWell(cfg, entries, now, b, feed, n, s, ReadyPods(p.broker)[s])
        {
          MoreIsDecided(cfg, entries, now, b, feed, n - 1, s, ReadyPods(p.broker)[s]);
        }
      } else {
        forall s | s in ReadyPods(q.broker)
          ensures DecidedWell(cfg, entries, now, b, feed, n, s, ReadyPods(q.broker)[s])
        {
          StepDecides(cfg, entries, now, b, feed, n - 1, p.broker, s);
        }
        SecondDecides(cfg, entries, now, now + n - 1, p.broker, TurnAt(feed, n - 1), 0);
      }
    }
  }

  lemma {:induction false} NothingDecided(cfg: PlanConfig, entries: seq<Entry>, now: nat, b: Broker, feed: seq<Turn>)
    requires Valid(b)
    ensures forall s <- ReadyPods(b) :: DecidedWell(cfg, entries, now, b, feed, 0, s, ReadyPods(b)[s])
  {
  }

  /**
   Replanning is stable: as long as the decided pods of the first plan are kept, a plan made
   later from the same schedule agrees with it on every shared second, but for the flag of
   the later plan's first clip.
   */
  lemma {:induction false} ReplanningIsStable(cfg: PlanConfig, entries: seq<Entry>, now: nat, b: Broker,
      feed: seq<Turn>, now': nat, b': Broker, feed': seq<Turn>, ts: nat)
    requires Valid(b) && Valid(b')
    requires Keeps(Build(cfg, entries, now, b, feed, cfg.ahead).broker, b')
    requires var (p, p') := (Build(cfg, entries, now, b, feed, cfg.ahead),
        Build(cfg, entries, now', b', feed', cfg.ahead));
      now <= now' <= ts < now + |p.clips| && ts < now' + |p'.clips|
    ensures var (p, p') := (Build(cfg, entries, now, b, feed, cfg.ahead),
        Build(cfg, entries, now', b', feed', cfg.ahead));
      var (c, c') := (p.clips[ts - now], p'.clips[ts - now']);
      c.start == ts && (if ts == now' then c'.(disc := c.disc) == c else c' == c)
  {
    hide Build, Layout, ReadyPods, Known;
    var p, p' := Build(cfg, entries, now, b, feed, cfg.ahead), Build(cfg, entries, now', b', feed', cfg.ahead);
    PlanIsLayout(cfg, entries, now, b, feed, cfg.ahead);
    PlanIsLayout(cfg, entries, now', b', feed', cfg.ahead);
    KeepsOn(p.broker, b', p'.broker);
    LayoutStays(cfg, entries, ReadyPods(p.broker), ReadyPods(p'.broker), now, |p.clips|);
    LayoutsAgree(cfg, entries, ReadyPods(p'.broker), now, |p.clips|, now', |p'.clips|, ts);
  }

  // ----- ticks -----

  datatype Releasing = Releasing(tried: seq<Clip>, last: Option<int>, stopped: bool)

  /** The clips of a plan that a tick hands to the stitcher: due, not tried before, while the budget lasts. */
  function Release(plan: seq<Clip>, slot: nat, lead: nat, last: Option<int>, budget: nat): Releasing {
    if plan == [] then Releasing([], last, false) else
      var r := Release(plan[..|plan| - 1], slot, lead, last, budget);
      var c := plan[|plan| - 1];
      if r.stopped || !Due(c.start, slot, lead) || (r.last.Some? && c.start <= r.last.value) then r
      else if |r.tried| >= budget then r.(stopped := true)
      else Releasing(r.tried + [c], Some(c.start), false)
  }

  method ReleaseDue(plan: seq<Clip>, slot: nat, lead: nat, last: Option<int>, budget: nat)
    returns (tried: seq<Clip>, lastTried: Option<int>)
    ensures var r := Release(plan, slot, lead, last, budget); tried == r.tried && lastTried == r.last
  {
    tried, lastTried := [], last;
    var i := 0;
    while i < |plan|
      invariant i <= |plan|
      invariant Release(plan[..i], slot, lead, last, budget) == Releasing(tried, lastTried, false)
    {
      var c := plan[i];
      assert plan[..i + 1][..i] == plan[..i];
      i := i + 1;
      if !Due(c.start, slot, lead) || (lastTried.Some? && c.start <= lastTried.value) { continue; }
      if |tried| >= budget {
        StopsThere(plan, slot, lead, last, budget, i);
        return;
      }
      lastTried := Some(c.start);
      tried := tried + [c];
    }
    assert plan[..i] == plan;
  }

  lemma {:induction false} StopsThere(plan: seq<Clip>, slot: nat, lead: nat, last: Option<int>, budget: nat, i: nat)
    requires i <= |plan| && Release(plan[..i], slot, lead, last, budget).stopped
    ensures Release(plan, slot, lead, last, budget) == Release(plan[..i], slot, lead, last, budget)
    decreases |plan|
  {
    if i == |plan| {
      assert plan[..i] == plan;
    } else {
      assert plan[..|plan| - 1][..i] == plan[..i];
      StopsThere(plan[..|plan| - 1], slot, lead, last, budget, i);
    }
  }

  predicate AtLeast(last: Option<int>, t: int) { last.Some? && last.value >= t }

  lemma {:induction false} ReleaseFacts(plan: seq<Clip>, slot: nat, lead: nat, last: Option<int>, budget: nat)
    ensures var r := Release(plan, slot, lead, last, budget);
      && (forall c <- r.tried ::
            c in plan && Due(c.start, slot, lead) && !AtLeast(last, c.start) && AtLeast(r.last, c.start))
      && (last.Some? ==> AtLeast(r.last, last.value))
    decreases |plan|
  {
    if plan != [] {
      ReleaseFacts(plan[..|plan| - 1], slot, lead, last, budget);
    }
  }

  /** A tick with any budget has tried its own second behind it. */
  lemma {:induction false} OwnSecondIsTried(plan: seq<Clip>, slot: nat, lead: nat, last: Option<int>, budget: nat)
    requires plan != [] && plan[0].start == slot && budget >= 1
    ensures AtLeast(Release(plan, slot, lead, last, budget).last, slot)
    decreases |plan|
  {
    if |plan| == 1 {
      assert plan[..0] == [];
    } else {
      OwnSecondIsTried(plan[..|plan| - 1], slot, lead, last, budget);
    }
  }
}
