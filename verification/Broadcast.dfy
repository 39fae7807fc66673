/**
 Planner and stitcher together: the clips that the ticks of a process release are the ones
 that its stitcher tries, so what is written for a break, and what is published of it, is
 the ad that one pod has for its second, and the slate only where that ad is not available.
 */
module Broadcast {
  import opened Common
  import opened Filler
  import opened Stitcher
  import opened Plan
  import opened AdBroker
  import opened OnePod
  import opened LivePlaylist
  import opened Playlist
  import opened Sources
  import Airings

  function Clips(tries: seq<Try>): (r: seq<Clip>)
    ensures |r| == |tries| && forall i :: 0 <= i < |r| ==> r[i] == tries[i].clip
  {
    seq(|tries|, i requires 0 <= i < |tries| => tries[i].clip)
  }

  /** One process: in every tick its stitcher tries the clips that the tick releases, whatever the network answers and
      whatever can be written. */
  predicate OneProcess(plan: PlanConfig, ms: seq<Moment>, steps: seq<Step>) {
    |steps| == |ms| && forall k :: 0 <= k < |ms| ==> steps[k].Tick? && Clips(steps[k].tries) == TriedAt(plan, ms, k)
  }

  /** All that the stitcher tries in these ticks, in order. */
  function TriesOf(steps: seq<Step>): seq<Try> {
    if steps == [] then []
    else
      var last := steps[|steps| - 1];
      TriesOf(steps[..|steps| - 1]) + if last.Tick? then last.tries else []
  }

  /** What goes on the air in a run of one process. */
  function OnAir(cfg: Config, steps: seq<Step>): seq<Airing> { Airings.Aired(cfg, Fresh(map[]), TriesOf(steps)) }

  // ----- what a try shows -----

  /** What a second of a break shows when the pod plays: its ad if that is available, and else the slate. */
  function PodPicture(plan: PlanConfig, cfg: Config, world: World, pod: seq<AdItem>, c: Clip): Option<Picture>
    requires c.breakStart.Some?
  {
    match AdAt(pod, c.start - c.breakStart.value)
    case Some((ad, second)) =>
      if Available(cfg, world, ad.uri, second, c.start) then Some(Picture(ad.uri, second))
      else if cfg.slateUri != "" && ad.uri != cfg.slateUri && SlateAvailable(cfg, world, c.start)
      then Some(SlateOf(cfg, world, c.start)) else None
    case None =>
      var second := Looped(world, plan.slateUri, c.start);
      if Available(cfg, world, plan.slateUri, second, c.start) then Some(Picture(plan.slateUri, second)) else None
  }

  /** The i-th try of the process shows nothing else, and an airable one shows it. */
  ghost predicate FollowsPod(plan: PlanConfig, cfg: Config, tries: seq<Try>, i: nat, pod: seq<AdItem>)
    requires i < |tries|
  {
    && tries[i].clip.breakStart.Some?
    && var s, t := StateAt(cfg, Fresh(map[]), tries, i), tries[i];
       var o, p := Outcome(cfg, s, t.clip, t.world, t.write), PodPicture(plan, cfg, t.world, pod, t.clip);
    && (o.Some? ==> o.value.clip == t.clip && p == Some(PictureOf(o.value.retimed)))
    && (Airable(cfg, Fresh(map[]), tries, i) ==> (o.Some? <==> p.Some?))
  }

  /** A clip that plays the pod asks for its second, or for the slate of the clock behind it. */
  lemma {:induction false} PlayedPicture(plan: PlanConfig, cfg: Config, world: World, c: Clip, pod: seq<AdItem>)
    requires Plays(plan, c, pod)
    ensures PodPicture(plan, cfg, world, pod, c) ==
      if ClipAvailable(cfg, world, c) then Some(Picture(c.uri, Wanted(world, c)))
      else if HasFallback(cfg, c) && SlateAvailable(cfg, world, c.start) then Some(SlateOf(cfg, world, c.start))
      else None
  {
    QuantaAt(c.breakSeconds, pod, plan.slateUri, c.start - c.breakStart.value);
    hide Quanta, AdAt, Available;
    assert "ad"[0] != "slate"[0];
  }

  lemma {:induction false} PlayedFollows(plan: PlanConfig, cfg: Config, tries: seq<Try>, i: nat, pod: seq<AdItem>)
    requires i < |tries| && Plays(plan, tries[i].clip, pod)
    ensures FollowsPod(plan, cfg, tries, i, pod)
  {
    var s, t := StateAt(cfg, Fresh(map[]), tries, i), tries[i];
    PlayedPicture(plan, cfg, t.world, t.clip, pod);
    AiredIsBest(cfg, s, t);
    AirableReaches(cfg, Fresh(map[]), tries, i);
    hide Outcome, ClipAvailable, SlateAvailable, PodPicture, Airable, HasFallback, StateAt, Reaches, Quanta;
    if Airable(cfg, Fresh(map[]), tries, i) { ClipIsAiredIff(cfg, s, t); }
  }

  // ----- every try was released -----

  lemma {:induction false} TriedInTick(steps: seq<Step>, i: nat) returns (k: nat, j: nat)
    requires i < |TriesOf(steps)|
    ensures k < |steps| && steps[k].Tick? && j < |steps[k].tries| && steps[k].tries[j] == TriesOf(steps)[i]
    decreases |steps|
  {
    var n := |steps| - 1;
    if i < |TriesOf(steps[..n])| {
      k, j := TriedInTick(steps[..n], i);
    } else {
      k, j := n, i - |TriesOf(steps[..n])|;
    }
  }

  lemma {:induction false} TriedWasReleased(plan: PlanConfig, ms: seq<Moment>, steps: seq<Step>, i: nat)
      returns (k: nat)
    requires OneProcess(plan, ms, steps) && i < |TriesOf(steps)|
    ensures k < |ms| && TriesOf(steps)[i].clip in TriedAt(plan, ms, k)
  {
    hide TriedAt;
    var j;
    k, j := TriedInTick(steps, i);
    assert Clips(steps[k].tries)[j] == TriesOf(steps)[i].clip;
  }

  // ----- one pod per break, on the air -----

  /** No tick before one that releases a second of the break was more than an hour behind the start of the break. */
  ghost predicate InTime(plan: PlanConfig, ms: seq<Moment>, start: int) {
    forall m, k, c :: 0 <= m < k < |ms| && c in TriedAt(plan, ms, k) && c.breakStart == Some(start) ==>
      ms[m].slot <= start + KEEP
  }

  /** With a clock that goes forward, or time for a clip in every tick, a break of at most an hour is always in time. */
  lemma {:induction false} ShortBreakIsInTime(plan: PlanConfig, ms: seq<Moment>, start: int)
    requires plan.ahead >= 1 && (Forwards(ms) || Budgeted(ms))
    requires forall k, c :: 0 <= k < |ms| && c in TriedAt(plan, ms, k) && c.breakStart == Some(start) ==>
      c.breakSeconds <= KEEP
    ensures InTime(plan, ms, start)
  {
    hide TriedAt, Forwards, Budgeted;
    forall m, k, c | 0 <= m < k < |ms| && c in TriedAt(plan, ms, k) && c.breakStart == Some(start)
      ensures ms[m].slot <= start + KEEP
    {
      NotForgotten(plan, ms, m, k, c);
    }
  }

  /** Two released seconds of a break that is in time play the pod of either tick. */
  lemma {:induction false} SamePod(plan: PlanConfig, ms: seq<Moment>, start: int, i: nat, j: nat, c: Clip, c': Clip)
    requires i < |ms| && j < |ms| && c in TriedAt(plan, ms, i) && c' in TriedAt(plan, ms, j)
    requires c.breakStart == c'.breakStart == Some(start) && InTime(plan, ms, start)
    ensures start in PodsAt(plan, ms, i) && Plays(plan, c', PodsAt(plan, ms, i)[start])
  {
    hide TriedAt, PodsAt, Plays;
    TriedClipPlays(plan, ms, i, c);
    TriedClipPlays(plan, ms, j, c');
    if i <= j {
      forall m | i <= m < j ensures ms[m].slot <= start + KEEP { assert c' in TriedAt(plan, ms, j); }
      PodsPersist(plan, ms, i, j, start);
    } else {
      forall m | j <= m < i ensures ms[m].slot <= start + KEEP { assert c in TriedAt(plan, ms, i); }
      PodsPersist(plan, ms, j, i, start);
    }
  }

  ghost predicate AllFollowPod(plan: PlanConfig, cfg: Config, tries: seq<Try>, start: int, pod: seq<AdItem>) {
    forall i :: 0 <= i < |tries| && tries[i].clip.breakStart == Some(start) ==> FollowsPod(plan, cfg, tries, i, pod)
  }

  /** A pod that every try of the break follows. */
  ghost predicate BreakOfOnePod(plan: PlanConfig, cfg: Config, steps: seq<Step>, start: int) {
    exists pod :: AllFollowPod(plan, cfg, TriesOf(steps), start, pod)
  }

  /**
   Whatever the ad server, the sources, the storage and the schedule do while a process runs,
   if no tick was too late for a break: there is one pod so that in every second of the break that
   is tried, its ad goes on the air if that is available then, the slate only if the ad is not, and
   nothing only if neither is or the files cannot be written.
   */
  lemma {:induction false} OnePodOnAir(plan: PlanConfig, cfg: Config, ms: seq<Moment>, steps: seq<Step>, start: int)
    requires OneProcess(plan, ms, steps) && InTime(plan, ms, start)
    ensures BreakOfOnePod(plan, cfg, steps, start)
  {
    hide OneProcess, InTime, TriedAt, PodsAt, Plays, FollowsPod, TriesOf;
    var tries := TriesOf(steps);
    if i :| 0 <= i < |tries| && tries[i].clip.breakStart == Some(start) {
      var k := TriedWasReleased(plan, ms, steps, i);
      SamePod(plan, ms, start, k, k, tries[i].clip, tries[i].clip);
      var pod := PodsAt(plan, ms, k)[start];
      forall j | 0 <= j < |tries| && tries[j].clip.breakStart == Some(start)
        ensures FollowsPod(plan, cfg, tries, j, pod)
      {
        var l := TriedWasReleased(plan, ms, steps, j);
        SamePod(plan, ms, start, k, l, tries[i].clip, tries[j].clip);
        PlayedFollows(plan, cfg, tries, j, pod);
      }
      assert AllFollowPod(plan, cfg, tries, start, pod);
    } else {
      assert AllFollowPod(plan, cfg, tries, start, []);
    }
  }

  // ----- what is published -----

  /** Every segment of the list was put on the air. */
  ghost predicate WereAired(items: seq<Segment>, aired: seq<Airing>) {
    forall m <- items :: exists a <- aired :: a.segment == m
  }

  lemma {:induction false} WindowWasAired(cfg: Config, s: State, tries: seq<Try>)
    requires s.items == []
    ensures WereAired(TryAll(cfg, s, tries).items, Airings.Aired(cfg, s, tries))
    decreases |tries|
  {
    if tries != [] {
      var n := |tries| - 1;
      var t, s1, aired := tries[n], TryAll(cfg, s, tries[..n]), Airings.Aired(cfg, s, tries[..n]);
      WindowWasAired(cfg, s, tries[..n]);
      ClipIsAired(cfg, s1, t, aired);
    }
  }

  lemma {:induction false} ClipIsAired(cfg: Config, s: State, t: Try, aired: seq<Airing>)
    requires WereAired(s.items, aired)
    ensures var o := Outcome(cfg, s, t.clip, t.world, t.write);
      WereAired(After(cfg, s, t.clip, t.world, t.write).items, aired + if o.Some? then [o.value] else [])
  {
    var o := Outcome(cfg, s, t.clip, t.world, t.write);
    hide Resolve, Entry, Expire, WithInit, Discs;
    var r := aired + if o.Some? then [o.value] else [];
    forall m | m in After(cfg, s, t.clip, t.world, t.write).items ensures exists a <- r :: a.segment == m {
      if m in s.items {
        var a :| a in aired && a.segment == m;
        assert a in r;
      } else {
        assert r[|aired|].segment == m;
      }
    }
  }

  lemma {:induction false} MoreAired(items: seq<Segment>, aired: seq<Airing>, more: seq<Airing>)
    requires WereAired(items, aired)
    ensures WereAired(items, aired + more)
  {
    forall m | m in items ensures exists a <- aired + more :: a.segment == m {
      var a :| a in aired && a.segment == m;
      assert a in aired + more;
    }
  }

  lemma {:induction false} TryConcat(cfg: Config, s: State, x: seq<Try>, y: seq<Try>)
    ensures TryAll(cfg, s, x + y) == TryAll(cfg, TryAll(cfg, s, x), y)
    ensures exists more :: Airings.Aired(cfg, s, x + y) == Airings.Aired(cfg, s, x) + more
    decreases |y|
  {
    hide After, Outcome;
    if y == [] {
      assert x + y == x;
      assert Airings.Aired(cfg, s, x + y) == Airings.Aired(cfg, s, x) + [];
    } else {
      var n := |y| - 1;
      TryConcat(cfg, s, x, y[..n]);
      assert (x + y)[..|x + y| - 1] == x + y[..n];
      var more :| Airings.Aired(cfg, s, x + y[..n]) == Airings.Aired(cfg, s, x) + more;
      var o := Outcome(cfg, TryAll(cfg, s, x + y[..n]), y[n].clip, y[n].world, y[n].write);
      var one := if o.Some? then [o.value] else [];
      assert Airings.Aired(cfg, s, x + y) == Airings.Aired(cfg, s, x) + (more + one);
    }
  }

  /** Every published segment of a process was put on the air by it. */
  lemma {:induction false} PublishedWasAired(cfg: Config, steps: seq<Step>)
    requires forall k :: 0 <= k < |steps| ==> steps[k].Tick?
    ensures Run(cfg, steps).engine.st == TryAll(cfg, Fresh(map[]), TriesOf(steps))
    ensures forall p <- Run(cfg, steps).published :: WereAired(p.items, OnAir(cfg, steps))
    decreases |steps|
  {
    hide TryAll, AnyAdded, Render, Airings.Aired, WereAired;
    if steps == [] {
      assert TryAll(cfg, Fresh(map[]), []) == Fresh(map[]) by { NothingTried(cfg); }
    } else {
      var n := |steps| - 1;
      PublishedWasAired(cfg, steps[..n]);
      var x, y := TriesOf(steps[..n]), steps[n].tries;
      TryConcat(cfg, Fresh(map[]), x, y);
      WindowWasAired(cfg, Fresh(map[]), x + y);
      var more :| Airings.Aired(cfg, Fresh(map[]), x + y) == Airings.Aired(cfg, Fresh(map[]), x) + more;
      forall p | p in Run(cfg, steps[..n]).published ensures WereAired(p.items, OnAir(cfg, steps)) {
        MoreAired(p.items, OnAir(cfg, steps[..n]), more);
      }
    }
  }

  lemma {:induction false} NothingTried(cfg: Config)
    ensures TryAll(cfg, Fresh(map[]), []) == Fresh(map[])
  {
  }

  /** So is every published playlist: each of its segments is an airing, and all airings of a break are of one pod. */
  lemma {:induction false} OnePodPublished(plan: PlanConfig, cfg: Config, ms: seq<Moment>, steps: seq<Step>)
    requires OneProcess(plan, ms, steps)
    ensures forall p <- Run(cfg, steps).published :: WereAired(p.items, OnAir(cfg, steps))
    ensures forall start :: InTime(plan, ms, start) ==> BreakOfOnePod(plan, cfg, steps, start)
  {
    PublishedWasAired(cfg, steps);
    hide OneProcess, InTime, BreakOfOnePod, WereAired, OnAir, Run;
    forall start | InTime(plan, ms, start) ensures BreakOfOnePod(plan, cfg, steps, start) {
      OnePodOnAir(plan, cfg, ms, steps, start);
    }
  }
}
