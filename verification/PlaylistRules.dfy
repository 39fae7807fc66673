/**
 The rules of section 6.2 of RFC 8216 that depend on the configuration: the target duration must
 not change, a removal must leave three target durations, and a removed segment must stay
 available for its own duration and that of the longest playlist it was in.
 */
module PlaylistRules {
  import opened Common
  import opened Stitcher
  import opened Playlist
  import opened PlaylistRoundTrip
  import opened LivePlaylist
  import opened Retention
  import opened Steady
  import Fmp4Examples

  // ----- the target duration -----

  const TARGET := "#EXT-X-TARGETDURATION:"

  /** The lines announce a target duration of so many seconds. */
  predicate Announces(lines: seq<Line>, td: int) { Line(TARGET, Count(td)) in lines }

  /** No duration in the lines is longer than t seconds. */
  predicate NoneExceeds(lines: seq<Line>, t: int) {
    forall l <- lines :: l.head == INF && l.value.Count? ==> l.value.n <= 1000 * t
  }

  /** A line with a number among those of the segments is the date or the duration of one. */
  lemma {:induction false} CountLine(variant: string, items: seq<Segment>, first: bool, cur: Option<FileName>, l: Line)
    requires l.value.Count?
    ensures l in Lines(variant, items, first, cur) <==>
      exists m <- items :: l == Line(INF, Count(m.duration)) || l == Line(DATE_TIME, Count(m.time))
  {
    if items != [] {
      var m, rest := items[0], Lines(variant, items[1..], false, MapAfter(items[0], first, cur));
      CountLine(variant, items[1..], false, MapAfter(m, first, cur), l);
      NoCountsInLead(m, first, cur);
      NoCountsInTags(m.tags);
      OneItem(variant, items, first, cur);
      InFour(LeadLines(m, first, cur), TagLines(m.tags), MediaLines(variant, m), rest, l);
      assert items == [m] + items[1..];
      hide LeadLines, TagLines, MapAfter, Lines;
    }
  }

  lemma {:induction false} InFour(a: seq<Line>, b: seq<Line>, c: seq<Line>, d: seq<Line>, l: Line)
    ensures l in a + b + c + d <==> l in a || l in b || l in c || l in d
  {
  }

  lemma {:induction false} Heads()
    ensures DATE_TIME != INF && DATE_TIME != TARGET && INF != TARGET
    ensures MEDIA_SEQUENCE != TARGET && MEDIA_SEQUENCE != INF
    ensures DISCONTINUITY_SEQUENCE != TARGET && DISCONTINUITY_SEQUENCE != INF
  {
    assert |INF| == 8 && |DATE_TIME| == 25 && |MEDIA_SEQUENCE| == 22;
    assert |DISCONTINUITY_SEQUENCE| == 30 && |TARGET| == 22;
    assert MEDIA_SEQUENCE[7] == 'M' && TARGET[7] == 'T';
  }

  lemma {:induction false} LinesHaveDurations(variant: string, items: seq<Segment>, first: bool, cur: Option<FileName>,
      n: int)
    ensures var lines := Lines(variant, items, first, cur);
      !Announces(lines, n) && (Line(INF, Count(n)) in lines <==> exists m <- items :: m.duration == n)
  {
    Heads();
    CountLine(variant, items, first, cur, Line(TARGET, Count(n)));
    CountLine(variant, items, first, cur, Line(INF, Count(n)));
    hide Lines;
  }

  lemma {:induction false} OneItem(variant: string, items: seq<Segment>, first: bool, cur: Option<FileName>)
    requires items != []
    ensures Lines(variant, items, first, cur) == LeadLines(items[0], first, cur) + TagLines(items[0].tags)
      + MediaLines(variant, items[0]) + Lines(variant, items[1..], false, MapAfter(items[0], first, cur))
  {
  }

  lemma {:induction false} NoCountsInLead(m: Segment, first: bool, cur: Option<FileName>)
    ensures forall l <- LeadLines(m, first, cur) :: !l.value.Count?
  {
  }

  lemma {:induction false} NoCountsInTags(tags: seq<Tag>)
    ensures forall l <- TagLines(tags) :: !l.value.Count?
    decreases |tags|
  {
    if tags != [] { NoCountsInTags(tags[..|tags| - 1]); }
  }

  lemma {:induction false} HeaderCounts(items: seq<Segment>, discSeq: int, floor: int, n: int)
    requires items != []
    ensures Announces(HeaderLines(items, discSeq, floor), n) <==> n == Target(items, floor)
    ensures Line(INF, Count(n)) !in HeaderLines(items, discSeq, floor)
  {
    hide Target;
    Heads();
    assert HeaderLines(items, discSeq, floor)[2] == Line(TARGET, Count(Target(items, floor)));
  }

  lemma {:induction false} InRender(cfg: Config, items: seq<Segment>, discSeq: int, l: Line)
    requires items != []
    ensures l in Render(cfg, items, discSeq) <==>
      l in HeaderLines(items, discSeq, cfg.targetFloor) || l in Lines(cfg.variant, items, true, None)
  {
    hide HeaderLines, Lines;
  }

  lemma {:induction false} AnnouncesTarget(cfg: Config, items: seq<Segment>, discSeq: int, td: int)
    requires items != []
    ensures Announces(Render(cfg, items, discSeq), td) <==> td == Target(items, cfg.targetFloor)
  {
    hide HeaderLines, Lines, Target, Render;
    HeaderCounts(items, discSeq, cfg.targetFloor, td);
    LinesHaveDurations(cfg.variant, items, true, None, td);
    InRender(cfg, items, discSeq, Line(TARGET, Count(td)));
  }

  lemma {:induction false} DurationIsPrinted(cfg: Config, items: seq<Segment>, discSeq: int, n: int)
    requires items != []
    ensures Line(INF, Count(n)) in Render(cfg, items, discSeq) <==> exists m <- items :: m.duration == n
  {
    hide HeaderLines, Lines, Target, Render;
    HeaderCounts(items, discSeq, cfg.targetFloor, n);
    LinesHaveDurations(cfg.variant, items, true, None, n);
    InRender(cfg, items, discSeq, Line(INF, Count(n)));
  }

  /**
   A printed playlist announces one target duration: the least whole number of seconds, from the
   floor on, that none of the durations it prints exceeds.
   */
  lemma {:induction false} TargetIsAnnounced(cfg: Config, items: seq<Segment>, discSeq: int) returns (td: int)
    requires items != []
    ensures var lines := Render(cfg, items, discSeq);
      && (forall t :: Announces(lines, t) <==> t == td)
      && 0 <= td && cfg.targetFloor <= td && NoneExceeds(lines, td)
      && forall t {:trigger NoneExceeds(lines, t)} ::
           0 <= t && cfg.targetFloor <= t && NoneExceeds(lines, t) ==> td <= t
  {
    td := Target(items, cfg.targetFloor);
    forall t ensures Announces(Render(cfg, items, discSeq), t) <==> t == td {
      AnnouncesTarget(cfg, items, discSeq, t);
    }
    forall t ensures NoneExceeds(Render(cfg, items, discSeq), t) <==> Fits(items, t) {
      DurationsFit(cfg, items, discSeq, t);
    }
    assert Fits(items, td);
    hide Target, Render, Announces, NoneExceeds, Fits;
    LeastFits(items, cfg.targetFloor);
  }

  lemma {:induction false} LeastFits(items: seq<Segment>, floor: int)
    ensures var td := Target(items, floor);
      forall t {:trigger Fits(items, t)} :: 0 <= t && floor <= t && Fits(items, t) ==> td <= t
  {
    hide Target, Fits;
  }

  lemma {:induction false} DurationsFit(cfg: Config, items: seq<Segment>, discSeq: int, t: int)
    requires items != []
    ensures NoneExceeds(Render(cfg, items, discSeq), t) <==> Fits(items, t)
  {
    hide Render;
    var lines := Render(cfg, items, discSeq);
    if NoneExceeds(lines, t) {
      forall m | m in items ensures m.duration <= 1000 * t {
        DurationIsPrinted(cfg, items, discSeq, m.duration);
        assert Line(INF, Count(m.duration)) in lines;
      }
    } else {
      var l :| l in lines && l.head == INF && l.value.Count? && l.value.n > 1000 * t;
      assert l == Line(INF, Count(l.value.n));
      DurationIsPrinted(cfg, items, discSeq, l.value.n);
    }
  }

  /** No playlist has a target of less than a second. */
  function Least(floor: int): nat { if floor < 1 then 1 else floor }

  /** All these playlists announce the same target duration. */
  ghost predicate ConstantTarget(cfg: Config, ps: seq<Live>) {
    forall i, j, a, b :: 0 <= i < j < |ps| && AnnouncedBy(cfg, ps[i], a) && AnnouncedBy(cfg, ps[j], b) ==> a == b
  }

  predicate AnnouncedBy(cfg: Config, p: Live, td: int) {
    p.items != [] && Announces(Render(cfg, p.items, p.discSeq), td)
  }

  lemma {:induction false} AnnouncedIs(cfg: Config, p: Live, td: int)
    requires p.items != []
    ensures AnnouncedBy(cfg, p, td) <==> td == Target(p.items, cfg.targetFloor)
  {
    hide Render, Target, Announces;
    AnnouncesTarget(cfg, p.items, p.discSeq, td);
  }

  lemma {:induction false} TargetOfShort(items: seq<Segment>, floor: int)
    requires items != [] && forall m <- items :: 0 < m.duration <= 1000 * Least(floor)
    ensures Target(items, floor) == Least(floor)
  {
    hide Target;
    assert items[0] in items;
    assert Fits(items, Least(floor));
  }

  lemma {:induction false} TargetOfLong(items: seq<Segment>, floor: int, m: Segment)
    requires m in items
    ensures 1000 * Target(items, floor) >= m.duration
  {
    hide Target;
  }

  lemma {:induction false} ShortIsConstant(cfg: Config, steps: seq<Step>)
    requires Sound(cfg) && 1000 + cfg.tolerance <= 1000 * Least(cfg.targetFloor)
    ensures ConstantTarget(cfg, Run(cfg, steps).published)
  {
    hide Run, Target, Slides, Least, AnnouncedBy;
    PublishedPlaylistsSlide(cfg, steps);
    var ps := Run(cfg, steps).published;
    forall i, a | 0 <= i < |ps| && AnnouncedBy(cfg, ps[i], a) ensures a == Least(cfg.targetFloor) {
      assert GoodLive(cfg, ps[i]);
      TargetOfShort(ps[i].items, cfg.targetFloor);
      AnnouncedIs(cfg, ps[i], a);
    }
  }

  /** Two printed seconds, the second one as long as the tolerance allows. */
  function Uneven(cfg: Config): seq<Step> {
    [] + [Tick(One(Second(0), Movie(1000)), true)] + [Tick(One(Second(1), Movie(1000 + cfg.tolerance)), true)]
  }

  lemma {:induction false} NothingPublished(cfg: Config)
    ensures Run(cfg, []).published == [] && Run(cfg, []).engine.st == Fresh(map[])
  {
  }

  lemma {:induction false} FirstPublished(cfg: Config)
    requires Sound(cfg) && cfg.tolerance >= 0
    ensures var h := Run(cfg, [] + [Tick(One(Second(0), Movie(1000)), true)]);
      && |h.published| == 1 && |h.published[0].items| == 1 && h.published[0].items[0].duration == 1000
      && h.engine.st.lastStart == Some(TIMELINE_EPOCH)
  {
    hide Resolve, Movie, TryAll, AnyAdded, Next, Run, Entry, Render;
    NothingPublished(cfg);
    MovieResolves(cfg, 1000, Second(0));
    var c, w := Second(0), Movie(1000);
    OneTry(cfg, Fresh(map[]), c, w);
    OneTryLast(cfg, Fresh(map[]), c, w);
    EntryIsTidy(cfg, Fresh(map[]), c, Resolve(cfg, w, c).value);
    RunLast(cfg, [], Tick(One(c, w), true));
    TickLeaves(cfg, Run(cfg, []), One(c, w));
  }

  lemma {:induction false} LongIsNotConstant(cfg: Config)
    requires Sound(cfg) && 1000 + cfg.tolerance > 1000 * Least(cfg.targetFloor)
    ensures !ConstantTarget(cfg, Run(cfg, Uneven(cfg)).published)
  {
    hide Resolve, Movie, TryAll, AnyAdded, Next, Run, Entry, Render, Target;
    var first := Run(cfg, [] + [Tick(One(Second(0), Movie(1000)), true)]);
    var s, c, w := first.engine.st, Second(1), Movie(1000 + cfg.tolerance);
    FirstPublished(cfg);
    MovieResolves(cfg, 1000 + cfg.tolerance, c);
    OneTryLast(cfg, s, c, w);
    EntryIsTidy(cfg, s, c, Resolve(cfg, w, c).value);
    RunLast(cfg, [] + [Tick(One(Second(0), Movie(1000)), true)], Tick(One(c, w), true));
    TickLeaves(cfg, first, One(c, w));
    var ps := Run(cfg, Uneven(cfg)).published;
    TargetOfShort(ps[0].items, cfg.targetFloor);
    TargetOfLong(ps[1].items, cfg.targetFloor, ps[1].items[|ps[1].items| - 1]);
    AnnouncedIs(cfg, ps[0], Target(ps[0].items, cfg.targetFloor));
    AnnouncedIs(cfg, ps[1], Target(ps[1].items, cfg.targetFloor));
    hide AnnouncedBy, Uneven;
  }

  /** All published playlists of every run print the same target duration if and only if no accepted segment is
      longer than it. */
  lemma {:induction false} TargetIsConstantIff(cfg: Config)
    requires Sound(cfg)
    ensures (forall steps :: ConstantTarget(cfg, Run(cfg, steps).published)) <==>
        1000 + cfg.tolerance <= 1000 * Least(cfg.targetFloor)
  {
    hide Run, ConstantTarget, Least;
    if 1000 + cfg.tolerance <= 1000 * Least(cfg.targetFloor) {
      forall steps ensures ConstantTarget(cfg, Run(cfg, steps).published) { ShortIsConstant(cfg, steps); }
    } else {
      LongIsNotConstant(cfg);
    }
  }

  // ----- what a removal leaves -----

  function Total(items: seq<Segment>): int {
    if items == [] then 0 else Total(items[..|items| - 1]) + items[|items| - 1].duration
  }

  lemma {:induction false} TotalOfEqual(items: seq<Segment>, d: int)
    requires forall m <- items :: m.duration == d
    ensures Total(items) == d * |items|
  {
    if items != [] {
      TotalOfEqual(items[..|items| - 1], d);
    }
  }

  lemma {:induction false} TotalAtLeast(items: seq<Segment>, low: int)
    requires forall m <- items :: low <= m.duration
    ensures low * |items| <= Total(items)
  {
    if items != [] {
      TotalAtLeast(items[..|items| - 1], low);
    }
  }

  lemma {:induction false} TotalWithLong(items: seq<Segment>, low: int, i: nat)
    requires i < |items| && forall m <- items :: low <= m.duration
    ensures items[i].duration + low * (|items| - 1) <= Total(items)
  {
    var n := |items| - 1;
    if i == n {
      TotalAtLeast(items[..n], low);
    } else {
      TotalWithLong(items[..n], low, i);
    }
  }

  /** When a new segment pushes the first one out of a full window, three target durations stay behind. */
  ghost predicate LeavesThreeTargets(cfg: Config, s: State, t: Try) {
    |s.items| == cfg.maxSize && Outcome(cfg, s, t.clip, t.world, t.write).Some? ==>
      var s' := After(cfg, s, t.clip, t.world, t.write);
      forall td :: AnnouncedBy(cfg, Shown(s'), td) ==> Total(s'.items) >= 3 * (1000 * td)
  }

  /**
   The window is long enough for three target durations: made of segments as short as the
   tolerance allows, and, where one long segment can raise the target to two seconds, with one such segment.
   */
  predicate HoldsThreeTargets(cfg: Config) {
    var low := 1000 - cfg.tolerance;
    if cfg.tolerance == 0 || Least(cfg.targetFloor) >= 2 then cfg.maxSize * low >= 3 * (1000 * Least(cfg.targetFloor))
    else 1001 + (cfg.maxSize - 1) * low >= 3 * (1000 * 2)
  }

  lemma {:induction false} FullStaysFull(cfg: Config, s: State, c: Clip, world: World, w: Write)
    requires |s.items| == cfg.maxSize && Outcome(cfg, s, c, world, w).Some?
    ensures |After(cfg, s, c, world, w).items| == cfg.maxSize
  {
    hide Resolve, Entry, Expire, Discs, WithInit;
  }

  lemma {:induction false} TargetIsTwo(items: seq<Segment>, floor: int)
    requires forall m <- items :: m.duration <= 2000
    requires Least(floor) <= 2
    ensures Target(items, floor) <= 2
  {
    hide Target;
    assert Fits(items, 2);
  }

  lemma {:induction false} LowTimesMore(low: int, n: nat)
    requires 0 < low <= 1000 && 1001 + (n - 1) * low >= 6000
    ensures n * low >= 3000
  {
    assert n * low == (n - 1) * low + low;
  }

  /** What the condition says for a window of short segments, and for one with a long segment. */
  lemma {:induction false} HoldsIn(cfg: Config, low: int)
    requires 0 <= cfg.tolerance < 1000 && low == 1000 - cfg.tolerance && HoldsThreeTargets(cfg)
    ensures low * cfg.maxSize >= 3 * (1000 * Least(cfg.targetFloor))
    ensures cfg.tolerance != 0 && Least(cfg.targetFloor) < 2 ==> 1001 + low * (cfg.maxSize - 1) >= 6000
  {
    if cfg.tolerance != 0 && Least(cfg.targetFloor) < 2 {
      LowTimesMore(low, cfg.maxSize);
    }
  }

  lemma {:induction false} ShortsHold(items: seq<Segment>, cfg: Config)
    requires 0 <= cfg.tolerance < 1000 && |items| == cfg.maxSize >= 1 && HoldsThreeTargets(cfg)
    requires forall m <- items :: 1000 - cfg.tolerance <= m.duration <= 1000 * Least(cfg.targetFloor)
    ensures Total(items) >= 3 * (1000 * Target(items, cfg.targetFloor))
  {
    hide Target, Total, HoldsThreeTargets, Least;
    TotalAtLeast(items, 1000 - cfg.tolerance);
    HoldsIn(cfg, 1000 - cfg.tolerance);
    TargetOfShort(items, cfg.targetFloor);
  }

  lemma {:induction false} LongHolds(items: seq<Segment>, cfg: Config, i: nat)
    requires 0 <= cfg.tolerance < 1000 && |items| == cfg.maxSize >= 1 && HoldsThreeTargets(cfg)
    requires forall m <- items :: 1000 - cfg.tolerance <= m.duration <= 1000 + cfg.tolerance
    requires i < |items| && items[i].duration > 1000 * Least(cfg.targetFloor)
    ensures Total(items) >= 3 * (1000 * Target(items, cfg.targetFloor))
  {
    hide Target, Total, HoldsThreeTargets;
    TotalWithLong(items, 1000 - cfg.tolerance, i);
    HoldsIn(cfg, 1000 - cfg.tolerance);
    assert Least(cfg.targetFloor) == 1 && cfg.tolerance != 0 by {
      assert items[i] in items;
    }
    TargetIsTwo(items, cfg.targetFloor);
  }

  lemma {:induction false} LongWindowHolds(items: seq<Segment>, cfg: Config)
    requires 0 <= cfg.tolerance < 1000 && |items| == cfg.maxSize >= 1 && HoldsThreeTargets(cfg)
    requires forall m <- items :: 1000 - cfg.tolerance <= m.duration <= 1000 + cfg.tolerance
    ensures Total(items) >= 3 * (1000 * Target(items, cfg.targetFloor))
  {
    hide Target, Total, HoldsThreeTargets, Least;
    if i :| 0 <= i < |items| && items[i].duration > 1000 * Least(cfg.targetFloor) {
      LongHolds(items, cfg, i);
    } else {
      ShortsHold(items, cfg);
    }
  }

  lemma {:induction false} TryLeavesThree(cfg: Config, s: State, t: Try)
    requires Sound(cfg) && cfg.tolerance >= 0 && HoldsThreeTargets(cfg) && GoodState(cfg, s)
    ensures LeavesThreeTargets(cfg, s, t)
  {
    hide Outcome, After, Target, Slides, Total, Consecutive, Growing, Tidy, Lasting, HoldsThreeTargets;
    if |s.items| == cfg.maxSize && Outcome(cfg, s, t.clip, t.world, t.write).Some? {
      var s' := After(cfg, s, t.clip, t.world, t.write);
      FullStaysFull(cfg, s, t.clip, t.world, t.write);
      ClipSlides(cfg, s, t.clip, t.world, t.write);
      forall m | m in s'.items ensures 1000 - cfg.tolerance <= m.duration <= 1000 + cfg.tolerance {
        assert Distance(m.duration, 1000) <= cfg.tolerance;
      }
      LongWindowHolds(s'.items, cfg);
      AnnouncedIs(cfg, Shown(s'), Target(s'.items, cfg.targetFloor));
      forall td | AnnouncedBy(cfg, Shown(s'), td) ensures td == Target(s'.items, cfg.targetFloor) {
        AnnouncedIs(cfg, Shown(s'), td);
      }
      hide AnnouncedBy;
    }
  }

  /** A full window of segments as short as the tolerance allows, and one more second. */
  lemma {:induction false} ShortWindowLeaves(cfg: Config, x: int)
    requires Sound(cfg) && 0 <= cfg.tolerance && cfg.maxSize < Fmp4Examples.CENTURIES
    requires 0 < x && Distance(x, 1000) <= cfg.tolerance
    ensures var s := TryAll(cfg, Fresh(map[]), Film(1000 - cfg.tolerance, cfg.maxSize));
      var t := Try(Second(cfg.maxSize), Movie(x), Written);
      var items := After(cfg, s, t.clip, t.world, t.write).items;
      && |s.items| == cfg.maxSize && Outcome(cfg, s, t.clip, t.world, t.write).Some?
      && |items| == cfg.maxSize && items[|items| - 1].duration == x
      && (forall i :: 0 <= i < |items| - 1 ==> items[i].duration == 1000 - cfg.tolerance)
  {
    hide Resolve, Movie, Entry, FilesOf, NamesOf, Retire, After, Outcome, Departed, TryAll, Departures, Film;
    var d, n := 1000 - cfg.tolerance, cfg.maxSize;
    RegularRun(cfg, d, n);
    var s, gone := TryAll(cfg, Fresh(map[]), Film(d, n)), Departures(cfg, Fresh(map[]), Film(d, n));
    MovieResolves(cfg, x, Second(n));
    SecondAdded(cfg, s, gone, Second(n), Movie(x));
    EntryLasts(cfg.mode, s, Second(n), Resolve(cfg, Movie(x), Second(n)).value);
  }

  lemma {:induction false} EntryLasts(mode: Mode, s: State, c: Clip, rt: Retimed)
    ensures Entry(mode, s, c, rt).duration == rt.duration
  {
    hide BreakTags, Discontinuous;
  }

  lemma {:induction false} ShortWindowFails(items: seq<Segment>, low: int, x: int)
    requires |items| >= 1 && items[|items| - 1].duration == x
    requires forall i :: 0 <= i < |items| - 1 ==> items[i].duration == low
    ensures Total(items) == (|items| - 1) * low + x
  {
    TotalOfEqual(items[..|items| - 1], low);
  }

  /** The second that shows that the window is too short. */
  function LastSecond(cfg: Config): int {
    if cfg.tolerance == 0 || Least(cfg.targetFloor) >= 2 then 1000 - cfg.tolerance else 1001
  }

  lemma {:induction false} ShortWindowFallsShort(cfg: Config)
    requires Sound(cfg) && 0 <= cfg.tolerance && cfg.maxSize < Fmp4Examples.CENTURIES && !HoldsThreeTargets(cfg)
    ensures !LeavesThreeTargets(cfg, TryAll(cfg, Fresh(map[]), Film(1000 - cfg.tolerance, cfg.maxSize)),
                                Try(Second(cfg.maxSize), Movie(LastSecond(cfg)), Written))
  {
    hide Movie, After, Outcome, TryAll, Film, Target, Total, AnnouncedBy;
    var d, x := 1000 - cfg.tolerance, LastSecond(cfg);
    ShortWindowLeaves(cfg, x);
    var s := TryAll(cfg, Fresh(map[]), Film(d, cfg.maxSize));
    var items := After(cfg, s, Second(cfg.maxSize), Movie(x), Written).items;
    ShortWindowFails(items, d, x);
    if x == d {
      TargetOfShort(items, cfg.targetFloor);
      assert (cfg.maxSize - 1) * d + d == cfg.maxSize * d;
    } else {
      TargetOfLong(items, cfg.targetFloor, items[|items| - 1]);
    }
    var s' := After(cfg, s, Second(cfg.maxSize), Movie(x), Written);
    AnnouncedIs(cfg, Shown(s'), Target(items, cfg.targetFloor));
  }

  lemma {:induction false} OneTickRun(cfg: Config, tries: seq<Try>)
    ensures Run(cfg, [] + [Tick(tries, true)]).engine.st == TryAll(cfg, Fresh(map[]), tries)
  {
    hide TryAll, AnyAdded, Render, Next, Run;
    NothingPublished(cfg);
    RunLast(cfg, [], Tick(tries, true));
    TickLeaves(cfg, Run(cfg, []), tries);
  }

  /**
   In every state that a run reaches, whatever is tried next, a removal leaves three target
   durations, if and only if the window is long enough for the shortest segments that are accepted.
   */
  lemma {:induction false} RemovalLeavesThreeTargetsIff(cfg: Config)
    requires Sound(cfg) && cfg.tolerance >= 0 && cfg.maxSize < Fmp4Examples.CENTURIES
    ensures (forall steps, t :: LeavesThreeTargets(cfg, Run(cfg, steps).engine.st, t)) <==> HoldsThreeTargets(cfg)
  {
    hide *;
    if HoldsThreeTargets(cfg) {
      forall steps, t ensures LeavesThreeTargets(cfg, Run(cfg, steps).engine.st, t) {
        ReachedIsGood(cfg, steps);
        TryLeavesThree(cfg, Run(cfg, steps).engine.st, t);
      }
    } else {
      OneTickRun(cfg, Film(1000 - cfg.tolerance, cfg.maxSize));
      ShortWindowFallsShort(cfg);
    }
  }

  lemma {:induction false} ReachedIsGood(cfg: Config, steps: seq<Step>)
    requires Sound(cfg)
    ensures GoodState(cfg, Run(cfg, steps).engine.st)
  {
    RunIsGood(cfg, steps);
    hide Run, GoodState, Rules;
  }

  // ----- how long a removed segment stays -----

  /** The files of a segment that left stay for its own second and those of the full window it was in. */
  predicate Available(cfg: Config, tries: seq<Try>) {
    var s := TryAll(cfg, Fresh(map[]), tries);
    forall b <- Departures(cfg, Fresh(map[]), tries) ::
      s.lastStart.Some? && (s.lastStart.value - b.at < cfg.maxSize + 1 ==> b.names <= s.disk.Keys)
  }

  lemma {:induction false} LongRetentionIsEnough(cfg: Config, tries: seq<Try>)
    requires Sound(cfg) && cfg.retain >= cfg.maxSize + 1
    ensures Available(cfg, tries)
  {
    hide TryAll, Departures, Opened;
    FreshIsOpened(cfg);
    FilesAreRetained(cfg, Fresh(map[]), tries);
  }

  /** The first n seconds of the movie, each of d milliseconds. */
  function Film(d: int, n: nat): seq<Try> {
    if n == 0 then [] else Film(d, n - 1) + [Try(Second(n - 1), Movie(d), Written)]
  }

  /** The files of the second k of the movie: its segment and no other. */
  predicate FilesOf(names: set<FileName>, k: int) {
    SegmentFile(TIMELINE_EPOCH + k) in names && forall f <- names :: f.SegmentFile? ==> f.number == TIMELINE_EPOCH + k
  }

  /** The stitcher and its departures after n seconds: the window holds the last ones, and each second before them
      left in turn. */
  predicate Regular(cfg: Config, d: int, s: State, gone: seq<Batch>, n: nat) {
    && |s.items| == (if n < cfg.maxSize then n else cfg.maxSize)
    && s.lastStart == (if n == 0 then None else Some(TIMELINE_EPOCH + n - 1))
    && s.nextNumber == (if n == 0 then 0 else TIMELINE_EPOCH + n)
    && (forall i :: 0 <= i < |s.items| ==> FilesOf(NamesOf(s.items[i]), n - |s.items| + i) && s.items[i].duration == d)
    && |gone| == n - |s.items|
    && (forall k :: 0 <= k < |gone| ==> gone[k].at == TIMELINE_EPOCH + cfg.maxSize + k && FilesOf(gone[k].names, k))
  }

  lemma {:induction false} OneDeparture(retired: seq<Batch>, m: Segment, now: int)
    ensures Retire(retired, [m], now) == retired + [Batch(NamesOf(m), now)]
  {
    assert [m][..0] == [];
    assert Names([m]) == NamesOf(m);
  }

  lemma {:induction false} EntryFiles(mode: Mode, s: State, k: nat, rt: Retimed)
    requires s.nextNumber == if k == 0 then 0 else TIMELINE_EPOCH + k
    ensures FilesOf(NamesOf(Entry(mode, s, Second(k), rt)), k)
  {
    hide BreakTags, Discontinuous;
  }

  /** What an added second changes. */
  lemma {:induction false} SecondAdded(cfg: Config, s: State, gone: seq<Batch>, c: Clip, world: World)
    requires !Duplicate(s, c) && Resolve(cfg, world, c).Some?
    ensures var o, s' := Outcome(cfg, s, c, world, Written), After(cfg, s, c, world, Written);
      && o.Some?
      && var m := Entry(cfg.mode, s, c, Resolve(cfg, world, c).value);
         var all := s.items + [m];
         var k := Leaving(|all|, cfg.maxSize);
         && s'.items == all[k..] && s'.lastStart == Some(c.start) && s'.nextNumber == Number(s, c) + 1
         && Departed(cfg, s, gone, o) == Retire(gone, all[..k], c.start)
  {
    hide Resolve, BreakTags, Discontinuous, WithInit, Expire, Discs, Retire, Leaving;
  }

  lemma {:induction false} Filling(cfg: Config, d: int, s: State, gone: seq<Batch>, n: nat, m: Segment, s': State)
    requires Regular(cfg, d, s, gone, n) && n < cfg.maxSize && FilesOf(NamesOf(m), n) && m.duration == d
    requires s'.items == s.items + [m] && s'.lastStart == Some(TIMELINE_EPOCH + n) &&
        s'.nextNumber == TIMELINE_EPOCH + n + 1
    ensures Regular(cfg, d, s', gone, n + 1)
  {
    hide FilesOf, NamesOf;
  }

  lemma {:induction false} Sliding(cfg: Config, d: int, s: State, gone: seq<Batch>, n: nat, m: Segment, s': State)
    requires Regular(cfg, d, s, gone, n) && 0 < cfg.maxSize <= n && FilesOf(NamesOf(m), n) && m.duration == d
    requires s'.items == (s.items + [m])[1..]
    requires s'.lastStart == Some(TIMELINE_EPOCH + n) && s'.nextNumber == TIMELINE_EPOCH + n + 1
    ensures Regular(cfg, d, s', gone + [Batch(NamesOf(s.items[0]), TIMELINE_EPOCH + n)], n + 1)
  {
    hide FilesOf, NamesOf;
  }

  lemma {:induction false} OneSecondMore(cfg: Config, d: int, s: State, gone: seq<Batch>, n: nat)
    requires Sound(cfg) && Regular(cfg, d, s, gone, n)
    requires var r := Resolve(cfg, Movie(d), Second(n)); r.Some? && r.value.duration == d
    ensures Regular(cfg, d, After(cfg, s, Second(n), Movie(d), Written),
                    Departed(cfg, s, gone, Outcome(cfg, s, Second(n), Movie(d), Written)), n + 1)
  {
    hide Resolve, Movie, Entry, FilesOf, NamesOf, Retire, After, Outcome, Departed;
    SecondAdded(cfg, s, gone, Second(n), Movie(d));
    var rt := Resolve(cfg, Movie(d), Second(n)).value;
    EntryFiles(cfg.mode, s, n, rt);
    EntryLasts(cfg.mode, s, Second(n), rt);
    var m, s' := Entry(cfg.mode, s, Second(n), rt), After(cfg, s, Second(n), Movie(d), Written);
    var all := s.items + [m];
    if n < cfg.maxSize {
      assert Leaving(|all|, cfg.maxSize) == 0 && all[..0] == [] && all[0..] == all;
      NoDeparture(gone, Second(n).start);
      Filling(cfg, d, s, gone, n, m, s');
    } else {
      assert Leaving(|all|, cfg.maxSize) == 1 && all[..1] == [all[0]];
      OneDeparture(gone, all[0], Second(n).start);
      Sliding(cfg, d, s, gone, n, m, s');
    }
  }

  lemma {:induction false} NoDeparture(retired: seq<Batch>, now: int)
    ensures Retire(retired, [], now) == retired
  {
  }

  lemma {:induction false} RegularRun(cfg: Config, d: int, n: nat)
    requires Sound(cfg) && Distance(d, 1000) <= cfg.tolerance && n <= Fmp4Examples.CENTURIES
    ensures Regular(cfg, d, TryAll(cfg, Fresh(map[]), Film(d, n)), Departures(cfg, Fresh(map[]), Film(d, n)), n)
  {
    hide Regular, Outcome, After, Departed, Resolve, Movie, TryAll, Departures, Film;
    if n == 0 {
      NothingRegular(cfg, d);
    } else {
      RegularRun(cfg, d, n - 1);
      MovieResolves(cfg, d, Second(n - 1));
      OneSecondMore(cfg, d, TryAll(cfg, Fresh(map[]), Film(d, n - 1)), Departures(cfg, Fresh(map[]), Film(d, n - 1)),
          n - 1);
      FilmStep(cfg, d, n);
    }
  }

  lemma {:induction false} NothingRegular(cfg: Config, d: int)
    ensures Regular(cfg, d, TryAll(cfg, Fresh(map[]), Film(d, 0)), Departures(cfg, Fresh(map[]), Film(d, 0)), 0)
  {
  }

  lemma {:induction false} FilmStep(cfg: Config, d: int, n: nat)
    requires 0 < n
    ensures var s := TryAll(cfg, Fresh(map[]), Film(d, n - 1));
      && TryAll(cfg, Fresh(map[]), Film(d, n)) == After(cfg, s, Second(n - 1), Movie(d), Written)
      && Departures(cfg, Fresh(map[]), Film(d, n))
         == Departed(cfg, s, Departures(cfg, Fresh(map[]), Film(d, n - 1)),
              Outcome(cfg, s, Second(n - 1), Movie(d), Written))
  {
    hide Outcome, After, Departed, Movie;
    assert Film(d, n)[..|Film(d, n)| - 1] == Film(d, n - 1);
  }

  /** The first segment is gone as soon as its retention time is over. */
  lemma {:induction false} FirstIsGone(cfg: Config, d: int, s: State, gone: seq<Batch>, n: nat)
    requires Regular(cfg, d, s, gone, n) && Stored(s) && Ledger(cfg, s, gone)
    requires n > cfg.maxSize && n - 1 - cfg.maxSize >= cfg.retain
    ensures gone != [] && gone[0].at == TIMELINE_EPOCH + cfg.maxSize && SegmentFile(TIMELINE_EPOCH) in gone[0].names
    ensures SegmentFile(TIMELINE_EPOCH) !in s.disk
  {
    hide Names, BatchNames, NamesOf, OneSegment;
    var f := SegmentFile(TIMELINE_EPOCH);
    NamesMember(s.items, f);
    forall i | 0 <= i < |s.items| ensures f !in NamesOf(s.items[i]) {
      assert FilesOf(NamesOf(s.items[i]), n - |s.items| + i);
    }
    assert |s.retired| < |gone|;
    BatchMember(s.retired, f);
    forall i | 0 <= i < |s.retired| ensures f !in s.retired[i].names {
      var k := |gone| - |s.retired| + i;
      assert s.retired[i] == gone[k] && FilesOf(gone[k].names, k);
    }
  }

  lemma {:induction false} ShortRetentionIsNot(cfg: Config)
    requires Sound(cfg) && cfg.tolerance >= 0 && cfg.retain < cfg.maxSize + 1 &&
        2 * cfg.maxSize + 1 < Fmp4Examples.CENTURIES
    ensures var n := cfg.maxSize + 1 + if cfg.retain < 0 then 0 else cfg.retain; !Available(cfg, Film(1000, n))
  {
    hide TryAll, Departures, Regular, Stored, Ledger, Opened, GoodState;
    var n := cfg.maxSize + 1 + if cfg.retain < 0 then 0 else cfg.retain;
    var s, gone := TryAll(cfg, Fresh(map[]), Film(1000, n)), Departures(cfg, Fresh(map[]), Film(1000, n));
    RegularRun(cfg, 1000, n);
    FreshIsOpened(cfg);
    RunKeepsFiles(cfg, Fresh(map[]), Film(1000, n));
    FirstIsGone(cfg, 1000, s, gone, n);
    assert s.lastStart == Some(TIMELINE_EPOCH + n - 1) by { LastOfRegular(cfg, 1000, s, gone, n); }
    assert gone[0] in gone;
  }

  lemma {:induction false} LastOfRegular(cfg: Config, d: int, s: State, gone: seq<Batch>, n: nat)
    requires Regular(cfg, d, s, gone, n) && n > 0
    ensures s.lastStart == Some(TIMELINE_EPOCH + n - 1)
  {
  }

  /**
   Removed segments stay available for as long as the standard asks in every run if and only
   if the retention time is longer than the window.
   */
  lemma {:induction false} AvailableIff(cfg: Config)
    requires Sound(cfg) && cfg.tolerance >= 0 && 2 * cfg.maxSize + 1 < Fmp4Examples.CENTURIES
    ensures (forall tries :: Available(cfg, tries)) <==> cfg.retain >= cfg.maxSize + 1
  {
    hide Available;
    if cfg.retain >= cfg.maxSize + 1 {
      forall tries ensures Available(cfg, tries) { LongRetentionIsEnough(cfg, tries); }
    } else {
      ShortRetentionIsNot(cfg);
    }
  }

  /** The defaults of the program keep neither the target duration nor removed segments, but three targets stay. */
  lemma {:induction false} DefaultsFallShort(cfg: Config)
    requires cfg == Config(180, 30, DateRange, 10, "", "v720", 1)
    ensures exists steps :: !ConstantTarget(cfg, Run(cfg, steps).published)
    ensures exists tries :: !Available(cfg, tries)
    ensures forall steps, t :: LeavesThreeTargets(cfg, Run(cfg, steps).engine.st, t)
  {
    hide Run, ConstantTarget, Available, LeavesThreeTargets;
    RemovalLeavesThreeTargetsIff(cfg);
    TargetIsConstantIff(cfg);
    AvailableIff(cfg);
  }
}
