/**
 The segments one process airs, one after another: the media timeline has no gap where no
 discontinuity is marked, and the markers bracket every ad break.
 */
module Airings {
  import opened Common
  import opened Stitcher
  import opened LivePlaylist
  import opened Playlist
  import Fmp4
  import Fmp4Timeline
  import Scte35

  /** What is added while the clips are tried. */
  function Aired(cfg: Config, s: State, tries: seq<Try>): seq<Airing> {
    if tries == [] then []
    else
      var t := tries[|tries| - 1];
      var o := Outcome(cfg, TryAll(cfg, s, tries[..|tries| - 1]), t.clip, t.world, t.write);
      Aired(cfg, s, tries[..|tries| - 1]) + if o.Some? then [o.value] else []
  }

  // ----- one segment after another -----

  /** A segment of the same source right behind the other, in the second the other ends. */
  predicate NextSecond(a: Airing, b: Airing) {
    && a.retimed.src != "" && b.retimed.src == a.retimed.src && b.retimed.index == a.retimed.index + 1
    && Distance(1000 * b.clip.start, 1000 * (a.clip.start + a.clip.seconds)) <= MAX_DRIFT
  }

  predicate Linked(mode: Mode, a: Airing, b: Airing) {
    && a.clip.start < b.clip.start
    && (b.segment.disc <==> b.clip.disc || !NextSecond(a, b))
    && b.segment.tags == BreakTags(mode, a.clip.breakStart, a.clip.breakSeconds, b.clip)
  }

  /** The bytes are those of the source segment, moved to the second of the clip. */
  predicate Placed(a: Airing) {
    var r := a.retimed;
    Fmp4.Retime(r.raw, r.init.tracks, a.clip.start - TIMELINE_EPOCH, r.index) == Ok(r.media)
  }

  /** The stitcher remembers its last segment. */
  predicate Knows(s: State, a: Airing) {
    && s.items != [] && s.lastStart == Some(a.clip.start)
    && s.prevSrc == a.retimed.src && s.prevIndex == a.retimed.index
    && s.prevEnd == Some(1000 * (a.clip.start + a.clip.seconds))
    && s.prevAvail == a.clip.breakStart && s.prevAvailSeconds == a.clip.breakSeconds
  }

  lemma {:induction false} ResolvedIsPlaced(cfg: Config, world: World, c: Clip, m: Segment)
    requires Resolve(cfg, world, c).Some?
    ensures Placed(Airing(c, Resolve(cfg, world, c).value, m))
  {
    PreparedIsPlaced(cfg, world, c.uri, c.offset, c.kind == "slate", c, m);
    PreparedIsPlaced(cfg, world, cfg.slateUri, c.start, true, c, m);
    hide Prepare, Placed;
  }

  lemma {:induction false} PreparedIsPlaced(cfg: Config, world: World, uri: string, offset: int, loop: bool, c: Clip,
      m: Segment)
    ensures var r := Prepare(cfg, world, uri, offset, loop, c.start); r.Some? ==> Placed(Airing(c, r.value, m))
  {
    hide Fmp4.Retime;
  }

  lemma {:induction false} ClipIsKnown(cfg: Config, s: State, c: Clip, world: World, w: Write)
    requires cfg.maxSize >= 1
    ensures var (o, s') := (Outcome(cfg, s, c, world, w), After(cfg, s, c, world, w));
      if o.Some? then Placed(o.value) && Knows(s', o.value)
      else s' == s.(disk := s'.disk)
    ensures var o := Outcome(cfg, s, c, world, w);
      o.Some? ==> o.value.segment.tags == BreakTags(cfg.mode, s.prevAvail, s.prevAvailSeconds, o.value.clip)
  {
    hide Resolve, Discontinuous, Number, BreakTags, Expire, Discs, WithInit, Retire, Placed;
    var o := Outcome(cfg, s, c, world, w);
    if o.Some? {
      ResolvedIsPlaced(cfg, world, c, o.value.segment);
    }
  }

  lemma {:induction false} ClipIsLinked(cfg: Config, s: State, a: Airing, c: Clip, world: World, w: Write)
    requires Knows(s, a)
    ensures var o := Outcome(cfg, s, c, world, w); o.Some? ==> Linked(cfg.mode, a, o.value)
  {
    hide Resolve, BreakTags, Writes;
  }

  /** The run from s: what is known behind it, and how its segments hang together. */
  ghost predicate Chained(cfg: Config, s: State, aired: seq<Airing>, s': State) {
    && (forall i :: 0 <= i < |aired| ==> Placed(aired[i]))
    && (forall i :: 0 <= i < |aired| - 1 ==> Linked(cfg.mode, aired[i], aired[i + 1]))
    && (aired != [] ==>
          aired[0].segment.tags == BreakTags(cfg.mode, s.prevAvail, s.prevAvailSeconds, aired[0].clip))
    && if aired == [] then s' == s.(disk := s'.disk) else Knows(s', aired[|aired| - 1])
  }

  lemma {:induction false} AiredIsChained(cfg: Config, s: State, tries: seq<Try>)
    requires cfg.maxSize >= 1
    ensures Chained(cfg, s, Aired(cfg, s, tries), TryAll(cfg, s, tries))
    decreases |tries|
  {
    hide Outcome, After, Placed, Linked, Knows, BreakTags;
    if tries == [] {
    } else {
      var t, rest := tries[|tries| - 1], tries[..|tries| - 1];
      AiredIsChained(cfg, s, rest);
      var aired, s1 := Aired(cfg, s, rest), TryAll(cfg, s, rest);
      ClipIsKnown(cfg, s1, t.clip, t.world, t.write);
      if aired != [] {
        var a := aired[|aired| - 1];
        ClipIsLinked(cfg, s1, a, t.clip, t.world, t.write);
        if Outcome(cfg, s1, t.clip, t.world, t.write).None? { StillKnown(s1, TryAll(cfg, s, tries), a); }
      }
    }
  }

  lemma {:induction false} StillKnown(s: State, s': State, a: Airing)
    requires Knows(s, a) && s' == s.(disk := s'.disk)
    ensures Knows(s', a)
  {
  }

  /** The first segment of a stream takes the number of its second, and needs no discontinuity. */
  lemma {:induction false} FirstOfStream(cfg: Config, disk: Disk, tries: seq<Try>)
    requires cfg.maxSize >= 1 && Aired(cfg, Fresh(disk), tries) != []
    ensures var a := Aired(cfg, Fresh(disk), tries)[0]; a.segment.number == a.clip.number && !a.segment.disc
    decreases |tries|
  {
    hide Outcome, TryAll, Placed, Linked, Knows, BreakTags;
    var rest := tries[..|tries| - 1];
    if Aired(cfg, Fresh(disk), rest) == [] {
      AiredIsChained(cfg, Fresh(disk), rest);
      FirstEntry(cfg, TryAll(cfg, Fresh(disk), rest), tries[|tries| - 1]);
    } else {
      FirstOfStream(cfg, disk, rest);
    }
  }

  lemma {:induction false} FirstEntry(cfg: Config, s: State, t: Try)
    requires s == Fresh(s.disk)
    ensures var o := Outcome(cfg, s, t.clip, t.world, t.write);
      o.Some? ==> o.value.segment.number == o.value.clip.number && !o.value.segment.disc
  {
    hide Resolve, BreakTags, Writes;
  }

  // ----- the gapless timeline -----

  predicate Leap(year: int) { year % 4 == 0 && (year % 100 != 0 || year % 400 == 0) }

  /** The days from 1970 to the first of January of a year. */
  function DaysTo(year: int): nat {
    if year <= 1970 then 0 else DaysTo(year - 1) + if Leap(year - 1) then 366 else 365
  }

  lemma {:induction false} DaysUntil2020(year: int)
    requires 1970 <= year <= 2020
    ensures DaysTo(year) == 365 * (year - 1970) + (year - 1969) / 4
  {
    if year > 1970 { DaysUntil2020(year - 1); }
  }

  /** The media timeline starts with the year 2020. */
  lemma {:induction false} TimelineStartsIn2020()
    ensures TIMELINE_EPOCH == 86400 * DaysTo(2020)
  {
    DaysUntil2020(2020);
  }

  predicate OneSecond(tries: seq<Try>) { forall t <- tries :: t.clip.seconds == 1 }

  lemma {:induction false} AiredLastsOneSecond(cfg: Config, s: State, tries: seq<Try>)
    requires OneSecond(tries)
    ensures forall a <- Aired(cfg, s, tries) :: a.clip.seconds == 1
    decreases |tries|
  {
    if tries != [] {
      hide Resolve, Writes, Entry;
      AiredLastsOneSecond(cfg, s, tries[..|tries| - 1]);
    }
  }

  /** Two fragments of the same track, the second right behind the first. */
  predicate BackToBack(a: Airing, b: Airing, i: nat, j: nat) {
    && a.retimed.init.tracks == b.retimed.init.tracks
    && Fmp4Timeline.FullTimes(a.retimed.raw, a.retimed.init.tracks)
    && Fmp4Timeline.FullTimes(b.retimed.raw, b.retimed.init.tracks)
    && Fmp4Timeline.Follows(a.retimed.raw, b.retimed.raw, a.retimed.init.tracks, i, j)
  }

  /** In the bytes that were written, the second fragment starts exactly where the first one ends. */
  predicate Seamless(a: Airing, b: Airing, i: nat, j: nat)
    requires BackToBack(a, b, i, j)
  {
    var r, q := a.retimed, b.retimed;
    Fmp4Timeline.FollowsOnTimeline(r.raw, r.media, q.raw, q.media, r.init.tracks, i, j)
  }

  lemma {:induction false} SeamlessMedia(a: Airing, b: Airing, i: nat, j: nat)
    requires Placed(a) && Placed(b) && BackToBack(a, b, i, j)
    requires b.retimed.index == a.retimed.index + 1 && b.clip.start == a.clip.start + 1
    ensures Seamless(a, b, i, j)
  {
    hide Fmp4.Retime, Fmp4Timeline.FullTimes, Fmp4Timeline.Follows, Fmp4Timeline.FollowsOnTimeline;
    var r, q := a.retimed, b.retimed;
    Fmp4Timeline.NextSegmentFollows(r.raw, q.raw, r.init.tracks, a.clip.start - TIMELINE_EPOCH, r.index, i, j);
  }

  /**
   In every run, a segment without a discontinuity is the next index of the same source at
   the very next second, and where the source is back to back, so are the written bytes.
   */
  lemma {:induction false} Gapless(cfg: Config, s: State, tries: seq<Try>, n: nat)
    requires cfg.maxSize >= 1 && OneSecond(tries)
    requires n + 1 < |Aired(cfg, s, tries)|
    ensures var (a, b) := (Aired(cfg, s, tries)[n], Aired(cfg, s, tries)[n + 1]);
      && (b.segment.disc <==> b.clip.disc || a.retimed.src == "" || b.retimed.src != a.retimed.src
                              || b.retimed.index != a.retimed.index + 1 || b.clip.start != a.clip.start + 1)
      && (!b.segment.disc ==> forall i: nat, j: nat :: BackToBack(a, b, i, j) ==> Seamless(a, b, i, j))
  {
    hide Aired, Placed, BackToBack, Seamless;
    AiredIsChained(cfg, s, tries);
    AiredLastsOneSecond(cfg, s, tries);
    var a, b := Aired(cfg, s, tries)[n], Aired(cfg, s, tries)[n + 1];
    assert Linked(cfg.mode, a, b) && a.clip.seconds == 1;
    if !b.segment.disc {
      forall i: nat, j: nat | BackToBack(a, b, i, j) ensures Seamless(a, b, i, j) {
        SeamlessMedia(a, b, i, j);
      }
    }
  }

  // ----- the markers -----

  predicate HasOut(m: Segment, id: bv32, start: int) {
    exists t <- m.tags :: t.DateRangeOut? && t.id == id && t.start == start
  }

  /** The end marker is the first one of its segment. */
  predicate StartsWithIn(m: Segment, id: bv32, start: int) {
    m.tags != [] && m.tags[0].DateRangeIn? && m.tags[0].id == id && m.tags[0].start == start
  }

  predicate InDateRanges(mode: Mode) { mode.DateRange? || mode.Both? }

  lemma {:induction false} OutMarksTheFirstSecond(mode: Mode, prev: Option<int>, seconds: int, c: Clip)
    requires InDateRanges(mode)
    ensures forall t <- BreakTags(mode, prev, seconds, c) :: t.DateRangeOut? ==>
      c.breakStart == Some(c.start) && t.start == c.start && t.id == EventId(c.start)
  {
    hide OutPayload, HexOr, EventId;
  }

  lemma {:induction false} InMarksTheEnd(mode: Mode, prev: Option<int>, seconds: int, c: Clip)
    requires InDateRanges(mode) && prev.Some? && prev != c.breakStart
    ensures var tags := BreakTags(mode, prev, seconds, c);
      tags != [] && tags[0].DateRangeIn? && tags[0].start == prev.value && tags[0].id == EventId(prev.value)
  {
    hide OutPayload, HexOr, EventId;
  }

  ghost predicate AllLinked(mode: Mode, aired: seq<Airing>) {
    forall i :: 0 <= i < |aired| - 1 ==> Linked(mode, aired[i], aired[i + 1])
  }

  lemma {:induction false} StartsGrow(mode: Mode, aired: seq<Airing>, i: nat, j: nat)
    requires AllLinked(mode, aired) && i < j < |aired|
    ensures aired[i].clip.start < aired[j].clip.start
    decreases j
  {
    assert Linked(mode, aired[j - 1], aired[j]);
    if i < j - 1 { StartsGrow(mode, aired, i, j - 1); }
  }

  predicate AllInBreak(aired: seq<Airing>, i: nat, k: nat, start: int)
    requires k <= |aired|
  {
    forall n :: i <= n < k ==> aired[n].clip.breakStart == Some(start)
  }

  /** The first segment behind i that does not belong to the break. */
  lemma {:induction false} BreakEnds(aired: seq<Airing>, i: nat, j: nat, start: int) returns (k: nat)
    requires i < j < |aired| && aired[i].clip.breakStart == Some(start) && aired[j].clip.breakStart != Some(start)
    ensures i < k <= j && AllInBreak(aired, i, k, start) && aired[k].clip.breakStart != Some(start)
    decreases j - i
  {
    if aired[i + 1].clip.breakStart == Some(start) {
      k := BreakEnds(aired, i + 1, j, start);
    } else {
      k := i + 1;
    }
  }

  lemma {:induction false} OutIsFirstSecond(cfg: Config, s: State, aired: seq<Airing>, s': State, i: nat, id: bv32,
      start: int)
    requires Chained(cfg, s, aired, s') && InDateRanges(cfg.mode) && i < |aired| && HasOut(aired[i].segment, id, start)
    ensures aired[i].clip.breakStart == Some(start) && aired[i].clip.start == start && id == EventId(start)
  {
    hide BreakTags, EventId, Placed, Knows, NextSecond;
    if i == 0 {
      OutMarksTheFirstSecond(cfg.mode, s.prevAvail, s.prevAvailSeconds, aired[0].clip);
    } else {
      var a := aired[i - 1];
      assert Linked(cfg.mode, a, aired[i]);
      OutMarksTheFirstSecond(cfg.mode, a.clip.breakStart, a.clip.breakSeconds, aired[i].clip);
    }
  }

  /**
   Between an OUT marker and the next one an IN marker with the first one's id closes the
   break, before any other marker of its segment, and every segment up to it belongs to the break.
   */
  lemma {:induction false} MarkersBracketBreaks(cfg: Config, s: State, tries: seq<Try>, i: nat, j: nat, id: bv32,
      id': bv32, start: int, start': int)
    returns (k: nat)
    requires cfg.maxSize >= 1 && InDateRanges(cfg.mode)
    requires i < j < |Aired(cfg, s, tries)|
    requires HasOut(Aired(cfg, s, tries)[i].segment, id, start) && HasOut(Aired(cfg, s, tries)[j].segment, id', start')
    ensures i < k <= j
    ensures StartsWithIn(Aired(cfg, s, tries)[k].segment, id, start)
    ensures AllInBreak(Aired(cfg, s, tries), i, k, start)
  {
    hide Aired, BreakTags, EventId, HasOut, NextSecond;
    var aired, s' := Aired(cfg, s, tries), TryAll(cfg, s, tries);
    AiredIsChained(cfg, s, tries);
    OutIsFirstSecond(cfg, s, aired, s', i, id, start);
    OutIsFirstSecond(cfg, s, aired, s', j, id', start');
    StartsGrow(cfg.mode, aired, i, j);
    k := BreakEnds(aired, i, j, start);
    var a := aired[k - 1];
    assert Linked(cfg.mode, a, aired[k]) && a.clip.breakStart == Some(start);
    InMarksTheEnd(cfg.mode, a.clip.breakStart, a.clip.breakSeconds, aired[k].clip);
  }

  predicate InCues(mode: Mode) { mode.Cue? || mode.Both? }

  /** The markers of a second: the end of the break of the second before it, and the start of one that begins here. */
  predicate Announced(mode: Mode, prev: Option<int>, prevSeconds: int, c: Clip, t: Tag) {
    match t
    case DateRangeIn(id, start, seconds, payload) =>
      && InDateRanges(mode) && prev == Some(start) && c.breakStart != prev
      && id == EventId(start) && seconds == prevSeconds && payload == HexOr(Scte35.In(id))
    case CueIn => InCues(mode) && prev.Some? && c.breakStart != prev
    case DateRangeOut(id, start, planned, payload) =>
      && InDateRanges(mode) && start == c.start && c.breakStart == Some(start)
      && id == EventId(start) && planned == c.breakSeconds && payload == OutPayload(start, planned, c.scte35)
    case CueOut(seconds) => InCues(mode) && c.breakStart == Some(c.start) && seconds == c.breakSeconds
    case OtherTag(_) => false
  }

  lemma {:induction false} TagsAreAnnounced(mode: Mode, prev: Option<int>, seconds: int, c: Clip)
    ensures forall t :: t in BreakTags(mode, prev, seconds, c) <==> Announced(mode, prev, seconds, c, t)
  {
    hide OutPayload, HexOr, EventId;
  }

  /** In every run the markers of a segment are those of its second, as the segment before it leaves the break. */
  lemma {:induction false} BreaksAreAnnounced(cfg: Config, s: State, tries: seq<Try>, i: nat)
    requires cfg.maxSize >= 1 && i < |Aired(cfg, s, tries)|
    ensures var aired := Aired(cfg, s, tries);
      var (prev, seconds) := if i == 0 then (s.prevAvail, s.prevAvailSeconds)
        else (aired[i - 1].clip.breakStart, aired[i - 1].clip.breakSeconds);
      forall t :: t in aired[i].segment.tags <==> Announced(cfg.mode, prev, seconds, aired[i].clip, t)
  {
    hide Aired, BreakTags, Announced, NextSecond;
    AiredIsChained(cfg, s, tries);
    var aired := Aired(cfg, s, tries);
    if i == 0 {
      TagsAreAnnounced(cfg.mode, s.prevAvail, s.prevAvailSeconds, aired[0].clip);
    } else {
      var a := aired[i - 1];
      assert Linked(cfg.mode, a, aired[i]);
      TagsAreAnnounced(cfg.mode, a.clip.breakStart, a.clip.breakSeconds, aired[i].clip);
    }
  }

  predicate HasIn(m: Segment, id: bv32, start: int) {
    exists t <- m.tags :: t.DateRangeIn? && t.id == id && t.start == start
  }

  lemma {:induction false} NothingEnds(mode: Mode, c: Clip)
    ensures forall t <- BreakTags(mode, None, 0, c) :: !t.DateRangeIn? && !t.CueIn?
  {
    hide OutPayload, EventId;
  }

  /**
   The end of a break that a restart interrupts: the first segment behind the break carries
   its end marker if and only if a segment of the break was aired after the restart. The
   segments aired before it do not count, since the break on the air is not restored.
   */
  lemma {:induction false} EndIsMarkedIff(cfg: Config, lines: seq<Line>, disk: Disk, tries: seq<Try>, k: nat, b: int)
    requires cfg.maxSize >= 1 && InDateRanges(cfg.mode)
    requires k < |Aired(cfg, Restored(lines, disk), tries)| &&
        AllInBreak(Aired(cfg, Restored(lines, disk), tries), 0, k, b)
    requires Aired(cfg, Restored(lines, disk), tries)[k].clip.breakStart != Some(b)
    ensures HasIn(Aired(cfg, Restored(lines, disk), tries)[k].segment, EventId(b), b) <==> 0 < k
  {
    hide Aired, TakeAll, Placed, Knows, BreakTags, EventId, NextSecond;
    var s := Restored(lines, disk);
    var aired := Aired(cfg, s, tries);
    AiredIsChained(cfg, s, tries);
    if k == 0 {
      NothingEnds(cfg.mode, aired[0].clip);
    } else {
      assert Linked(cfg.mode, aired[k - 1], aired[k]);
      InMarksTheEnd(cfg.mode, Some(b), aired[k - 1].clip.breakSeconds, aired[k].clip);
      assert aired[k].segment.tags[0] in aired[k].segment.tags;
    }
  }
}
