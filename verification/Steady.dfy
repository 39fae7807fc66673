/**
 A world in which every clip resolves: a movie of one segment, aired second by second. With
 it, runs of any length can be shown to exist.
 */
module Steady {
  import opened Common
  import opened Stitcher
  import opened Playlist
  import opened LivePlaylist
  import Bytes
  import Fmp4
  import Fmp4Examples

  function Media(): seq<Bytes.byte> { Fmp4Examples.Segment(0, Fmp4Examples.Zero()) }

  /** A movie whose segment is said to last d milliseconds. */
  function Movie(d: int): World {
    map["movie" := Source([d], Some(Init([], Fmp4Examples.SLOW_TRACKS)), map[0 := Media()])]
  }

  /** A clip of the movie in a second of the timeline. */
  predicate Plays(c: Clip) {
    c.uri == "movie" && c.offset == 0 && 0 <= c.start - TIMELINE_EPOCH < Fmp4Examples.CENTURIES
  }

  lemma {:induction false} MovieHas(d: int)
    ensures "movie" in Movie(d) && Movie(d)["movie"].durations == [d] && Movie(d)["movie"].media == map[0 := Media()]
    ensures Movie(d)["movie"].init == Some(Init([], Fmp4Examples.SLOW_TRACKS))
  {
    hide Media;
  }

  lemma {:induction false} MoviePrepares(cfg: Config, world: World, d: int, loop: bool, start: int)
    requires "movie" in world && world["movie"].durations == [d] && world["movie"].media == map[0 := Media()]
    requires world["movie"].init == Some(Init([], Fmp4Examples.SLOW_TRACKS)) && Distance(d, 1000) <= cfg.tolerance
    requires Fmp4.Retime(Media(), Fmp4Examples.SLOW_TRACKS, start - TIMELINE_EPOCH, 0).Ok?
    ensures var r := Prepare(cfg, world, "movie", 0, loop, start); r.Some? && r.value.duration == d
  {
    hide Fmp4.Retime, Media, Distance;
    assert SegmentIndex(world["movie"], 0, loop) == 0;
    assert 0 in world["movie"].media;
  }

  lemma {:induction false} MovieResolves(cfg: Config, d: int, c: Clip)
    requires Plays(c) && Distance(d, 1000) <= cfg.tolerance
    ensures Resolve(cfg, Movie(d), c).Some? && Resolve(cfg, Movie(d), c).value.duration == d
  {
    hide Fmp4.Retime, Media, Distance, Movie, Prepare;
    MovieHas(d);
    Fmp4Examples.ZeroMoves(c.start - TIMELINE_EPOCH);
    MediaIs();
    MoviePrepares(cfg, Movie(d), d, c.kind == "slate", c.start);
  }

  lemma {:induction false} MediaIs()
    ensures Media() == Fmp4Examples.Segment(0, Fmp4Examples.Zero())
  {
    hide Fmp4Examples.Segment;
  }

  /** What a clip adds to a stitcher that resolves and writes it. */
  lemma {:induction false} OneTry(cfg: Config, s: State, c: Clip, world: World)
    requires !Duplicate(s, c) && Resolve(cfg, world, c).Some? && |s.items| < cfg.maxSize
    ensures var s' := TryAll(cfg, s, One(c, world));
      && AnyAdded(cfg, s, One(c, world)) && s'.discSeq == s.discSeq
      && s'.items == s.items + [Entry(cfg.mode, s, c, Resolve(cfg, world, c).value)]
  {
    hide Resolve, Entry, WithInit, Expire;
    assert One(c, world)[..0] == [];
    assert TryAll(cfg, s, []) == s;
    var all := s.items + [Entry(cfg.mode, s, c, Resolve(cfg, world, c).value)];
    assert Leaving(|all|, cfg.maxSize) == 0;
    assert all[0..] == all && all[..0] == [];
  }

  /** Also when the window is full, what is added is its last segment. */
  lemma {:induction false} OneTryLast(cfg: Config, s: State, c: Clip, world: World)
    requires cfg.maxSize >= 1 && !Duplicate(s, c) && Resolve(cfg, world, c).Some?
    ensures var s' := TryAll(cfg, s, One(c, world));
      && AnyAdded(cfg, s, One(c, world)) && s'.items != [] && s'.lastStart == Some(c.start)
      && s'.items[|s'.items| - 1] == Entry(cfg.mode, s, c, Resolve(cfg, world, c).value)
  {
    hide Resolve, Entry, WithInit, Expire;
    assert One(c, world)[..0] == [];
    assert TryAll(cfg, s, []) == s;
  }

  lemma {:induction false} RunLast(cfg: Config, steps: seq<Step>, step: Step)
    ensures Run(cfg, steps + [step]) == Next(cfg, Run(cfg, steps), step)
  {
    hide Next;
    assert (steps + [step])[..|steps|] == steps;
  }

  lemma {:induction false} TickLeaves(cfg: Config, h: History, tries: seq<Try>)
    ensures Next(cfg, h, Tick(tries, true)).engine.st == TryAll(cfg, h.engine.st, tries)
    ensures AnyAdded(cfg, h.engine.st, tries) && TryAll(cfg, h.engine.st, tries).items != [] ==>
      var s := TryAll(cfg, h.engine.st, tries);
      && Next(cfg, h, Tick(tries, true)).engine.file == Some(Render(cfg, s.items, s.discSeq))
      && Next(cfg, h, Tick(tries, true)).published == h.published + [Shown(s)]
  {
    hide TryAll, AnyAdded, Render;
  }

  function One(c: Clip, world: World): seq<Try> { [Try(c, world, Written)] }

  lemma {:induction false} NothingRun(cfg: Config)
    ensures Run(cfg, []).engine.st == Fresh(map[])
  {
  }

  /** The movie as a slate that loops: a clip for every second. */
  function Second(k: nat): Clip {
    Clip(TIMELINE_EPOCH + k, TIMELINE_EPOCH + k, 1, "slate", "movie", 0, false, None, 0, "")
  }
}
