/**
 A run in which the end of a break is never marked: the break is announced and printed, the
 process is restarted, and the next second lies outside the break.
 */
module RestartExample {
  import opened Common
  import opened Stitcher
  import opened Playlist
  import opened PlaylistRoundTrip
  import opened LivePlaylist
  import opened Airings
  import opened Steady

  // ----- every run of this shape -----

  /** A process that continues a printed window does not know the break on the air. */
  lemma {:induction false} RestartLeaves(cfg: Config, h: History, items: seq<Segment>, discSeq: int)
    requires PlainName(cfg.variant) && items != [] && Tidy(items) && Lasting(items) && Consecutive(items)
    requires h.engine.file == Some(Render(cfg, items, discSeq))
    ensures var s := Next(cfg, h, Restart).engine.st;
      s.items == items && s.prevAvail == None && s.lastStart == Some(items[|items| - 1].time)
  {
    hide Render, Restored, Tidy, Lasting, Consecutive, Names;
    RoundTrip(cfg, items, discSeq, h.engine.st.disk);
  }

  function UntilRestart(c: Clip, world: World): seq<Step> { [] + [Tick(One(c, world), true)] + [Restart] }

  /** A second is aired and printed, the process is restarted, and another second is aired and printed. */
  function Steps(c: Clip, c': Clip, world: World): seq<Step> { UntilRestart(c, world) + [Tick(One(c', world), true)] }

  function First(cfg: Config, c: Clip, world: World): Segment
    requires Resolve(cfg, world, c).Some?
  {
    Entry(cfg.mode, Fresh(map[]), c, Resolve(cfg, world, c).value)
  }

  lemma {:induction false} FirstIsTidy(cfg: Config, c: Clip, world: World)
    requires cfg.tolerance < 1000 && Resolve(cfg, world, c).Some?
    ensures var m := First(cfg, c, world); Tidy([m]) && Lasting([m]) && Consecutive([m]) && m.time == c.start
  {
    hide Resolve, Entry, Marks;
    ResolvedLasts(cfg, world, c);
    EntryIsTidy(cfg, Fresh(map[]), c, Resolve(cfg, world, c).value);
  }

  lemma {:induction false} AfterRestart(cfg: Config, c: Clip, world: World)
    requires Sound(cfg) && Resolve(cfg, world, c).Some?
    ensures var s := Run(cfg, UntilRestart(c, world)).engine.st;
      s.items == [First(cfg, c, world)] && s.prevAvail == None && s.lastStart == Some(c.start)
  {
    FirstIsTidy(cfg, c, world);
    NothingRun(cfg);
    hide Resolve, Entry, TryAll, AnyAdded, Render, Next, Run, Tidy, Lasting, Consecutive, One;
    var m, tick := First(cfg, c, world), Tick(One(c, world), true);
    OneTry(cfg, Fresh(map[]), c, world);
    assert [] + [m] == [m];
    RunLast(cfg, [], tick);
    TickLeaves(cfg, Run(cfg, []), One(c, world));
    RunLast(cfg, [] + [tick], Restart);
    RestartLeaves(cfg, Run(cfg, [] + [tick]), [m], 0);
  }

  lemma {:induction false} StartIsMarked(cfg: Config, c: Clip, rt: Retimed)
    requires InDateRanges(cfg.mode) && c.breakStart == Some(c.start)
    ensures var m := Entry(cfg.mode, Fresh(map[]), c, rt);
      HasOut(m, EventId(c.start), c.start) && forall t <- m.tags :: !t.DateRangeIn?
  {
    hide OutPayload, EventId, Discontinuous;
    var m := Entry(cfg.mode, Fresh(map[]), c, rt);
    assert m.tags[0].DateRangeOut? && m.tags[0] in m.tags;
  }

  lemma {:induction false} EndIsNotMarked(cfg: Config, s: State, c: Clip, rt: Retimed)
    requires s.prevAvail == None && c.breakStart == None
    ensures var m := Entry(cfg.mode, s, c, rt); m.tags == [] && m.time == c.start
  {
    hide Discontinuous;
  }

  /**
   A break of which one second is aired before a restart and none after it: the window
   shows its start marker and the segment behind the break, and no end marker.
   */
  lemma {:induction false} EndIsLost(cfg: Config, c: Clip, c': Clip, world: World)
    requires Sound(cfg) && cfg.maxSize >= 2 && InDateRanges(cfg.mode)
    requires Resolve(cfg, world, c).Some? && Resolve(cfg, world, c').Some?
    requires c.breakStart == Some(c.start) && c'.breakStart == None && c.start < c'.start
    ensures var items := Run(cfg, Steps(c, c', world)).engine.st.items;
      && |items| == 2 && items[0].time == c.start && items[1].time == c'.start
      && HasOut(items[0], EventId(c.start), c.start)
      && (forall t <- items[0].tags :: !t.DateRangeIn?) && items[1].tags == []
  {
    AfterRestart(cfg, c, world);
    FirstIsTidy(cfg, c, world);
    hide Resolve, Entry, TryAll, AnyAdded, Next, Run, HasOut, EventId, Tidy, Lasting, Consecutive, One, UntilRestart;
    var s := Run(cfg, UntilRestart(c, world)).engine.st;
    OneTry(cfg, s, c', world);
    StartIsMarked(cfg, c, Resolve(cfg, world, c).value);
    EndIsNotMarked(cfg, s, c', Resolve(cfg, world, c').value);
    RunLast(cfg, UntilRestart(c, world), Tick(One(c', world), true));
    TickLeaves(cfg, Run(cfg, UntilRestart(c, world)), One(c', world));
  }

  // ----- one such run -----

  const BREAK := TIMELINE_EPOCH
  const CFG := Config(3, 30, DateRange, 10, "", "v720", 1)

  /** The only second of the break, and the second behind it. */
  function InBreak(): Clip { Clip(BREAK, BREAK, 1, "ad", "movie", 0, true, Some(BREAK), 1, "") }

  function Behind(): Clip { Clip(BREAK + 1, BREAK + 1, 1, "content", "movie", 0, false, None, 0, "") }

  lemma {:induction false} EndIsNeverMarked()
    ensures var items := Run(CFG, Steps(InBreak(), Behind(), Movie(1000))).engine.st.items;
      && |items| == 2 && HasOut(items[0], EventId(BREAK), BREAK)
      && (forall t <- items[0].tags :: !t.DateRangeIn?) && items[1].tags == []
  {
    hide Resolve, Run, HasOut, EventId, Steps, Movie;
    MovieResolves(CFG, 1000, InBreak());
    MovieResolves(CFG, 1000, Behind());
    EndIsLost(CFG, InBreak(), Behind(), Movie(1000));
  }
}
