/**
 The published live playlist over whole runs of the engine: ticks that try clips in any
 order of time, sources and writes that fail, playlists that could not be written, and
 restarts that continue from the last printed playlist. A playlist may only lose segments at
 its front and gain segments at its end, and its two sequence numbers follow: sections 6.2.2,
 4.3.3.2 and 4.3.3.3 of RFC 8216. The rules of section 6.2 that depend on the configuration
 are in PlaylistRules.
 */
module LivePlaylist {
  import opened Common
  import opened Stitcher
  import opened Playlist
  import opened PlaylistRoundTrip

  datatype Live = Live(items: seq<Segment>, discSeq: int)

  function Shown(s: State): Live { Live(s.items, s.discSeq) }

  predicate Growing(items: seq<Segment>) {
    forall i, j :: 0 <= i < j < |items| ==> items[i].time < items[j].time
  }

  /** q is p with segments appended and a prefix of k segments dropped, and counts what was dropped. */
  predicate SlidesBy(p: Live, q: Live, more: seq<Segment>, k: nat) {
    && k <= |p.items + more|
    && q.items == (p.items + more)[k..]
    && q.discSeq == p.discSeq + Discs((p.items + more)[..k])
    && Consecutive(p.items + more) && Growing(p.items + more)
  }

  ghost predicate Slides(p: Live, q: Live) {
    exists more: seq<Segment>, k: nat :: SlidesBy(p, q, more, k)
  }

  // ----- the engine -----

  datatype Try = Try(clip: Clip, world: World, write: Write)

  /** One tick, or the end of the process and a new one. */
  datatype Step = Tick(tries: seq<Try>, printed: bool) | Restart

  datatype Engine = Engine(st: State, file: Option<seq<Line>>)

  function TryAll(cfg: Config, s: State, tries: seq<Try>): State {
    if tries == [] then s
    else
      var t := tries[|tries| - 1];
      After(cfg, TryAll(cfg, s, tries[..|tries| - 1]), t.clip, t.world, t.write)
  }

  predicate AnyAdded(cfg: Config, s: State, tries: seq<Try>) {
    if tries == [] then false
    else
      var t := tries[|tries| - 1];
      || AnyAdded(cfg, s, tries[..|tries| - 1])
      || Outcome(cfg, TryAll(cfg, s, tries[..|tries| - 1]), t.clip, t.world, t.write).Some?
  }

  /** Files the restored window does not use are removed. */
  function WithoutOrphans(s: State): State {
    s.(disk := map f | f in s.disk && (f in Names(s.items) || f.OtherFile?) :: s.disk[f])
  }

  function Reopened(e: Engine): State {
    WithoutOrphans(if e.file.Some? then Restored(e.file.value, e.st.disk) else Fresh(e.st.disk))
  }

  /** A run so far, and every playlist it published. */
  datatype History = History(engine: Engine, published: seq<Live>)

  /** The playlist is written when a clip was added, and the write may fail. A window of size 0 has nothing to print. */
  predicate Publishes(cfg: Config, s: State, step: Step) {
    step.Tick? && step.printed && AnyAdded(cfg, s, step.tries) && TryAll(cfg, s, step.tries).items != []
  }

  function Next(cfg: Config, h: History, step: Step): History {
    match step
    case Restart => History(Engine(Reopened(h.engine), h.engine.file), h.published)
    case Tick(tries, printed) =>
      var s := TryAll(cfg, h.engine.st, tries);
      if Publishes(cfg, h.engine.st, step)
      then History(Engine(s, Some(Render(cfg, s.items, s.discSeq))), h.published + [Shown(s)])
      else History(h.engine.(st := s), h.published)
  }

  function Run(cfg: Config, steps: seq<Step>): History {
    if steps == [] then History(Engine(Fresh(map[]), None), [])
    else Next(cfg, Run(cfg, steps[..|steps| - 1]), steps[|steps| - 1])
  }

  // ----- sliding -----

  lemma {:induction false} DiscsConcat(a: seq<Segment>, b: seq<Segment>)
    ensures Discs(a + b) == Discs(a) + Discs(b)
    decreases |b|
  {
    if b == [] {
      assert a + b == a;
    } else {
      assert (a + b)[..|a + b| - 1] == a + b[..|b| - 1];
      DiscsConcat(a, b[..|b| - 1]);
    }
  }

  lemma {:induction false} SlidesSelf(p: Live)
    requires Consecutive(p.items) && Growing(p.items)
    ensures Slides(p, p)
  {
    assert p.items + [] == p.items;
    assert SlidesBy(p, p, [], 0);
  }

  /** Two runs of numbered, timed segments that overlap make one. */
  lemma {:induction false} Glue(a: seq<Segment>, b: seq<Segment>, k: nat)
    requires k < |a| && Consecutive(a) && Growing(a) && Consecutive(a[k..] + b) && Growing(a[k..] + b)
    ensures Consecutive(a + b) && Growing(a + b)
  {
    var c := a[k..] + b;
    forall i | 0 <= i < |a + b| ensures (a + b)[i].number == (a + b)[0].number + i {
      if i >= |a| {
        assert (a + b)[i] == c[i - k] && c[0] == a[k];
      }
    }
    forall i, j | 0 <= i < j < |a + b| ensures (a + b)[i].time < (a + b)[j].time {
      if j >= |a| {
        assert (a + b)[j] == c[j - k] && c[0] == a[k];
        assert (a + b)[i] == if i < k then a[i] else c[i - k];
      }
    }
  }

  lemma {:induction false} SlidesOnBy(p: Live, q: Live, r: Live, m: seq<Segment>, k: nat, m': seq<Segment>, k': nat)
    requires SlidesBy(p, q, m, k) && SlidesBy(q, r, m', k') && q.items != []
    ensures SlidesBy(p, r, m + m', k + k')
  {
    hide Consecutive, Growing, Discs;
    var a := p.items + m;
    Glue(a, m', k);
    assert p.items + (m + m') == a + m';
    assert (a + m')[k + k'..] == (a[k..] + m')[k'..];
    assert Discs((a + m')[..k + k']) == Discs(a[..k]) + Discs((a[k..] + m')[..k']) by {
      assert (a + m')[..k + k'] == a[..k] + (a[k..] + m')[..k'];
      DiscsConcat(a[..k], (a[k..] + m')[..k']);
    }
  }

  lemma {:induction false} SlidesOn(p: Live, q: Live, r: Live)
    requires Slides(p, q) && Slides(q, r) && q.items != []
    ensures Slides(p, r)
  {
    hide SlidesBy;
    var m, k: nat :| SlidesBy(p, q, m, k);
    var m', k': nat :| SlidesBy(q, r, m', k');
    SlidesOnBy(p, q, r, m, k, m', k');
  }

  // ----- one clip -----

  /** Every segment lasts a second, give or take the tolerance. */
  predicate Near(tolerance: int, items: seq<Segment>) { forall m <- items :: Distance(m.duration, 1000) <= tolerance }

  predicate GoodItems(cfg: Config, items: seq<Segment>) {
    && |items| <= cfg.maxSize && Consecutive(items) && Growing(items) && Tidy(items) && Lasting(items)
    && Near(cfg.tolerance, items)
  }

  /** The stitcher knows the end of its window. */
  predicate GoodState(cfg: Config, s: State) {
    && GoodItems(cfg, s.items)
    && if s.items == [] then s.nextNumber == 0 && s.lastStart.None?
       else
         var m := s.items[|s.items| - 1];
         m.number >= 0 && s.nextNumber == m.number + 1 && s.lastStart == Some(m.time)
  }

  /** A window, a duration that prints as more than zero, and file names that are not comments. */
  predicate Sound(cfg: Config) { cfg.maxSize >= 1 && cfg.tolerance < 1000 && PlainName(cfg.variant) }

  lemma {:induction false} ResolvedLasts(cfg: Config, world: World, c: Clip)
    requires cfg.tolerance < 1000 && Resolve(cfg, world, c).Some?
    ensures var d := Resolve(cfg, world, c).value.duration; d > 0 && Distance(d, 1000) <= cfg.tolerance
  {
    PreparedLasts(cfg, world, c.uri, c.offset, c.kind == "slate", c.start);
    PreparedLasts(cfg, world, cfg.slateUri, c.start, true, c.start);
    hide Prepare;
  }

  lemma {:induction false} PreparedLasts(cfg: Config, world: World, uri: string, offset: int, loop: bool, start: int)
    requires cfg.tolerance < 1000
    ensures var r := Prepare(cfg, world, uri, offset, loop, start); r.Some? ==>
        r.value.duration > 0 && Distance(r.value.duration, 1000) <= cfg.tolerance
  {
    hide Fmp4.Retime;
  }

  lemma {:induction false} TagsAreMarks(mode: Mode, prev: Option<int>, seconds: int, c: Clip)
    ensures Marks(BreakTags(mode, prev, seconds, c))
  {
    hide StartMarkers, EndMarkers;
    if prev.Some? { EndsAreMarks(mode, prev.value, seconds); }
    StartsAreMarks(mode, c.start, c.breakSeconds, c.scte35);
  }

  lemma {:induction false} StartsAreMarks(mode: Mode, start: int, seconds: int, given: string)
    ensures Marks(StartMarkers(mode, start, seconds, given))
  {
    hide OutPayload;
  }

  lemma {:induction false} EndsAreMarks(mode: Mode, start: int, seconds: int)
    ensures Marks(EndMarkers(mode, start, seconds))
  {
    hide HexOr;
  }

  lemma {:induction false} EntryIsTidy(cfg: Config, s: State, c: Clip, rt: Retimed)
    ensures var m := Entry(cfg.mode, s, c, rt);
      m.init.Some? && Marks(m.tags) && m.duration == rt.duration && m.time == c.start && m.number == Number(s, c)
  {
    hide BreakTags, Marks, Discontinuous;
    TagsAreMarks(cfg.mode, s.prevAvail, s.prevAvailSeconds, c);
  }

  lemma {:induction false} OneMore(cfg: Config, s: State, c: Clip, m: Segment)
    requires GoodState(cfg, s) && !Duplicate(s, c)
    requires m.init.Some? && Marks(m.tags) && m.duration > 0 && m.time == c.start && m.number == Number(s, c)
    requires Distance(m.duration, 1000) <= cfg.tolerance
    ensures var all := s.items + [m];
      && Consecutive(all) && Growing(all) && Tidy(all) && Lasting(all) && Near(cfg.tolerance, all) && m.number >= 0
  {
  }

  lemma {:induction false} Suffix(items: seq<Segment>, k: nat, tolerance: int)
    requires k <= |items| && Consecutive(items) && Growing(items) && Tidy(items) && Lasting(items) &&
        Near(tolerance, items)
    ensures Consecutive(items[k..]) && Growing(items[k..]) && Tidy(items[k..]) && Lasting(items[k..]) &&
        Near(tolerance, items[k..])
  {
    forall i | 0 <= i < |items[k..]| ensures items[k..][i].number == items[k..][0].number + i {
      assert items[k..][i] == items[k + i] && items[k..][0] == items[k];
    }
    assert forall m <- items[k..] :: m in items;
  }

  lemma {:induction false} ClipSlides(cfg: Config, s: State, c: Clip, world: World, w: Write)
    requires Sound(cfg) && GoodState(cfg, s)
    ensures var s' := After(cfg, s, c, world, w);
      && GoodState(cfg, s') && Slides(Shown(s), Shown(s'))
      && (Outcome(cfg, s, c, world, w).Some? || s.items != [] ==> s'.items != [])
      && (s'.items == [] ==> Shown(s') == Shown(s))
  {
    hide Resolve, Entry, Discontinuous, Expire, Discs, WithInit, Consecutive, Growing, Tidy, Lasting, Near, Marks,
         Retire, Distance;
    var s' := After(cfg, s, c, world, w);
    match Outcome(cfg, s, c, world, w) {
      case None =>
        SlidesSelf(Shown(s));
      case Some(a) =>
        ResolvedLasts(cfg, world, c);
        EntryIsTidy(cfg, s, c, a.retimed);
        var m := Entry(cfg.mode, s, c, a.retimed);
        var all := s.items + [m];
        OneMore(cfg, s, c, m);
        var k := Leaving(|all|, cfg.maxSize);
        Suffix(all, k, cfg.tolerance);
        assert all[k..][|all[k..]| - 1] == m;
        assert SlidesBy(Shown(s), Shown(s'), [m], k);
    }
  }

  lemma {:induction false} TriesSlide(cfg: Config, s: State, tries: seq<Try>)
    requires Sound(cfg) && GoodState(cfg, s)
    ensures var s' := TryAll(cfg, s, tries);
      && GoodState(cfg, s') && Slides(Shown(s), Shown(s'))
      && (AnyAdded(cfg, s, tries) || s.items != [] ==> s'.items != [])
      && (s'.items == [] ==> Shown(s') == Shown(s))
    decreases |tries|
  {
    hide After, Outcome, Slides, SlidesBy;
    if tries == [] {
      SlidesSelf(Shown(s));
    } else {
      var t := tries[|tries| - 1];
      var s1 := TryAll(cfg, s, tries[..|tries| - 1]);
      TriesSlide(cfg, s, tries[..|tries| - 1]);
      ClipSlides(cfg, s1, t.clip, t.world, t.write);
      if s1.items != [] {
        SlidesOn(Shown(s), Shown(s1), Shown(TryAll(cfg, s, tries)));
      }
    }
  }

  // ----- whole runs -----

  predicate GoodLive(cfg: Config, p: Live) {
    p.items != [] && p.items[|p.items| - 1].number >= 0 && GoodItems(cfg, p.items)
  }

  /** Every published playlist is well-formed and slides into every later one. */
  ghost predicate Rules(cfg: Config, ps: seq<Live>) {
    && (forall i :: 0 <= i < |ps| ==> GoodLive(cfg, ps[i]))
    && (forall i, j :: 0 <= i <= j < |ps| ==> Slides(ps[i], ps[j]))
  }

  /** The printed file is the last published playlist, and the window continues it. */
  ghost predicate Follows(cfg: Config, h: History) {
    if h.published == [] then h.engine.file.None?
    else
      var p := h.published[|h.published| - 1];
      && p.items != [] && h.engine.file == Some(Render(cfg, p.items, p.discSeq))
      && h.engine.st.items != [] && Slides(p, Shown(h.engine.st))
  }

  ghost predicate Good(cfg: Config, h: History) {
    GoodState(cfg, h.engine.st) && Rules(cfg, h.published) && Follows(cfg, h)
  }

  /** A restart continues the last published playlist. */
  lemma {:induction false} RestartIsGood(cfg: Config, h: History)
    requires Sound(cfg) && Good(cfg, h)
    ensures Good(cfg, Next(cfg, h, Restart))
  {
    hide Render, Restored, Consecutive, Growing, Tidy, Lasting, Near, Names;
    var e := h.engine;
    if h.published != [] {
      var p := h.published[|h.published| - 1];
      RoundTrip(cfg, p.items, p.discSeq, e.st.disk);
      assert GoodLive(cfg, p);
      SlidesSelf(p);
    } else {
      EmptyIsGood(cfg.tolerance);
    }
  }

  lemma {:induction false} EmptyIsGood(tolerance: int)
    ensures Consecutive([]) && Growing([]) && Tidy([]) && Lasting([]) && Near(tolerance, [])
  {
  }

  lemma {:induction false} OneMorePublished(cfg: Config, ps: seq<Live>, q: Live)
    requires Rules(cfg, ps) && GoodLive(cfg, q) && (ps != [] ==> Slides(ps[|ps| - 1], q))
    ensures Rules(cfg, ps + [q])
  {
    hide GoodItems, Slides;
    SlidesSelf(q) by { assert GoodItems(cfg, q.items); GoodIsGrowing(cfg, q.items); }
    var all := ps + [q];
    forall i, j | 0 <= i <= j < |all| ensures Slides(all[i], all[j]) {
      if i < j == |ps| {
        assert Slides(ps[i], ps[|ps| - 1]) && GoodLive(cfg, ps[|ps| - 1]);
        SlidesOn(ps[i], ps[|ps| - 1], q);
      }
    }
  }

  lemma {:induction false} GoodIsGrowing(cfg: Config, items: seq<Segment>)
    requires GoodItems(cfg, items)
    ensures Consecutive(items) && Growing(items)
  {
  }

  lemma {:induction false} TickIsGood(cfg: Config, h: History, step: Step)
    requires Sound(cfg) && Good(cfg, h) && step.Tick?
    ensures Good(cfg, Next(cfg, h, step))
  {
    hide Render, Slides, Rules, GoodItems, TryAll, AnyAdded;
    var s, s' := h.engine.st, TryAll(cfg, h.engine.st, step.tries);
    TriesSlide(cfg, s, step.tries);
    var ps := h.published;
    if ps != [] {
      var p := ps[|ps| - 1];
      SlidesOn(p, Shown(s), Shown(s'));
    }
    if Publishes(cfg, s, step) {
      OneMorePublished(cfg, ps, Shown(s'));
      SlidesSelf(Shown(s')) by { GoodIsGrowing(cfg, s'.items); }
    }
  }

  lemma {:induction false} RunIsGood(cfg: Config, steps: seq<Step>)
    requires Sound(cfg)
    ensures Good(cfg, Run(cfg, steps))
    decreases |steps|
  {
    hide Next, Slides;
    if steps == [] {
    } else {
      var step := steps[|steps| - 1];
      RunIsGood(cfg, steps[..|steps| - 1]);
      var h := Run(cfg, steps[..|steps| - 1]);
      if step.Restart? { RestartIsGood(cfg, h); } else { TickIsGood(cfg, h, step); }
    }
  }

  /** The live playlist rules, over every run. */
  lemma {:induction false} PublishedPlaylistsSlide(cfg: Config, steps: seq<Step>)
    requires Sound(cfg)
    ensures Rules(cfg, Run(cfg, steps).published)
  {
    hide Rules, Run, Follows, GoodState;
    RunIsGood(cfg, steps);
  }

  /** Every window a run can reach is restored from its printed lines, with its next number and last start. */
  lemma {:induction false} ReachedWindowIsRestored(cfg: Config, steps: seq<Step>)
    requires Sound(cfg)
    ensures var s := Run(cfg, steps).engine.st;
      s.items != [] ==>
        var r := Restored(Render(cfg, s.items, s.discSeq), s.disk);
        && r.items == s.items && r.discSeq == s.discSeq && r.disk == s.disk
        && r.nextNumber == s.nextNumber && r.lastStart == s.lastStart
        && Render(cfg, r.items, r.discSeq) == Render(cfg, s.items, s.discSeq)
  {
    hide Run, Restored, Render, Rules, Follows, Consecutive, Growing, Tidy, Lasting;
    RunIsGood(cfg, steps);
    var s := Run(cfg, steps).engine.st;
    if s.items != [] {
      RoundTrip(cfg, s.items, s.discSeq, s.disk);
    }
  }

  /** After a restart the segments and init sections are those of the last published playlist, and no file changed. */
  lemma {:induction false} RestartKeepsPublished(cfg: Config, steps: seq<Step>, f: FileName)
    requires Sound(cfg)
    ensures var h := Run(cfg, steps);
      var (was, now) := (h.engine.st.disk, Run(cfg, steps + [Restart]).engine.st.disk);
      && (f in now <==>
            f in was && (f.OtherFile? || (h.published != [] && f in Names(h.published[|h.published| - 1].items))))
      && (f in now ==> now[f] == was[f])
  {
    var h := Run(cfg, steps);
    assert (steps + [Restart])[..|steps|] == steps;
    assert Run(cfg, steps + [Restart]) == Next(cfg, h, Restart);
    RunIsGood(cfg, steps);
    hide Run, Restored, Render, Rules, Follows, Consecutive, Growing, Tidy, Lasting, Names;
    if h.published != [] {
      var p := h.published[|h.published| - 1];
      RoundTrip(cfg, p.items, p.discSeq, h.engine.st.disk);
    } else {
      NothingNamed(f);
    }
  }

  lemma {:induction false} NothingNamed(f: FileName)
    ensures f !in Names([])
  {
  }

  // ----- what a player sees -----

  /** A number stands for one segment in all playlists, and the segments between two that are shown were never
      skipped. */
  lemma {:induction false} NumbersAreStable(p: Live, q: Live, i: nat, j: nat)
    requires Slides(p, q) && i < |p.items| && j < |q.items| && p.items[i].number == q.items[j].number
    ensures p.items[i] == q.items[j]
  {
    var more, k: nat :| SlidesBy(p, q, more, k);
    var all := p.items + more;
    assert q.items[j] == all[k + j] && p.items[i] == all[i];
    assert k + j == i;
  }

  /** A segment keeps its discontinuity number while the window slides under it. */
  lemma {:induction false} DiscontinuityNumbersAreStable(p: Live, q: Live, i: nat, j: nat)
    requires Slides(p, q) && i < |p.items| && j < |q.items| && p.items[i].number == q.items[j].number
    ensures p.discSeq + Discs(p.items[..i + 1]) == q.discSeq + Discs(q.items[..j + 1])
  {
    var more, k: nat :| SlidesBy(p, q, more, k);
    var all := p.items + more;
    assert q.items[j] == all[k + j] && p.items[i] == all[i];
    assert k + j == i;
    assert p.items[..i + 1] == all[..k] + q.items[..j + 1];
    DiscsConcat(all[..k], q.items[..j + 1]);
  }

  /** The edge never goes back, and neither does the first number or the discontinuity sequence. */
  lemma {:induction false} EdgeMovesOn(p: Live, q: Live)
    requires Slides(p, q) && p.items != [] && q.items != []
    ensures q.items[0].number >= p.items[0].number && q.discSeq >= p.discSeq
    ensures q.items[|q.items| - 1].number >= p.items[|p.items| - 1].number
    ensures q.items[|q.items| - 1].time >= p.items[|p.items| - 1].time
  {
    var more, k: nat :| SlidesBy(p, q, more, k);
    var all := p.items + more;
    var n := |all| - 1;
    assert q.items[0] == all[k] && all[0] == p.items[0];
    assert q.items[|q.items| - 1] == all[n] && p.items[|p.items| - 1] == all[|p.items| - 1];
  }
}
