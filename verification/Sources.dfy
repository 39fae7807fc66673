/**
 Which source a clip puts on the air, said by what the network answers: a clip that can be
 aired is aired, the slate comes in its place only when it cannot be, and a clip is dropped
 only when neither can.
 */
module Sources {
  import opened Common
  import opened Stitcher
  import opened LivePlaylist
  import Airings
  import Fmp4

  /**
   Segment i of a source can be aired in a second of the clock: the source has it, it lasts
   about a second, its files can be read, and it can be moved to that second.
   */
  predicate Available(cfg: Config, world: World, uri: string, i: int, start: int) {
    && uri in world
    && var source := world[uri];
    && 0 <= i < |source.durations|
    && 1000 - cfg.tolerance <= source.durations[i] <= 1000 + cfg.tolerance
    && source.init.Some? && i in source.media
    && Fmp4.Retime(source.media[i], source.init.value.tracks, start - TIMELINE_EPOCH, i).Ok?
  }

  /** A place in a source that is played over and over. */
  function Looped(world: World, uri: string, offset: int): int {
    if uri in world then offset % |world[uri].durations| else offset
  }

  /** The segment that a clip asks for: the slate loops. */
  function Wanted(world: World, c: Clip): int {
    if c.kind == "slate" then Looped(world, c.uri, c.offset) else c.offset
  }

  predicate ClipAvailable(cfg: Config, world: World, c: Clip) {
    Available(cfg, world, c.uri, Wanted(world, c), c.start)
  }

  /** The slate of a second, chosen by the clock. */
  predicate SlateAvailable(cfg: Config, world: World, start: int) {
    Available(cfg, world, cfg.slateUri, Looped(world, cfg.slateUri, start), start)
  }

  /** There is a slate, and it is not what the clip asks for. */
  predicate HasFallback(cfg: Config, c: Clip) {
    c.kind != "slate" && cfg.slateUri != "" && c.uri != cfg.slateUri
  }

  /** A source and a place in it. */
  datatype Picture = Picture(uri: string, index: int)

  function PictureOf(r: Retimed): Picture { Picture(r.src, r.index) }

  function SlateOf(cfg: Config, world: World, start: int): Picture {
    Picture(cfg.slateUri, Looped(world, cfg.slateUri, start))
  }

  /** The bytes that go on the air are those of the source, moved to the second of the clip. */
  predicate FromSource(world: World, c: Clip, r: Retimed) {
    && r.src in world
    && var source := world[r.src];
    && 0 <= r.index < |source.durations| && r.duration == source.durations[r.index]
    && source.init == Some(r.init) && r.index in source.media && r.raw == source.media[r.index]
    && Fmp4.Retime(r.raw, r.init.tracks, c.start - TIMELINE_EPOCH, r.index) == Ok(r.media)
  }

  /** A clip that is later than everything aired, and whose files can be written. */
  predicate Reaches(s: State, t: Try) { !Duplicate(s, t.clip) && t.write.Written? }

  lemma {:induction false} PreparedIff(cfg: Config, world: World, uri: string, offset: int, loop: bool, c: Clip)
    ensures var i := if loop then Looped(world, uri, offset) else offset;
      var r := Prepare(cfg, world, uri, offset, loop, c.start);
      && (r.Some? <==> Available(cfg, world, uri, i, c.start))
      && (r.Some? ==> PictureOf(r.value) == Picture(uri, i) && FromSource(world, c, r.value))
  {
    hide Fmp4.Retime;
  }

  lemma {:induction false} ResolvedIff(cfg: Config, world: World, c: Clip)
    ensures var r := Resolve(cfg, world, c);
      var clip, slate := ClipAvailable(cfg, world, c), HasFallback(cfg, c) && SlateAvailable(cfg, world, c.start);
      && (r.Some? <==> clip || slate)
      && (r.Some? ==> FromSource(world, c, r.value))
      && (r.Some? && clip ==> PictureOf(r.value) == Picture(c.uri, Wanted(world, c)))
      && (r.Some? && !clip ==> PictureOf(r.value) == SlateOf(cfg, world, c.start))
  {
    hide Prepare, FromSource, Available, PictureOf, Looped;
    PreparedIff(cfg, world, c.uri, c.offset, c.kind == "slate", c);
    PreparedIff(cfg, world, cfg.slateUri, c.start, true, c);
  }

  /** Whatever is put on the air for a clip comes from its source when that is available, and else from the slate. */
  lemma {:induction false} AiredIsBest(cfg: Config, s: State, t: Try)
    ensures var o, c := Outcome(cfg, s, t.clip, t.world, t.write), t.clip;
      o.Some? ==>
        && o.value.clip == c && FromSource(t.world, c, o.value.retimed)
        && PictureOf(o.value.retimed) ==
             (if ClipAvailable(cfg, t.world, c) then Picture(c.uri, Wanted(t.world, c))
              else SlateOf(cfg, t.world, c.start))
        && (ClipAvailable(cfg, t.world, c) || (HasFallback(cfg, c) && SlateAvailable(cfg, t.world, c.start)))
  {
    hide Resolve, FromSource, ClipAvailable, SlateAvailable, Entry, Writes;
    ResolvedIff(cfg, t.world, t.clip);
  }

  /**
   A clip that is later than all that was aired and whose files can be written: its own source is
   aired if and only if it is available, the slate of its second if and only if only that is, and
   the clip is dropped if and only if neither is.
   */
  lemma {:induction false} ClipIsAiredIff(cfg: Config, s: State, t: Try)
    requires Reaches(s, t)
    ensures var o, c := Outcome(cfg, s, t.clip, t.world, t.write), t.clip;
      var clip, slate := ClipAvailable(cfg, t.world, c), HasFallback(cfg, c) && SlateAvailable(cfg, t.world, c.start);
      && (o.Some? && PictureOf(o.value.retimed) == Picture(c.uri, Wanted(t.world, c)) <==> clip)
      && (HasFallback(cfg, c) ==>
            (o.Some? && PictureOf(o.value.retimed) == SlateOf(cfg, t.world, c.start) <==> !clip && slate))
      && (o.None? <==> !clip && !slate)
  {
    AiredIsBest(cfg, s, t);
    hide Resolve, ClipAvailable, SlateAvailable, Entry;
    ResolvedIff(cfg, t.world, t.clip);
  }

  /** A clip is lost with its files: when the directory or the segment cannot be written, or an init section that is
      not there yet. */
  lemma {:induction false} FilesAreNeeded(cfg: Config, s: State, c: Clip, world: World)
    ensures Outcome(cfg, s, c, world, NoDirectory) == None && Outcome(cfg, s, c, world, NoSegment) == None
    ensures var o := Outcome(cfg, s, c, world, Written);
      Outcome(cfg, s, c, world, NoInit) ==
        if o.Some? && InitFile(o.value.retimed.init.bytes) in s.disk then o else None
  {
    hide Resolve, Entry;
  }

  // ----- over runs -----

  /** The state before the i-th try of a process that began with s. */
  function StateAt(cfg: Config, s: State, tries: seq<Try>, i: nat): State
    requires i <= |tries|
  {
    TryAll(cfg, s, tries[..i])
  }

  /** The i-th try is later than all that was aired before it, and its files can be written. */
  ghost predicate Airable(cfg: Config, s: State, tries: seq<Try>, i: nat)
    requires i < |tries|
  {
    && tries[i].write.Written?
    && (s.lastStart.Some? ==> s.lastStart.value < tries[i].clip.start)
    && forall a <- Airings.Aired(cfg, s, tries[..i]) :: a.clip.start < tries[i].clip.start
  }

  predicate LatestIs(s: State, aired: seq<Airing>, last: Option<int>) {
    if aired == [] then last == s.lastStart
    else
      && last == Some(aired[|aired| - 1].clip.start)
      && (forall a <- aired :: a.clip.start <= aired[|aired| - 1].clip.start)
      && (s.lastStart.Some? ==> s.lastStart.value < aired[|aired| - 1].clip.start)
  }

  lemma {:induction false} LatestAired(cfg: Config, s: State, tries: seq<Try>)
    ensures LatestIs(s, Airings.Aired(cfg, s, tries), TryAll(cfg, s, tries).lastStart)
    decreases |tries|
  {
    hide Resolve, Entry, Writes, Expire, Discs, Retire, WithInit;
    if tries != [] {
      LatestAired(cfg, s, tries[..|tries| - 1]);
    }
  }

  lemma {:induction false} AirableReaches(cfg: Config, s: State, tries: seq<Try>, i: nat)
    requires i < |tries|
    ensures Airable(cfg, s, tries, i) <==> Reaches(StateAt(cfg, s, tries, i), tries[i])
  {
    LatestAired(cfg, s, tries[..i]);
    hide TryAll, Airings.Aired;
    var aired := Airings.Aired(cfg, s, tries[..i]);
    if aired != [] { assert aired[|aired| - 1] in aired; }
  }

  /**
   In every run of a process, whatever was tried before: the same for its i-th try, which is airable
   when it is later than all that went on the air before it.
   */
  lemma {:induction false} TryIsAiredIff(cfg: Config, s: State, tries: seq<Try>, i: nat)
    requires i < |tries| && Airable(cfg, s, tries, i)
    ensures var c, world := tries[i].clip, tries[i].world;
      var clip, slate := ClipAvailable(cfg, world, c), HasFallback(cfg, c) && SlateAvailable(cfg, world, c.start);
      var o := Outcome(cfg, StateAt(cfg, s, tries, i), c, world, Written);
      && (o.Some? && PictureOf(o.value.retimed) == Picture(c.uri, Wanted(world, c)) <==> clip)
      && (HasFallback(cfg, c) ==>
            (o.Some? && PictureOf(o.value.retimed) == SlateOf(cfg, world, c.start) <==> !clip && slate))
      && (o.None? <==> !clip && !slate)
  {
    hide Airable, Outcome, ClipAvailable, SlateAvailable, HasFallback, TryAll;
    AirableReaches(cfg, s, tries, i);
    ClipIsAiredIff(cfg, StateAt(cfg, s, tries, i), tries[i]);
  }
}
