/** Printing the live playlist and restoring it undo each other. */
module PlaylistRoundTrip {
  import opened Common
  import opened Stitcher
  import opened Playlist

  /** A variant name whose files are not taken for comments. */
  predicate PlainName(variant: string) { variant != "" && variant[0] != '#' }

  predicate Marks(tags: seq<Tag>) { forall t <- tags :: !t.OtherTag? }

  predicate Consecutive(items: seq<Segment>) {
    forall i :: 0 <= i < |items| ==> items[i].number == items[0].number + i
  }

  /** What the stitcher writes of a segment, but for its duration. */
  predicate Tidy(items: seq<Segment>) {
    forall m <- items :: m.init.Some? && Marks(m.tags)
  }

  predicate Lasting(items: seq<Segment>) { forall m <- items :: m.duration > 0 }

  // ----- lines -----

  lemma {:induction false} SequenceHeads()
    ensures KindOf(MEDIA_SEQUENCE) == IsSequence && KindOf(DISCONTINUITY_SEQUENCE) == IsDiscSequence
    ensures KindOf(MAP) == IsMap
  {
    assert MEDIA_SEQUENCE[7] != DISCONTINUITY_SEQUENCE[7];
    assert MEDIA_SEQUENCE[8] != MAP[8] && DISCONTINUITY_SEQUENCE[7] != MAP[7];
  }

  lemma {:induction false} MarkerHeads()
    ensures KindOf(DATERANGE) == IsMarker && KindOf(CUE) == IsMarker
  {
    assert DATERANGE[7] != MEDIA_SEQUENCE[7] && DATERANGE[8] != DISCONTINUITY_SEQUENCE[8] && DATERANGE[7] != MAP[7];
    assert CUE[7] != MEDIA_SEQUENCE[7] && CUE[7] != DISCONTINUITY_SEQUENCE[7] && CUE[7] != MAP[7];
  }

  lemma {:induction false} ItemHeads()
    ensures KindOf(DISCONTINUITY) == IsDisc && KindOf(DATE_TIME) == IsTime && KindOf(INF) == IsInf
  {
    assert DISCONTINUITY[7] != MEDIA_SEQUENCE[7] && DISCONTINUITY[7] != MAP[7] && DISCONTINUITY[8] != DATERANGE[8];
    assert DISCONTINUITY[7] != CUE[7];
    assert DATE_TIME[7] != MEDIA_SEQUENCE[7] && DATE_TIME[7] != DISCONTINUITY_SEQUENCE[7] && DATE_TIME[7] != MAP[7];
    assert DATE_TIME[7] != DATERANGE[7] && DATE_TIME[7] != CUE[7] && DATE_TIME[7] != DISCONTINUITY[7];
    assert INF[4] != MEDIA_SEQUENCE[4] && INF[4] != DISCONTINUITY_SEQUENCE[4] && INF[4] != MAP[4];
    assert INF[4] != DATERANGE[4] && INF[4] != CUE[4] && INF[4] != DISCONTINUITY[4] && INF[4] != DATE_TIME[4];
  }

  lemma {:induction false} OtherHeads()
    ensures KindOf("#EXTM3U") == IsOther && KindOf("#EXT-X-VERSION:7") == IsOther
    ensures KindOf("#EXT-X-TARGETDURATION:") == IsOther
  {
    var v, t := "#EXT-X-VERSION:7", "#EXT-X-TARGETDURATION:";
    assert v[7] != MEDIA_SEQUENCE[7] && v[7] != DISCONTINUITY_SEQUENCE[7] && v[7] != MAP[7];
    assert v[7] != DATERANGE[7] && v[7] != CUE[7] && v[7] != DISCONTINUITY[7] && v[7] != DATE_TIME[7] && v[4] != INF[4];
    assert t[7] != MEDIA_SEQUENCE[7] && t[7] != DISCONTINUITY_SEQUENCE[7] && t[7] != MAP[7];
    assert t[7] != DATERANGE[7] && t[7] != CUE[7] && t[7] != DISCONTINUITY[7] && t[7] != DATE_TIME[7] && t[4] != INF[4];
  }

  lemma {:induction false} FileHead(variant: string)
    requires PlainName(variant)
    ensures KindOf(variant + "/") == IsFile
  {
    var h := variant + "/";
    assert h[0] == variant[0];
    assert forall p: string | p != "" && p[0] == '#' :: !(p <= h);
  }

  // ----- one item -----

  lemma {:induction false} TakeConcat(s: Scan, a: seq<Line>, b: seq<Line>)
    ensures TakeAll(s, a + b) == TakeAll(TakeAll(s, a), b)
    decreases |b|
  {
    hide Take;
    if b == [] {
      assert a + b == a;
    } else {
      var n := |b| - 1;
      assert (a + b)[..|a + b| - 1] == a + b[..n];
      TakeConcat(s, a, b[..n]);
    }
  }

  lemma {:induction false} TakeOne(s: Scan, l: Line)
    ensures TakeAll(s, [l]) == Take(s, l)
  {
    hide Take;
    assert TakeAll(s, [l]) == Take(TakeAll(s, [l][..0]), l);
    assert [l][..0] == [];
  }

  lemma {:induction false} TakeTag(s: Scan, t: Tag)
    requires !t.OtherTag?
    ensures Take(s, TagLine(t)) == s.(tags := s.tags + [t])
  {
    MarkerHeads();
    hide KindOf;
  }

  lemma {:induction false} TakeTags(s: Scan, tags: seq<Tag>)
    requires Marks(tags)
    ensures TakeAll(s, TagLines(tags)) == s.(tags := s.tags + tags)
  {
    hide Take, TagLine;
    if tags == [] {
      assert s.tags + tags == s.tags;
    } else {
      var n := |tags| - 1;
      TakeTags(s, tags[..n]);
      TakeConcat(s, TagLines(tags[..n]), [TagLine(tags[n])]);
      TakeOne(TakeAll(s, TagLines(tags[..n])), TagLine(tags[n]));
      TakeTag(TakeAll(s, TagLines(tags[..n])), tags[n]);
      assert s.tags + tags[..n] + [tags[n]] == s.tags + tags by { assert tags[..n] + [tags[n]] == tags; }
    }
  }

  lemma {:induction false} TakeLead(s: Scan, m: Segment, first: bool)
    requires m.init.Some?
    ensures TakeAll(s, LeadLines(m, first, s.cur)) == s.(disc := s.disc || m.disc, cur := m.init)
    ensures MapAfter(m, first, s.cur) == m.init
  {
    SequenceHeads();
    ItemHeads();
    hide KindOf;
    var d := if m.disc then [Line(DISCONTINUITY, Nothing)] else [];
    var p := if PrintsMap(m, first, s.cur) then [Line(MAP, Name(m.init.value))] else [];
    TakeConcat(s, d, p);
    if m.disc { TakeOne(s, d[0]); }
    if p != [] { TakeOne(TakeAll(s, d), p[0]); }
  }

  lemma {:induction false} TakeMedia(s: Scan, variant: string, m: Segment)
    requires PlainName(variant)
    ensures TakeAll(s, MediaLines(variant, m))
         == TakeFile(s.(time := Some(m.time), duration := m.duration), Line(variant + "/", Name(m.file)))
  {
    ItemHeads();
    FileHead(variant);
    hide KindOf, TakeFile;
    var a, b, c := Line(DATE_TIME, Count(m.time)), Line(INF, Count(m.duration)), Line(variant + "/", Name(m.file));
    assert MediaLines(variant, m) == [a] + ([b] + [c]);
    TakeConcat(s, [a], [b] + [c]);
    TakeOne(s, a);
    var s1 := s.(time := Some(m.time));
    TakeConcat(s1, [b], [c]);
    TakeOne(s1, b);
    TakeOne(s1.(duration := m.duration), c);
  }

  lemma {:induction false} TakeItem(s: Scan, variant: string, m: Segment, first: bool)
    requires PlainName(variant) && m.init.Some? && Marks(m.tags)
    ensures TakeAll(s, ItemLines(variant, m, first, s.cur))
         == TakeFile(s.(disc := s.disc || m.disc, cur := m.init, tags := s.tags + m.tags,
                        time := Some(m.time), duration := m.duration), Line(variant + "/", Name(m.file)))
    ensures MapAfter(m, first, s.cur) == m.init
  {
    hide TakeFile, LeadLines, TagLines, MediaLines, Take;
    var lead, tags, media := LeadLines(m, first, s.cur), TagLines(m.tags), MediaLines(variant, m);
    TakeConcat(s, lead + tags, media);
    TakeConcat(s, lead, tags);
    TakeLead(s, m, first);
    var s1 := s.(disc := s.disc || m.disc, cur := m.init);
    TakeTags(s1, m.tags);
    TakeMedia(s1.(tags := s1.tags + m.tags), variant, m);
  }

  // ----- the whole playlist -----

  /** The scan is between two items, and the next file gets number n. */
  predicate Between(s: Scan, n: int) {
    !s.disc && s.tags == [] && s.base + s.index == n
  }

  function Passed(s: Scan, m: Segment): Scan {
    Scan(s.items + [m], s.discSeq, m.number + 1, Some(m.time), Some(1000 * m.time + m.duration),
         s.base, m.init, 0, None, false, s.index + 1, [])
  }

  lemma {:induction false} TakeLasting(s: Scan, variant: string, m: Segment, first: bool)
    requires PlainName(variant) && m.init.Some? && Marks(m.tags) && m.duration > 0 && Between(s, m.number)
    ensures TakeAll(s, ItemLines(variant, m, first, s.cur)) == Passed(s, m) && MapAfter(m, first, s.cur) == m.init
  {
    hide ItemLines, Take, TakeAll, MapAfter;
    TakeItem(s, variant, m, first);
    assert s.tags + m.tags == m.tags;
  }

  lemma {:induction false} RestIsConsecutive(items: seq<Segment>)
    requires items != [] && Consecutive(items)
    ensures Consecutive(items[1..]) && (|items| > 1 ==> items[1].number == items[0].number + 1)
  {
    forall i | 0 <= i < |items[1..]| ensures items[1..][i].number == items[1..][0].number + i {
      assert items[1..][i] == items[i + 1] && items[1..][0] == items[1];
    }
  }

  /** The scan r went on from s over these items. */
  predicate Holds(s: Scan, r: Scan, items: seq<Segment>) {
    if items == [] then r == s
    else
      var m := items[|items| - 1];
      && r.items == s.items + items && r.discSeq == s.discSeq
      && r.nextNumber == m.number + 1 && r.lastStart == Some(m.time) && r.prevEnd == Some(1000 * m.time + m.duration)
  }

  lemma {:induction false} HoldsMore(s: Scan, m: Segment, r: Scan, items: seq<Segment>)
    requires items != [] && items[0] == m && Holds(Passed(s, m), r, items[1..])
    ensures Holds(s, r, items)
  {
    assert items == [m] + items[1..];
  }

  lemma {:induction false} TakeItems(s: Scan, variant: string, items: seq<Segment>, first: bool)
    requires PlainName(variant) && Tidy(items) && Lasting(items) && Consecutive(items)
    requires items != [] ==> Between(s, items[0].number)
    ensures Holds(s, TakeAll(s, Lines(variant, items, first, s.cur)), items)
    decreases |items|
  {
    if items == [] {
    } else {
      hide TakeAll, ItemLines, Take, MapAfter, Holds;
      var m, rest := items[0], items[1..];
      TakeLasting(s, variant, m, first);
      TakeConcat(s, ItemLines(variant, m, first, s.cur), Lines(variant, rest, false, m.init));
      RestIsConsecutive(items);
      assert Tidy(rest) && Lasting(rest);
      TakeItems(Passed(s, m), variant, rest, false);
      HoldsMore(s, m, TakeAll(Passed(s, m), Lines(variant, rest, false, m.init)), items);
    }
  }

  lemma {:induction false} TakeHeader(items: seq<Segment>, discSeq: int, floor: int)
    requires items != []
    ensures TakeAll(START, HeaderLines(items, discSeq, floor))
         == START.(base := items[0].number, discSeq := discSeq)
  {
    SequenceHeads();
    OtherHeads();
    hide KindOf, Target;
    var h := HeaderLines(items, discSeq, floor);
    assert h == [h[0]] + ([h[1]] + ([h[2]] + ([h[3]] + [h[4]])));
    TakeConcat(START, [h[0]], [h[1]] + ([h[2]] + ([h[3]] + [h[4]])));
    TakeConcat(START, [h[1]], [h[2]] + ([h[3]] + [h[4]]));
    TakeConcat(START, [h[2]], [h[3]] + [h[4]]);
    TakeConcat(START, [h[3]], [h[4]]);
    TakeOne(START, h[0]);
    TakeOne(START, h[1]);
    TakeOne(START, h[2]);
    TakeOne(START, h[3]);
    TakeOne(START.(base := items[0].number), h[4]);
  }

  /** What a stitcher restored from these items knows. */
  function Continued(items: seq<Segment>, discSeq: int, disk: Disk): State
    requires items != []
  {
    var m := items[|items| - 1];
    State(items, discSeq, m.number + 1, Some(m.time), "", 0, Some(1000 * m.time + m.duration), None, 0, [], disk)
  }

  /** Restoring a printed window gives the same window, the next number and the last times, and prints the same. */
  lemma {:induction false} RoundTrip(cfg: Config, items: seq<Segment>, discSeq: int, disk: Disk)
    requires PlainName(cfg.variant) && items != [] && Tidy(items) && Lasting(items) && Consecutive(items)
    ensures var r := Restored(Render(cfg, items, discSeq), disk);
      r == Continued(items, discSeq, disk) && Render(cfg, r.items, r.discSeq) == Render(cfg, items, discSeq)
  {
    hide HeaderLines, Lines, Take;
    var head, body := HeaderLines(items, discSeq, cfg.targetFloor), Lines(cfg.variant, items, true, None);
    TakeConcat(START, head, body);
    TakeHeader(items, discSeq, cfg.targetFloor);
    var s := START.(base := items[0].number, discSeq := discSeq);
    TakeItems(s, cfg.variant, items, true);
  }

  // ----- exactly when nothing is lost -----

  function CountLasting(items: seq<Segment>): (n: nat)
    ensures n <= |items|
    ensures n == |items| ==> Lasting(items)
  {
    if items == [] then 0 else (if items[0].duration > 0 then 1 else 0) + CountLasting(items[1..])
  }

  lemma {:induction false} TakeItemsCount(s: Scan, variant: string, items: seq<Segment>, first: bool)
    requires PlainName(variant) && Tidy(items)
    ensures |TakeAll(s, Lines(variant, items, first, s.cur)).items| == |s.items| + CountLasting(items)
    decreases |items|
  {
    if items != [] {
      var m := items[0];
      TakeItem(s, variant, m, first);
      var r := TakeAll(s, ItemLines(variant, m, first, s.cur));
      TakeConcat(s, ItemLines(variant, m, first, s.cur), Lines(variant, items[1..], false, m.init));
      assert r.cur == m.init;
      assert Tidy(items[1..]);
      hide ItemLines, Take, TakeFile, MapAfter;
      TakeItemsCount(r, variant, items[1..], false);
    }
  }

  /** The restored window is the printed one if and only if no segment is shorter than a millisecond. */
  lemma {:induction false} RestoresIff(cfg: Config, items: seq<Segment>, discSeq: int, disk: Disk)
    requires PlainName(cfg.variant) && items != [] && Tidy(items) && Consecutive(items)
    ensures Restored(Render(cfg, items, discSeq), disk).items == items <==> Lasting(items)
  {
    hide HeaderLines, Lines, Take;
    if Lasting(items) {
      RoundTrip(cfg, items, discSeq, disk);
    } else {
      var head, body := HeaderLines(items, discSeq, cfg.targetFloor), Lines(cfg.variant, items, true, None);
      TakeConcat(START, head, body);
      TakeHeader(items, discSeq, cfg.targetFloor);
      TakeItemsCount(START.(base := items[0].number, discSeq := discSeq), cfg.variant, items, true);
    }
  }

  /** A segment that prints as 0.000 seconds is lost. A run needs a tolerance of at least a second to accept one. */
  lemma {:induction false} EmptySegmentIsLost(cfg: Config, m: Segment, discSeq: int, disk: Disk)
    requires PlainName(cfg.variant) && m == Segment(7, 0, 100, false, [], SegmentFile(7), Some(InitFile([])))
    ensures Restored(Render(cfg, [m], discSeq), disk).items != [m]
  {
    assert m in [m] && m.duration <= 0;
    hide Restored, Render;
    RestoresIff(cfg, [m], discSeq, disk);
  }

  // ----- what is printed of each segment -----

  /** The init section that the segments so far were decoded with. */
  function InitBefore(items: seq<Segment>): Option<FileName> {
    if items == [] then None
    else if items[|items| - 1].init.Some? then items[|items| - 1].init
    else InitBefore(items[..|items| - 1])
  }

  /** A player needs to be told the init section: at the start, behind a discontinuity, and where it changes. */
  predicate NeedsMap(items: seq<Segment>, i: nat)
    requires i < |items|
  {
    items[i].init.Some? && (i == 0 || items[i].disc || items[i].init != InitBefore(items[..i]))
  }

  /** The lines of one segment, in their order. */
  function SegmentLines(variant: string, items: seq<Segment>, i: nat): seq<Line>
    requires i < |items|
  {
    var m := items[i];
    (if m.disc then [Line(DISCONTINUITY, Nothing)] else [])
    + (if NeedsMap(items, i) then [Line(MAP, Name(m.init.value))] else [])
    + TagLines(m.tags)
    + [Line(DATE_TIME, Count(m.time)), Line(INF, Count(m.duration)), Line(variant + "/", Name(m.file))]
  }

  function SegmentsLines(variant: string, items: seq<Segment>, i: nat): seq<Line>
    requires i <= |items|
    decreases |items| - i
  {
    if i == |items| then [] else SegmentLines(variant, items, i) + SegmentsLines(variant, items, i + 1)
  }

  lemma {:induction false} MapIsNeeded(items: seq<Segment>, i: nat)
    requires i < |items|
    ensures PrintsMap(items[i], i == 0, InitBefore(items[..i])) <==> NeedsMap(items, i)
    ensures MapAfter(items[i], i == 0, InitBefore(items[..i])) == InitBefore(items[..i + 1])
  {
    assert items[..i + 1][..i] == items[..i];
  }

  lemma {:induction false} LinesFrom(variant: string, items: seq<Segment>, i: nat)
    requires i <= |items|
    ensures Lines(variant, items[i..], i == 0, InitBefore(items[..i])) == SegmentsLines(variant, items, i)
    decreases |items| - i
  {
    if i < |items| {
      MapIsNeeded(items, i);
      LinesFrom(variant, items, i + 1);
      assert items[i..][0] == items[i] && items[i..][1..] == items[i + 1..];
      hide InitBefore, PrintsMap, MapAfter, NeedsMap, TagLines;
    }
  }

  /** The printed playlist, segment by segment: the init section is printed exactly where a player needs it. */
  lemma {:induction false} SegmentsArePrinted(cfg: Config, items: seq<Segment>, discSeq: int)
    requires items != []
    ensures Render(cfg, items, discSeq)
         == [Line("#EXTM3U", Nothing), Line("#EXT-X-VERSION:7", Nothing),
             Line("#EXT-X-TARGETDURATION:", Count(Target(items, cfg.targetFloor))),
             Line("#EXT-X-MEDIA-SEQUENCE:", Count(items[0].number)),
             Line("#EXT-X-DISCONTINUITY-SEQUENCE:", Count(discSeq))] + SegmentsLines(cfg.variant, items, 0)
  {
    hide Lines, SegmentsLines, Target;
    LinesFrom(cfg.variant, items, 0);
    assert items[0..] == items && items[..0] == [];
  }
}
