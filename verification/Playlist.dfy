/**
 The printed live playlist and its restoration after a restart.

 A line is the text it starts with and a value behind it; how numbers, dates and names are
 spelled is left out. The restoration tests the starts of a line in the program's order,
 which matters: "#EXT-X-DISCONTINUITY" is also the start of the discontinuity sequence.
 */
module Playlist {
  import opened Common
  import opened Stitcher

  datatype Value = Nothing | Count(n: int) | Name(file: FileName) | Marker(tag: Tag)

  datatype Line = Line(head: string, value: Value)

  const MEDIA_SEQUENCE := "#EXT-X-MEDIA-SEQUENCE:"
  const DISCONTINUITY_SEQUENCE := "#EXT-X-DISCONTINUITY-SEQUENCE:"
  const MAP := "#EXT-X-MAP:"
  const DATERANGE := "#EXT-X-DATERANGE:"
  const CUE := "#EXT-X-CUE-"
  const DISCONTINUITY := "#EXT-X-DISCONTINUITY"
  const DATE_TIME := "#EXT-X-PROGRAM-DATE-TIME:"
  const INF := "#EXTINF:"

  // ----- printing -----

  function Longest(items: seq<Segment>): (d: int)
    ensures d >= 0
    ensures forall m <- items :: m.duration <= d
    ensures d == 0 || exists m <- items :: m.duration == d
  {
    if items == [] then 0
    else
      var d, last := Longest(items[..|items| - 1]), items[|items| - 1];
      assert items == items[..|items| - 1] + [last];
      if last.duration > d then last.duration else d
  }

  /** No segment is longer than t seconds. */
  predicate Fits(items: seq<Segment>, t: int) { forall m <- items :: m.duration <= 1000 * t }

  /** The target duration in whole seconds: the least one from the floor on that the segments fit. */
  function Target(items: seq<Segment>, floor: int): (td: int)
    ensures td >= floor && td >= 0 && Fits(items, td)
    ensures forall t {:trigger Fits(items, t)} :: 0 <= t && floor <= t && Fits(items, t) ==> td <= t
  {
    var ceil := (Longest(items) + 999) / 1000;
    if ceil < floor then floor else ceil
  }

  function TagLine(tag: Tag): Line {
    match tag
    case DateRangeOut(_, _, _, _) => Line(DATERANGE, Marker(tag))
    case DateRangeIn(_, _, _, _) => Line(DATERANGE, Marker(tag))
    case CueOut(_) => Line(CUE, Marker(tag))
    case CueIn => Line(CUE, Marker(tag))
    case OtherTag(text) => Line(text, Nothing)
  }

  function TagLines(tags: seq<Tag>): seq<Line> {
    if tags == [] then [] else TagLines(tags[..|tags| - 1]) + [TagLine(tags[|tags| - 1])]
  }

  predicate PrintsMap(m: Segment, first: bool, cur: Option<FileName>) {
    m.init.Some? && (m.init != cur || m.disc || first)
  }

  function LeadLines(m: Segment, first: bool, cur: Option<FileName>): seq<Line> {
    (if m.disc then [Line(DISCONTINUITY, Nothing)] else [])
    + if PrintsMap(m, first, cur) then [Line(MAP, Name(m.init.value))] else []
  }

  function MediaLines(variant: string, m: Segment): seq<Line> {
    [Line(DATE_TIME, Count(m.time)), Line(INF, Count(m.duration)), Line(variant + "/", Name(m.file))]
  }

  function ItemLines(variant: string, m: Segment, first: bool, cur: Option<FileName>): seq<Line> {
    LeadLines(m, first, cur) + TagLines(m.tags) + MediaLines(variant, m)
  }

  function MapAfter(m: Segment, first: bool, cur: Option<FileName>): Option<FileName> {
    if PrintsMap(m, first, cur) then m.init else cur
  }

  function Lines(variant: string, items: seq<Segment>, first: bool, cur: Option<FileName>): seq<Line> {
    if items == [] then []
    else ItemLines(variant, items[0], first, cur)
         + Lines(variant, items[1..], false, MapAfter(items[0], first, cur))
  }

  function HeaderLines(items: seq<Segment>, discSeq: int, floor: int): seq<Line>
    requires items != []
  {
    [Line("#EXTM3U", Nothing), Line("#EXT-X-VERSION:7", Nothing),
     Line("#EXT-X-TARGETDURATION:", Count(Target(items, floor))),
     Line(MEDIA_SEQUENCE, Count(items[0].number)),
     Line(DISCONTINUITY_SEQUENCE, Count(discSeq))]
  }

  /** The program cannot print an empty window. */
  function Render(cfg: Config, items: seq<Segment>, discSeq: int): seq<Line>
    requires items != []
  {
    HeaderLines(items, discSeq, cfg.targetFloor) + Lines(cfg.variant, items, true, None)
  }

  method RenderPlaylist(cfg: Config, items: seq<Segment>, discSeq: int) returns (lines: seq<Line>)
    requires items != []
    ensures lines == Render(cfg, items, discSeq)
  {
    hide ItemLines, Target, PrintsMap;
    ghost var head := HeaderLines(items, discSeq, cfg.targetFloor);
    lines := [Line("#EXTM3U", Nothing), Line("#EXT-X-VERSION:7", Nothing),
              Line("#EXT-X-TARGETDURATION:", Count(Target(items, cfg.targetFloor))),
              Line(MEDIA_SEQUENCE, Count(items[0].number)),
              Line(DISCONTINUITY_SEQUENCE, Count(discSeq))];
    var cur := None;
    var i := 0;
    while i < |items|
      invariant i <= |items|
      invariant lines + Lines(cfg.variant, items[i..], i == 0, cur)
                == head + Lines(cfg.variant, items, true, None)
    {
      ghost var done := lines;
      lines := AddItem(lines, cfg.variant, items[i], i == 0, cur);
      assert items[i..][0] == items[i] && items[i..][1..] == items[i + 1..];
      assert done + (ItemLines(cfg.variant, items[i], i == 0, cur)
                     + Lines(cfg.variant, items[i + 1..], false, MapAfter(items[i], i == 0, cur)))
          == lines + Lines(cfg.variant, items[i + 1..], false, MapAfter(items[i], i == 0, cur));
      if PrintsMap(items[i], i == 0, cur) { cur := items[i].init; }
      i := i + 1;
    }
  }

  method AddItem(before: seq<Line>, variant: string, m: Segment, first: bool, cur: Option<FileName>)
    returns (lines: seq<Line>)
    ensures lines == before + ItemLines(variant, m, first, cur)
  {
    hide TagLine, LeadLines, MediaLines;
    lines := before + LeadLines(m, first, cur);
    ghost var head := lines;
    var i := 0;
    while i < |m.tags|
      invariant i <= |m.tags|
      invariant lines == head + TagLines(m.tags[..i])
    {
      assert m.tags[..i + 1][..i] == m.tags[..i];
      lines := lines + [TagLine(m.tags[i])];
      i := i + 1;
    }
    assert m.tags[..i] == m.tags;
    lines := lines + MediaLines(variant, m);
  }

  // ----- restoring -----

  datatype Kind = IsSequence | IsDiscSequence | IsMap | IsMarker | IsDisc | IsTime | IsInf | IsFile | IsOther

  /** What a line is, by the starts it is tested for, in this order. */
  function KindOf(head: string): Kind {
    if MEDIA_SEQUENCE <= head then IsSequence
    else if DISCONTINUITY_SEQUENCE <= head then IsDiscSequence
    else if MAP <= head then IsMap
    else if DATERANGE <= head || CUE <= head then IsMarker
    else if DISCONTINUITY <= head then IsDisc
    else if DATE_TIME <= head then IsTime
    else if INF <= head then IsInf
    else if head != "" && !("#" <= head) then IsFile
    else IsOther
  }

  // a value that cannot be read is zero
  function CountOf(v: Value): int { if v.Count? then v.n else 0 }

  function TimeOf(v: Value): Option<int> { if v.Count? then Some(v.n) else None }

  function InitOf(v: Value): Option<FileName> { if v.Name? then Some(v.file) else None }

  function FileOf(l: Line): FileName { if l.value.Name? then l.value.file else OtherFile(l.head) }

  function TagOf(l: Line): Tag { if l.value.Marker? then l.value.tag else OtherTag(l.head) }

  /** The running variables of the scan. */
  datatype Scan = Scan(
    items: seq<Segment>, discSeq: int, nextNumber: int, lastStart: Option<int>, prevEnd: Option<int>,
    base: int, cur: Option<FileName>, duration: int, time: Option<int>, disc: bool, index: int, tags: seq<Tag>)

  const START := Scan([], 0, 0, None, None, 0, None, 0, None, false, 0, [])

  function TakeFile(s: Scan, l: Line): Scan {
    if s.time.None? || s.duration <= 0 then s
    else
      var t := s.time.value;
      var m := Segment(s.base + s.index, s.duration, t, s.disc, s.tags, FileOf(l), s.cur);
      Scan(s.items + [m], s.discSeq, s.base + s.index + 1, Some(t), Some(1000 * t + s.duration),
           s.base, s.cur, 0, None, false, s.index + 1, [])
  }

  function Take(s: Scan, l: Line): Scan {
    match KindOf(l.head)
    case IsSequence => s.(base := CountOf(l.value))
    case IsDiscSequence => s.(discSeq := CountOf(l.value))
    case IsMap => s.(cur := InitOf(l.value))
    case IsMarker => s.(tags := s.tags + [TagOf(l)])
    case IsDisc => s.(disc := true)
    case IsTime => s.(time := TimeOf(l.value))
    case IsInf => s.(duration := CountOf(l.value))
    case IsFile => TakeFile(s, l)
    case IsOther => s
  }

  function TakeAll(s: Scan, lines: seq<Line>): Scan {
    if lines == [] then s else Take(TakeAll(s, lines[..|lines| - 1]), lines[|lines| - 1])
  }

  /** The stitcher that continues a printed playlist: everything that is not printed is unknown. */
  function Restored(lines: seq<Line>, disk: Disk): State {
    var s := TakeAll(START, lines);
    State(s.items, s.discSeq, s.nextNumber, s.lastStart, "", 0, s.prevEnd, None, 0, [], disk)
  }

  method RestoreWindow(lines: seq<Line>, disk: Disk) returns (r: State)
    ensures r == Restored(lines, disk)
  {
    hide KindOf, CountOf, TimeOf, InitOf, FileOf, TagOf;
    var items, discSeq, nextNumber, lastStart, prevEnd := [], 0, 0, None, None;
    var base, cur, duration, time, disc, index, tags := 0, None, 0, None, false, 0, [];
    var i := 0;
    while i < |lines|
      invariant i <= |lines|
      invariant TakeAll(START, lines[..i])
                == Scan(items, discSeq, nextNumber, lastStart, prevEnd, base, cur, duration, time, disc, index, tags)
    {
      var l := lines[i];
      assert lines[..i + 1][..i] == lines[..i];
      i := i + 1;
      match KindOf(l.head) {
        case IsSequence => base := CountOf(l.value);
        case IsDiscSequence => discSeq := CountOf(l.value);
        case IsMap => cur := InitOf(l.value);
        case IsMarker => tags := tags + [TagOf(l)];
        case IsDisc => disc := true;
        case IsTime => time := TimeOf(l.value);
        case IsInf => duration := CountOf(l.value);
        case IsFile =>
          if time.None? || duration <= 0 { continue; }
          items := items + [Segment(base + index, duration, time.value, disc, tags, FileOf(l), cur)];
          tags := [];
          index := index + 1;
          lastStart, prevEnd := time, Some(1000 * time.value + duration);
          nextNumber := base + index;
          disc, time, duration := false, None, 0;
        case IsOther =>
      }
    }
    assert lines[..i] == lines;
    r := State(items, discSeq, nextNumber, lastStart, "", 0, prevEnd, None, 0, [], disk);
  }
}
