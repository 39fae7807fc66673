/**
 The stitcher: it finds the source segment of a clip, moves it onto the clock of the
 stream, writes it, and keeps the sliding live window with its sequence numbers,
 discontinuities, ad markers and files.

 Times are whole seconds since 1970, durations are milliseconds, and the program's zero
 time is None. A clip lasts one second (the length of a segment is fixed) unless it says
 otherwise.
 */
module Stitcher {
  import opened Common
  import opened Bytes
  import Fmp4
  import Scte35
  import SpliceText

  /** Where the media timeline of the stream starts: 2020-01-01T00:00:00Z. */
  const TIMELINE_EPOCH := 1577836800

  /** How far from its place in time a segment may start without being a discontinuity, in milliseconds. */
  const MAX_DRIFT := 500

  datatype Mode = Off | DateRange | Cue | Both

  datatype Config = Config(
    maxSize: nat, retain: int, mode: Mode, tolerance: int, slateUri: string, variant: string, targetFloor: int)

  /** A file of the output directory. The name of an init section is a digest of its bytes: here, the bytes. */
  datatype FileName = SegmentFile(number: int) | InitFile(bytes: seq<byte>) | OtherFile(text: string)

  datatype Tag =
    | DateRangeOut(id: bv32, start: int, planned: int, payload: string)
    | DateRangeIn(id: bv32, start: int, duration: int, payload: string)
    | CueOut(seconds: int)
    | CueIn
    | OtherTag(text: string)

  /** An entry of the live playlist: what is printed of it. */
  datatype Segment = Segment(
    number: int, duration: int, time: int, disc: bool, tags: seq<Tag>, file: FileName, init: Option<FileName>)

  /** A second of the plan. */
  datatype Clip = Clip(
    number: nat, start: int, seconds: int, kind: string, uri: string, offset: int, disc: bool,
    breakStart: Option<int>, breakSeconds: int, scte35: string)

  // ----- clip to segment -----

  datatype Init = Init(bytes: seq<byte>, tracks: Fmp4.Tracks)

  /** What the network answers for one source: a playlist that has segments, and the files that could be read. */
  datatype Source = Source(durations: seq<int>, init: Option<Init>, media: map<int, seq<byte>>)

  type World = w: map<string, Source> | forall uri <- w :: |w[uri].durations| > 0

  /** A source segment on the timeline of the stream, and the bytes it was made from. */
  datatype Retimed = Retimed(src: string, index: int, duration: int, init: Init, raw: seq<byte>, media: seq<byte>)

  function Distance(a: int, b: int): nat { if a < b then b - a else a - b }

  /** The index a clip points to: an offset in a loop wraps around. */
  function SegmentIndex(source: Source, offset: int, loop: bool): (i: int)
    requires |source.durations| > 0
    ensures loop ==> 0 <= i < |source.durations|
  {
    if loop then offset % |source.durations| else offset
  }

  function Prepare(cfg: Config, world: World, uri: string, offset: int, loop: bool, start: int): Option<Retimed> {
    if uri !in world then None else
      var source := world[uri];
      var i := SegmentIndex(source, offset, loop);
      if i < 0 || i >= |source.durations| || Distance(source.durations[i], 1000) > cfg.tolerance then None
      else if source.init.None? || i !in source.media then None
      else match Fmp4.Retime(source.media[i], source.init.value.tracks, start - TIMELINE_EPOCH, i)
           case Err(_) => None
           case Ok(media) => Some(Retimed(uri, i, source.durations[i], source.init.value, source.media[i], media))
  }

  /** The segment of a clip, or the slate of its second when the clip cannot be prepared. */
  function Resolve(cfg: Config, world: World, c: Clip): Option<Retimed> {
    var r := Prepare(cfg, world, c.uri, c.offset, c.kind == "slate", c.start);
    if r.Some? || c.kind == "slate" || cfg.slateUri == "" || c.uri == cfg.slateUri then r
    else Prepare(cfg, world, cfg.slateUri, c.start, true, c.start)
  }

  // ----- ad break markers -----

  function EventId(start: int): bv32 { (start % 0x1_0000_0000) as bv32 }

  /** A length as the encoder gets it: an unsigned 64-bit number. */
  function Seconds(n: int): bv64 { (n % 0x1_0000_0000_0000_0000) as bv64 }

  function HexOr(r: Result<seq<bv8>, Scte35.Error>): string {
    if r.Ok? then SpliceText.Hex(r.value) else ""
  }

  /** A valid message from the schedule is used as it is; otherwise the stitcher writes one. */
  function OutPayload(start: int, seconds: int, given: string): string {
    var raw := SpliceText.Parse(given);
    if given != "" && raw.Ok? && Scte35.Decode(raw.value).Ok? then SpliceText.Hex(raw.value)
    else HexOr(Scte35.Out(EventId(start), Seconds(seconds)))
  }

  function StartMarkers(mode: Mode, start: int, seconds: int, given: string): seq<Tag> {
    (if mode.DateRange? || mode.Both?
     then [DateRangeOut(EventId(start), start, seconds, OutPayload(start, seconds, given))] else [])
    + if mode.Cue? || mode.Both? then [CueOut(seconds)] else []
  }

  function EndMarkers(mode: Mode, start: int, seconds: int): seq<Tag> {
    (if mode.DateRange? || mode.Both?
     then [DateRangeIn(EventId(start), start, seconds, HexOr(Scte35.In(EventId(start))))] else [])
    + if mode.Cue? || mode.Both? then [CueIn] else []
  }

  /** The end of the break that was on the air, and the start of one whose first second this is. */
  function BreakTags(mode: Mode, prev: Option<int>, prevSeconds: int, c: Clip): seq<Tag> {
    (if prev.Some? && prev != c.breakStart then EndMarkers(mode, prev.value, prevSeconds) else [])
    + if c.breakStart == Some(c.start) then StartMarkers(mode, c.start, c.breakSeconds, c.scte35) else []
  }

  // ----- the live window -----

  /** How many segments leave a list so that size of them stay. */
  function Leaving(n: nat, size: nat): (k: nat)
    ensures k <= n && n - k <= size && (k == 0 || n - k == size)
  {
    if n > size then n - size else 0
  }

  function Discs(items: seq<Segment>): nat {
    if items == [] then 0 else Discs(items[..|items| - 1]) + if items[|items| - 1].disc then 1 else 0
  }

  // ----- files -----

  /** Files of segments that left the window, and the stream time when they left. */
  datatype Batch = Batch(names: set<FileName>, at: int)

  function NamesOf(m: Segment): set<FileName> { {m.file} + if m.init.Some? then {m.init.value} else {} }

  function Names(items: seq<Segment>): set<FileName> {
    if items == [] then {} else Names(items[..|items| - 1]) + NamesOf(items[|items| - 1])
  }

  function BatchNames(bs: seq<Batch>): set<FileName> {
    if bs == [] then {} else BatchNames(bs[..|bs| - 1]) + bs[|bs| - 1].names
  }

  type Disk = map<FileName, seq<byte>>

  /** The files that go with the oldest batch: those of the window and of later batches are in use. */
  function Deletable(items: seq<Segment>, later: seq<Batch>, r: Batch): set<FileName> {
    r.names - Names(items) - BatchNames(later)
  }

  function Retire(retired: seq<Batch>, removed: seq<Segment>, now: int): seq<Batch> {
    if removed == [] then retired else retired + [Batch(Names(removed), now)]
  }

  /** Batches that have been retired long enough go, oldest first. */
  function Expire(items: seq<Segment>, retired: seq<Batch>, disk: Disk, now: int, keep: int): (seq<Batch>, Disk)
    decreases |retired|
  {
    if retired == [] || now - retired[0].at < keep then (retired, disk)
    else Expire(items, retired[1..], disk - Deletable(items, retired[1..], retired[0]), now, keep)
  }

  // ----- one clip -----

  datatype State = State(
    items: seq<Segment>, discSeq: int, nextNumber: int, lastStart: Option<int>,
    prevSrc: string, prevIndex: int, prevEnd: Option<int>,
    prevAvail: Option<int>, prevAvailSeconds: int,
    retired: seq<Batch>, disk: Disk)

  function Fresh(disk: Disk): State { State([], 0, 0, None, "", 0, None, None, 0, [], disk) }

  /** What happens when the files of a segment are written. */
  datatype Write = Written | NoDirectory | NoInit | NoSegment

  /** A segment that was added: its clip, where its bytes come from and its entry in the window. */
  datatype Airing = Airing(clip: Clip, retimed: Retimed, segment: Segment)

  /** Whether a segment at this place of its source, in this second, does not continue the previous one. */
  predicate Discontinuous(s: State, c: Clip, rt: Retimed) {
    || (if s.items == [] then false
        else c.disc || s.prevSrc == "" || rt.src != s.prevSrc || rt.index != s.prevIndex + 1)
    || (s.prevEnd.Some? && Distance(1000 * c.start, s.prevEnd.value) > MAX_DRIFT)
  }

  function Number(s: State, c: Clip): int { if s.nextNumber == 0 then c.number else s.nextNumber }

  function Entry(mode: Mode, s: State, c: Clip, rt: Retimed): Segment {
    Segment(Number(s, c), rt.duration, c.start, Discontinuous(s, c, rt),
            BreakTags(mode, s.prevAvail, s.prevAvailSeconds, c),
            SegmentFile(Number(s, c)), Some(InitFile(rt.init.bytes)))
  }

  function WithInit(disk: Disk, rt: Retimed): Disk {
    if InitFile(rt.init.bytes) in disk then disk else disk[InitFile(rt.init.bytes) := rt.init.bytes]
  }

  /** The window slides over its new segment, and files that left it long enough ago go. */
  function Slid(cfg: Config, s: State, c: Clip, rt: Retimed, m: Segment): State {
    var all := s.items + [m];
    var k := Leaving(|all|, cfg.maxSize);
    var left := Expire(all[k..], Retire(s.retired, all[..k], c.start), s.disk, c.start, cfg.retain);
    State(all[k..], s.discSeq + Discs(all[..k]), m.number + 1, Some(c.start),
          rt.src, rt.index, Some(1000 * (c.start + c.seconds)), c.breakStart, c.breakSeconds, left.0, left.1)
  }

  function Appended(cfg: Config, s: State, c: Clip, rt: Retimed): State {
    var m := Entry(cfg.mode, s, c, rt);
    Slid(cfg, s.(disk := WithInit(s.disk, rt)[m.file := rt.media]), c, rt, m)
  }

  /** An init section that is there is not written again. */
  predicate Writes(disk: Disk, rt: Retimed, w: Write) {
    w.Written? || (w.NoInit? && InitFile(rt.init.bytes) in disk)
  }

  lemma {:induction false} WriteMayFail(disk: Disk, rt: Retimed, w: Write)
    ensures w.NoSegment? ==> !Writes(disk, rt, w)
  {
  }

  lemma {:induction false} EntryIsAt(mode: Mode, s: State, c: Clip, rt: Retimed)
    ensures Entry(mode, s, c, rt).number == Number(s, c) && Entry(mode, s, c, rt).file == SegmentFile(Number(s, c))
  {
  }

  predicate Duplicate(s: State, c: Clip) { s.lastStart.Some? && c.start <= s.lastStart.value }

  /** What becomes of a clip: None when it is a duplicate, cannot be resolved or cannot be written. */
  function Outcome(cfg: Config, s: State, c: Clip, world: World, w: Write): Option<Airing> {
    if Duplicate(s, c) then None
    else match Resolve(cfg, world, c)
         case None => None
         case Some(rt) =>
           if Writes(s.disk, rt, w) then Some(Airing(c, rt, Entry(cfg.mode, s, c, rt))) else None
  }

  /** The stitcher after a clip was tried: a failed write may leave the init section behind. */
  function After(cfg: Config, s: State, c: Clip, world: World, w: Write): State {
    match Outcome(cfg, s, c, world, w)
    case Some(a) => Appended(cfg, s, c, a.retimed)
    case None =>
      if Duplicate(s, c) || !w.NoSegment? then s
      else match Resolve(cfg, world, c)
           case None => s
           case Some(rt) => s.(disk := WithInit(s.disk, rt))
  }

  // ----- the object -----

  class Window {
    const cfg: Config
    var items: seq<Segment>
    var discSeq: int
    var nextNumber: int
    var lastStart: Option<int>
    var prevSrc: string
    var prevIndex: int
    var prevEnd: Option<int>
    var prevAvail: Option<int>
    var prevAvailSeconds: int
    var retired: seq<Batch>
    var disk: Disk

    ghost function Value(): State
      reads this
    {
      State(items, discSeq, nextNumber, lastStart, prevSrc, prevIndex, prevEnd, prevAvail, prevAvailSeconds,
            retired, disk)
    }

    constructor (cfg: Config, disk: Disk)
      ensures this.cfg == cfg && Value() == Fresh(disk)
    {
      this.cfg := cfg;
      items, discSeq, nextNumber, lastStart := [], 0, 0, None;
      prevSrc, prevIndex, prevEnd := "", 0, None;
      prevAvail, prevAvailSeconds, retired := None, 0, [];
      this.disk := disk;
    }

    method Append(m: Segment) returns (removed: seq<Segment>)
      modifies `items, `discSeq
      ensures removed == (old(items) + [m])[..Leaving(|old(items)| + 1, cfg.maxSize)]
      ensures items == (old(items) + [m])[Leaving(|old(items)| + 1, cfg.maxSize)..]
      ensures discSeq == old(discSeq) + Discs(removed)
    {
      ghost var all := items + [m];
      items := items + [m];
      removed := [];
      while |items| > cfg.maxSize
        invariant |removed| <= Leaving(|all|, cfg.maxSize)
        invariant removed == all[..|removed|] && items == all[|removed|..]
        invariant discSeq == old(discSeq) + Discs(removed)
        decreases |items|
      {
        if items[0].disc { discSeq := discSeq + 1; }
        assert (removed + [items[0]])[..|removed|] == removed;
        removed := removed + [items[0]];
        items := items[1..];
      }
    }

    method DeleteRetired(r: Batch)
      requires |retired| > 0
      modifies `disk
      ensures disk == old(disk) - Deletable(items, retired[1..], r)
    {
      var inUse: set<FileName> := {};
      var i := 0;
      while i < |items|
        invariant i <= |items|
        invariant inUse == Names(items[..i])
      {
        assert items[..i + 1][..i] == items[..i];
        inUse, i := inUse + NamesOf(items[i]), i + 1;
      }
      assert items[..i] == items;
      var later := retired[1..];
      i := 0;
      while i < |later|
        invariant i <= |later|
        invariant inUse == Names(items) + BatchNames(later[..i])
      {
        assert later[..i + 1][..i] == later[..i];
        inUse, i := inUse + later[i].names, i + 1;
      }
      assert later[..i] == later;
      assert r.names - inUse == Deletable(items, later, r);
      disk := disk - (r.names - inUse);
    }

    method Cleanup(removed: seq<Segment>, now: int)
      modifies `retired, `disk
      ensures (retired, disk) == Expire(items, Retire(old(retired), removed, now), old(disk), now, cfg.retain)
    {
      if |removed| > 0 {
        var names: set<FileName> := {};
        var i := 0;
        while i < |removed|
          invariant i <= |removed|
          invariant names == Names(removed[..i])
        {
          assert removed[..i + 1][..i] == removed[..i];
          names, i := names + NamesOf(removed[i]), i + 1;
        }
        assert removed[..i] == removed;
        retired := retired + [Batch(names, now)];
      }
      ghost var due := Expire(items, retired, disk, now, cfg.retain);
      while |retired| > 0 && now - retired[0].at >= cfg.retain
        invariant due == Expire(items, retired, disk, now, cfg.retain)
        decreases |retired|
      {
        DeleteRetired(retired[0]);
        retired := retired[1..];
      }
    }

    method WriteFiles(number: int, rt: Retimed, w: Write) returns (ok: bool)
      modifies `disk
      ensures ok <==> Writes(old(disk), rt, w)
      ensures disk == if ok then WithInit(old(disk), rt)[SegmentFile(number) := rt.media]
                      else if w.NoSegment? then WithInit(old(disk), rt) else old(disk)
    {
      if w.NoDirectory? { return false; }
      var init := InitFile(rt.init.bytes);
      if init !in disk {
        if w.NoInit? { return false; }
        disk := disk[init := rt.init.bytes];
      }
      if w.NoSegment? { return false; }
      disk := disk[SegmentFile(number) := rt.media];
      return true;
    }

    /** The entry of a segment, as the state before it decides. */
    method Place(c: Clip, rt: Retimed) returns (m: Segment)
      ensures m == Entry(cfg.mode, Value(), c, rt)
    {
      hide BreakTags, Distance;
      var tags := BreakTags(cfg.mode, prevAvail, prevAvailSeconds, c);
      var disc := c.disc;
      if items == [] {
        disc := false;
      } else if prevSrc == "" {
        disc := true;
      } else if rt.src != prevSrc || rt.index != prevIndex + 1 {
        disc := true;
      }
      if prevEnd.Some? && Distance(1000 * c.start, prevEnd.value) > MAX_DRIFT { disc := true; }
      var number := nextNumber;
      if number == 0 { number := c.number; }
      m := Segment(number, rt.duration, c.start, disc, tags, SegmentFile(number), Some(InitFile(rt.init.bytes)));
    }

    method Commit(c: Clip, rt: Retimed, m: Segment)
      modifies this
      ensures Value() == Slid(cfg, old(Value()), c, rt, m)
    {
      hide Expire, Discs, Retire, Leaving;
      var removed := Append(m);
      Cleanup(removed, c.start);
      nextNumber, lastStart := m.number + 1, Some(c.start);
      prevAvail, prevAvailSeconds := c.breakStart, c.breakSeconds;
      prevSrc, prevIndex := rt.src, rt.index;
      prevEnd := Some(1000 * (c.start + c.seconds));
    }

    method Add(c: Clip, world: World, w: Write) returns (ok: bool)
      modifies this
      ensures Value() == After(cfg, old(Value()), c, world, w)
      ensures ok <==> Outcome(cfg, old(Value()), c, world, w).Some?
    {
      hide Resolve, Slid, Entry, Writes, WithInit;
      if lastStart.Some? && c.start <= lastStart.value { return false; }
      var resolved := Resolve(cfg, world, c);
      if resolved.None? { return false; }
      var rt := resolved.value;
      var m := Place(c, rt);
      EntryIsAt(cfg.mode, Value(), c, rt);
      ok := WriteFiles(m.number, rt, w);
      WriteMayFail(old(disk), rt, w);
      if !ok { return; }
      Commit(c, rt, m);
    }
  }
}
