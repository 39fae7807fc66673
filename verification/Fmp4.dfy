/**
 Fragmented MP4 segments: the walk over their boxes, the decode times and durations of
 their track fragments, and the move of a segment onto the timeline of the stream, which
 rewrites the decode times in a copy of the bytes. The layouts are those of ISO/IEC
 14496-12: boxes in section 4.2, tfhd in 8.8.7, trun in 8.8.8, tfdt in 8.8.12.
 */
module Fmp4 {
  import opened Common
  import opened Bytes

  type uint32 = n: nat | n < 0x1_0000_0000

  datatype Track = Track(id: uint32, timescale: uint32, defaultSampleDuration: uint32)

  type Tracks = map<nat, Track>

  datatype Box = Box(typ: seq<byte>, start: nat, hdr: nat, size: nat)

  function Body(x: Box): nat { x.start + x.hdr }

  function End(x: Box): nat { x.start + x.size }

  const MOOF: seq<byte> := [109, 111, 111, 102]
  const TRAF: seq<byte> := [116, 114, 97, 102]
  const TFHD: seq<byte> := [116, 102, 104, 100]
  const TFDT: seq<byte> := [116, 102, 100, 116]
  const TRUN: seq<byte> := [116, 114, 117, 110]
  const MDAT: seq<byte> := [109, 100, 97, 116]

  datatype Error =
    | TruncatedHeader | BoxTooLarge | BadSize | ShortBox | NoTfhd | UnknownTrack | NoTfdt | ShortTfdt
    | NoDuration | ShortTrun | NoFragments | TfdtVersion | OffGrid | BeforeStart

  // ----- boxes -----

  /** The box whose header is at p, inside a parent that ends at end. */
  function HeaderAt(b: seq<byte>, p: nat, end: nat): (r: Result<Box, Error>)
    requires p < end <= |b|
    ensures r.Ok? ==> r.value.start == p && 8 <= r.value.hdr <= r.value.size && End(r.value) <= end
  {
    if end - p < 8 then Err(TruncatedHeader) else
      var size, typ := U32(b, p), b[p + 4..p + 8];
      if size == 1 && end - p < 16 then Err(TruncatedHeader)
      else if size == 1 && U64(b, p + 8) > 0x7FFF_FFFF then Err(BoxTooLarge)
      else
        var hdr := if size == 1 then 16 else 8;
        var whole := if size == 1 then U64(b, p + 8) else if size == 0 then end - p else size;
        if whole < hdr || end < p + whole then Err(BadSize) else Ok(Box(typ, p, hdr, whole))
  }

  /** The boxes inside b[p..end]. */
  function Children(b: seq<byte>, p: nat, end: nat): (r: Result<seq<Box>, Error>)
    requires p <= end <= |b|
    ensures r.Ok? ==> forall x :: x in r.value ==> p <= x.start && 8 <= x.hdr <= x.size && End(x) <= end
    decreases end - p
  {
    if p == end then Ok([]) else
      match HeaderAt(b, p, end)
      case Err(e) => Err(e)
      case Ok(x) => Behind([x], Children(b, End(x), end))
  }

  method ParseChildren(b: seq<byte>, start: nat, end: nat) returns (r: Result<seq<Box>, Error>)
    requires start <= end <= |b|
    ensures r == Children(b, start, end)
  {
    var out: seq<Box> := [];
    var p := start;
    assert Behind(out, Children(b, p, end)) == Children(b, p, end) by {
      if Children(b, p, end).Ok? {
        assert out + Children(b, p, end).value == Children(b, p, end).value;
      }
    }
    while p < end
      invariant start <= p <= end
      invariant Children(b, start, end) == Behind(out, Children(b, p, end))
      decreases end - p
    {
      var h := HeaderAt(b, p, end);
      if h.Err? {
        return Err(h.error);
      }
      BehindStep(out, h.value, Children(b, End(h.value), end));
      out := out + [h.value];
      p := End(h.value);
    }
    assert out + [] == out;
    return Ok(out);
  }

  function Behind<T>(out: seq<T>, r: Result<seq<T>, Error>): Result<seq<T>, Error> {
    match r
    case Ok(rest) => Ok(out + rest)
    case Err(e) => Err(e)
  }

  lemma {:induction false} BehindStep<T>(out: seq<T>, x: T, r: Result<seq<T>, Error>)
    ensures Behind(out, Behind([x], r)) == Behind(out + [x], r)
  {
    if r.Ok? {
      assert out + ([x] + r.value) == out + [x] + r.value;
    }
  }

  predicate Fit(b: seq<byte>, xs: seq<Box>) {
    forall i :: 0 <= i < |xs| ==> Body(xs[i]) <= End(xs[i]) <= |b|
  }

  function Find(xs: seq<Box>, typ: seq<byte>): (r: Option<Box>)
    ensures r.Some? ==> r.value in xs && r.value.typ == typ
  {
    if xs == [] then None else if xs[0].typ == typ then Some(xs[0]) else Find(xs[1..], typ)
  }

  // ----- track fragments -----

  datatype Traf = Traf(track: Track, tfdt: Box, version: byte, duration: nat)

  /** The place of the decode time. */
  function Field(tf: Traf): nat { Body(tf.tfdt) + 4 }

  function Read32(b: seq<byte>, p: nat): Result<nat, Error> {
    if p + 4 > |b| then Err(ShortBox) else Ok(U32(b, p))
  }

  predicate Flag(flags: nat, bit: nat)
    requires 0 < bit
  {
    flags / bit % 2 == 1
  }

  /** Where tfhd keeps its default sample duration, when it has one. */
  function DefaultDurationAt(tfhd: Box, flags: nat): nat {
    Body(tfhd) + 8 + (if Flag(flags, 0x1) then 8 else 0) + (if Flag(flags, 0x2) then 4 else 0)
  }

  function SampleBytes(flags: nat): nat {
    4 + (if Flag(flags, 0x200) then 4 else 0) + (if Flag(flags, 0x400) then 4 else 0)
    + (if Flag(flags, 0x800) then 4 else 0)
  }

  function SamplesAt(trun: Box, flags: nat): nat {
    Body(trun) + 8 + (if Flag(flags, 0x1) then 4 else 0) + (if Flag(flags, 0x4) then 4 else 0)
  }

  /** The sum of the first n sample durations, modulo 2^64. */
  function SampleSum(b: seq<byte>, p: nat, per: nat, n: nat): nat
    requires p + n * per <= |b| && 4 <= per
  {
    if n == 0 then 0 else
      MulStep(n, per);
      (SampleSum(b, p, per, n - 1) + U32(b, p + (n - 1) * per)) % B64
  }

  function TrunDuration(b: seq<byte>, k: Box, defDur: nat): Result<nat, Error>
    requires End(k) <= |b|
  {
    match Read32(b, Body(k))
    case Err(e) => Err(e)
    case Ok(word) =>
      match Read32(b, Body(k) + 4)
      case Err(e) => Err(e)
      case Ok(count) =>
        var flags := word % 0x100_0000;
        if !Flag(flags, 0x100) then
          if defDur == 0 then Err(NoDuration) else Ok(count * defDur % B64)
        else
          var p, per := SamplesAt(k, flags), SampleBytes(flags);
          if p + count * per > End(k) then Err(ShortTrun) else Ok(SampleSum(b, p, per, count))
  }

  /** The sum over all trun boxes of a traf. */
  function TrunsDuration(b: seq<byte>, kids: seq<Box>, defDur: nat): Result<nat, Error>
    requires Fit(b, kids)
  {
    if kids == [] then Ok(0) else
      var k := |kids| - 1;
      match TrunsDuration(b, kids[..k], defDur)
      case Err(e) => Err(e)
      case Ok(sum) =>
        if kids[k].typ != TRUN then Ok(sum) else
          match TrunDuration(b, kids[k], defDur)
          case Err(e) => Err(e)
          case Ok(d) => Ok((sum + d) % B64)
  }

  lemma {:induction false} MulStep(n: nat, per: nat)
    requires 0 < n
    ensures n * per == (n - 1) * per + per
  {
  }

  lemma {:induction false} MulMonotone(m: nat, n: nat, per: nat)
    requires m <= n
    ensures m * per <= n * per
  {
  }

  method SumSamples(b: seq<byte>, p: nat, per: nat, count: nat) returns (sum: nat)
    requires p + count * per <= |b| && 4 <= per
    ensures sum == SampleSum(b, p, per, count)
  {
    sum := 0;
    for i := 0 to count
      invariant p + i * per <= |b|
      invariant sum == SampleSum(b, p, per, i)
    {
      MulStep(i + 1, per);
      MulMonotone(i + 1, count, per);
      sum := (sum + U32(b, p + i * per)) % B64;
    }
  }

  /** The default sample duration of a traf: from its tfhd, or from the track. */
  function DefaultDuration(b: seq<byte>, tfhd: Box, flags: nat, track: Track): Result<nat, Error> {
    if Flag(flags, 0x8) then Read32(b, DefaultDurationAt(tfhd, flags)) else Ok(track.defaultSampleDuration)
  }

  /** The fields of tfhd: the track it names and the default duration. */
  function ReadTfhd(b: seq<byte>, tfhd: Box, tracks: Tracks): Result<(Track, nat), Error> {
    match (Read32(b, Body(tfhd)), Read32(b, Body(tfhd) + 4))
    case (Ok(word), Ok(id)) =>
      if id !in tracks then Err(UnknownTrack) else (
        match DefaultDuration(b, tfhd, word % 0x100_0000, tracks[id])
        case Err(e) => Err(e)
        case Ok(d) => Ok((tracks[id], d))
      )
    case _ => Err(ShortBox)
  }

  function ParseTraf(b: seq<byte>, t: Box, tracks: Tracks): Result<Traf, Error>
    requires Body(t) <= End(t) <= |b|
  {
    match Children(b, Body(t), End(t))
    case Err(e) => Err(e)
    case Ok(kids) =>
      match Find(kids, TFHD)
      case None => Err(NoTfhd)
      case Some(tfhd) =>
        match ReadTfhd(b, tfhd, tracks)
        case Err(e) => Err(e)
        case Ok((track, defDur)) =>
          match Find(kids, TFDT)
          case None => Err(NoTfdt)
          case Some(tfdt) =>
            if Body(tfdt) >= |b| then Err(ShortTfdt) else
              match TrunsDuration(b, kids, defDur)
              case Err(e) => Err(e)
              case Ok(d) => Ok(Traf(track, tfdt, b[Body(tfdt)], d))
  }

  // ----- the walk -----

  /** The track fragments among the boxes of a moof. */
  function WalkTrafs(b: seq<byte>, kids: seq<Box>, tracks: Tracks): Result<seq<Traf>, Error>
    requires Fit(b, kids)
  {
    if kids == [] then Ok([])
    else if kids[0].typ != TRAF then WalkTrafs(b, kids[1..], tracks)
    else
      match ParseTraf(b, kids[0], tracks)
      case Err(e) => Err(e)
      case Ok(tf) => Behind([tf], WalkTrafs(b, kids[1..], tracks))
  }

  function WalkMoof(b: seq<byte>, m: Box, tracks: Tracks): Result<seq<Traf>, Error>
    requires Body(m) <= End(m) <= |b|
  {
    match Children(b, Body(m), End(m))
    case Err(e) => Err(e)
    case Ok(kids) => WalkTrafs(b, kids, tracks)
  }

  function WalkMoofs(b: seq<byte>, top: seq<Box>, tracks: Tracks): Result<seq<Traf>, Error>
    requires Fit(b, top)
  {
    if top == [] then Ok([])
    else if top[0].typ != MOOF then WalkMoofs(b, top[1..], tracks)
    else
      match WalkMoof(b, top[0], tracks)
      case Err(e) => Err(e)
      case Ok(tfs) => Behind(tfs, WalkMoofs(b, top[1..], tracks))
  }

  function Walk(b: seq<byte>, tracks: Tracks): Result<seq<Traf>, Error> {
    match Children(b, 0, |b|)
    case Err(e) => Err(e)
    case Ok(top) =>
      match WalkMoofs(b, top, tracks)
      case Err(e) => Err(e)
      case Ok(tfs) => if tfs == [] then Err(NoFragments) else Ok(tfs)
  }

  // ----- what a segment tells, and its move -----

  datatype Fragment = Fragment(track: Track, tfdt: nat, duration: nat)

  function DecodeTime(b: seq<byte>, tf: Traf): Result<nat, Error> {
    var p := Field(tf);
    if tf.version == 1 then (if p + 8 > |b| then Err(ShortTfdt) else Ok(U64(b, p)))
    else if p + 4 > |b| then Err(ShortTfdt) else Ok(U32(b, p))
  }

  function FragmentsOf(b: seq<byte>, tfs: seq<Traf>): Result<seq<Fragment>, Error> {
    if tfs == [] then Ok([]) else
      match DecodeTime(b, tfs[0])
      case Err(e) => Err(e)
      case Ok(v) => Behind([Fragment(tfs[0].track, v, tfs[0].duration)], FragmentsOf(b, tfs[1..]))
  }

  function Fragments(b: seq<byte>, tracks: Tracks): Result<seq<Fragment>, Error> {
    match Walk(b, tracks)
    case Err(e) => Err(e)
    case Ok(tfs) => FragmentsOf(b, tfs)
  }

  function MediaOf(b: seq<byte>, top: seq<Box>): seq<byte>
    requires Fit(b, top)
  {
    if top == [] then [] else
      (if top[0].typ == MDAT then b[Body(top[0])..End(top[0])] else []) + MediaOf(b, top[1..])
  }

  function MediaData(b: seq<byte>): Result<seq<byte>, Error> {
    match Children(b, 0, |b|)
    case Err(e) => Err(e)
    case Ok(top) => Ok(MediaOf(b, top))
  }

  /** Whole seconds in the ticks of a track. */
  function Ticks(seconds: int, scale: nat): int { seconds * scale }

  /** How far a track is from its whole second, in ticks, as the program computes it in int64. */
  function Drift(have: nat, scale: nat, nominal: int): int {
    Wrap64(Wrap64(have) - Wrap64(Ticks(nominal, scale)))
  }

  function Absolute(x: int): nat { if x < 0 then -x else x }

  /** The new decode time, or why there is none. The tolerance is a quarter of a second. */
  function NewTime(have: nat, scale: nat, anchor: int, nominal: int): Result<nat, Error> {
    var diff := Drift(have, scale, nominal);
    if 4 * Absolute(diff) > scale then Err(OffGrid) else
      var v := Wrap64(Wrap64(Ticks(anchor, scale)) + diff);
      if v < 0 then Err(BeforeStart) else Ok(Unsigned64(v))
  }

  /** The decode times of tfs written into out, one after the other. */
  function Patch(out: seq<byte>, tfs: seq<Traf>, anchor: int, nominal: int): Result<seq<byte>, Error>
    decreases |tfs|
  {
    if tfs == [] then Ok(out) else
      var tf := tfs[0];
      if tf.version != 1 then Err(TfdtVersion)
      else if Field(tf) + 8 > |out| then Err(ShortTfdt)
      else
        match NewTime(U64(out, Field(tf)), tf.track.timescale, anchor, nominal)
        case Err(e) => Err(e)
        case Ok(v) => Patch(Put64(out, Field(tf), v), tfs[1..], anchor, nominal)
  }

  function Retime(b: seq<byte>, tracks: Tracks, anchor: int, nominal: int): Result<seq<byte>, Error> {
    match Walk(b, tracks)
    case Err(e) => Err(e)
    case Ok(tfs) => Patch(b, tfs, anchor, nominal)
  }

  /** The move of a segment as the program makes it: a copy whose fields are overwritten in place. */
  method RetimeCopy(seg: seq<byte>, tracks: Tracks, anchor: int, nominal: int) returns (r: Result<seq<byte>, Error>)
    ensures r == Retime(seg, tracks, anchor, nominal)
  {
    var w := Walk(seg, tracks);
    if w.Err? {
      return Err(w.error);
    }
    var tfs := w.value;
    hide Walk, NewTime, Put64;
    var out := new byte[|seg|](i requires 0 <= i < |seg| => seg[i]);
    assert out[..] == seg;
    for j := 0 to |tfs|
      invariant Patch(seg, tfs, anchor, nominal) == Patch(out[..], tfs[j..], anchor, nominal)
    {
      var tf := tfs[j];
      assert tfs[j..][0] == tf && tfs[j..][1..] == tfs[j + 1..];
      if tf.version != 1 {
        return Err(TfdtVersion);
      }
      if Field(tf) + 8 > out.Length {
        return Err(ShortTfdt);
      }
      var v := NewTime(U64(out[..], Field(tf)), tf.track.timescale, anchor, nominal);
      if v.Err? {
        return Err(v.error);
      }
      WriteNumber(out, Field(tf), v.value);
    }
    return Ok(out[..]);
  }

  method WriteNumber(out: array<byte>, p: nat, v: nat)
    requires p + 8 <= out.Length
    modifies out
    ensures out[..] == Put64(old(out[..]), p, v)
  {
    var d := Digits(v, 8);
    for k := 0 to 8
      invariant forall i :: 0 <= i < out.Length ==> out[i] == if p <= i < p + k then d[i - p] else old(out[i])
    {
      out[p + k] := d[k];
    }
  }
}
