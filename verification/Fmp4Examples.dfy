/**
 Two segments that show what the move of a segment does not keep. A tfhd that announces a
 default duration but ends before it reads the duration out of the tfdt behind it, so the
 move changes the duration. And a decode time with its top bit set is moved across zero, so
 the way back is refused.
 */
module Fmp4Examples {
  import opened Common
  import opened Bytes
  import opened Fmp4

  const TFDT_BOX := Box(TFDT, 32, 8, 20)

  /** One moof with one traf: the flags of tfhd and the decode time. */
  function Segment(flags: byte, time: seq<byte>): (b: seq<byte>)
    requires |time| == 8
    ensures |b| == 68
  {
    [0, 0, 0, 68] + MOOF + [0, 0, 0, 60] + TRAF
    + [0, 0, 0, 16] + TFHD + [0, 0, 0, flags, 0, 0, 0, 1]
    + [0, 0, 0, 20] + TFDT + [1, 0, 0, 0] + time
    + [0, 0, 0, 16] + TRUN + [0, 0, 0, 0, 0, 0, 0, 1]
  }

  lemma {:induction false} SmallNumber(v: byte)
    ensures Number([0, 0, 0, v]) == v
  {
    var b: seq<byte> := [0, 0, 0, v];
    assert b[..3][..2] == b[..2] && b[..2][..1] == b[..1] && b[..1][..0] == [];
    assert Number(b[..1]) == 0;
    assert Number(b[..2]) == 0;
    assert Number(b[..3]) == 0;
  }

  lemma {:induction false} Slices(flags: byte, time: seq<byte>)
    requires |time| == 8
    ensures var b := Segment(flags, time);
      && b[0..4] == [0, 0, 0, 68] && b[4..8] == MOOF && b[8..12] == [0, 0, 0, 60] && b[12..16] == TRAF
      && b[16..20] == [0, 0, 0, 16] && b[20..24] == TFHD && b[24..28] == [0, 0, 0, flags] && b[28..32] == [0, 0, 0, 1]
  {
  }

  lemma {:induction false} MoreSlices(flags: byte, time: seq<byte>)
    requires |time| == 8
    ensures var b := Segment(flags, time);
      && b[32..36] == [0, 0, 0, 20] && b[36..40] == TFDT && b[40] == 1 && b[44..52] == time
      && b[52..56] == [0, 0, 0, 16] && b[56..60] == TRUN && b[60..64] == [0, 0, 0, 0] && b[64..68] == [0, 0, 0, 1]
  {
  }

  lemma {:induction false} Words(flags: byte, time: seq<byte>)
    requires |time| == 8
    ensures var b := Segment(flags, time);
      && U32(b, 0) == 68 && U32(b, 8) == 60 && U32(b, 16) == 16 && U32(b, 24) == flags && U32(b, 28) == 1
      && U32(b, 32) == 20 && U32(b, 52) == 16 && U32(b, 60) == 0 && U32(b, 64) == 1
  {
    Slices(flags, time);
    MoreSlices(flags, time);
    SmallNumber(68); SmallNumber(60); SmallNumber(16); SmallNumber(flags); SmallNumber(1);
    SmallNumber(20); SmallNumber(0);
    hide Segment, Number;
  }

  lemma {:induction false} OneChild(b: seq<byte>, p: nat, end: nat, x: Box)
    requires p < end <= |b| && HeaderAt(b, p, end) == Ok(x) && End(x) == end
    ensures Children(b, p, end) == Ok([x])
  {
    assert Children(b, end, end) == Ok([]);
    assert [x] + [] == [x];
  }

  lemma {:induction false} Boxes(flags: byte, time: seq<byte>)
    requires |time| == 8
    ensures var b := Segment(flags, time);
      && Children(b, 0, 68) == Ok([Box(MOOF, 0, 8, 68)])
      && Children(b, 8, 68) == Ok([Box(TRAF, 8, 8, 60)])
      && Children(b, 16, 68) == Ok([Box(TFHD, 16, 8, 16), TFDT_BOX, Box(TRUN, 52, 8, 16)])
  {
    var b := Segment(flags, time);
    Words(flags, time);
    Slices(flags, time);
    MoreSlices(flags, time);
    hide Segment, U32, Children;
    OneChild(b, 0, 68, Box(MOOF, 0, 8, 68));
    OneChild(b, 8, 68, Box(TRAF, 8, 8, 60));
    OneChild(b, 52, 68, Box(TRUN, 52, 8, 16));
    NextChild(b, 32, 68, TFDT_BOX, [Box(TRUN, 52, 8, 16)]);
    assert [TFDT_BOX] + [Box(TRUN, 52, 8, 16)] == [TFDT_BOX, Box(TRUN, 52, 8, 16)];
    NextChild(b, 16, 68, Box(TFHD, 16, 8, 16), [TFDT_BOX, Box(TRUN, 52, 8, 16)]);
    assert [Box(TFHD, 16, 8, 16)] + [TFDT_BOX, Box(TRUN, 52, 8, 16)]
        == [Box(TFHD, 16, 8, 16), TFDT_BOX, Box(TRUN, 52, 8, 16)];
  }

  lemma {:induction false} NextChild(b: seq<byte>, p: nat, end: nat, x: Box, rest: seq<Box>)
    requires p < end <= |b| && HeaderAt(b, p, end) == Ok(x) && Children(b, End(x), end) == Ok(rest)
    ensures Children(b, p, end) == Ok([x] + rest)
  {
  }

  lemma {:induction false} TypesDiffer()
    ensures TFHD != TFDT && TFHD != TRUN && TFDT != TRUN
  {
    assert TFHD[2] != TFDT[2] && TFHD[1] != TRUN[1] && TFDT[1] != TRUN[1];
  }

  lemma {:induction false} FindThree(x: Box, y: Box, z: Box)
    requires x.typ == TFHD && y.typ == TFDT
    ensures Find([x, y, z], TFHD) == Some(x) && Find([x, y, z], TFDT) == Some(y)
  {
    TypesDiffer();
    hide TFHD, TFDT;
    assert [x, y, z][1..] == [y, z];
    assert Find([y, z], TFDT) == Some(y);
  }

  lemma {:induction false} LastIsTrun(b: seq<byte>, x: Box, y: Box, z: Box, d: nat)
    requires x.typ == TFHD && y.typ == TFDT && z.typ == TRUN && Fit(b, [x, y, z]) && d < B64
    requires End(z) <= |b| && TrunDuration(b, z, d) == Ok(d)
    ensures TrunsDuration(b, [x, y, z], d) == Ok(d)
  {
    TypesDiffer();
    hide TFHD, TFDT, TRUN, TrunDuration;
    var kids := [x, y, z];
    assert kids[..2] == [x, y] && [x, y][..1] == [x] && [x][..0] == [];
    assert TrunsDuration(b, [x], d) == Ok(0);
    assert TrunsDuration(b, [x, y], d) == Ok(0);
  }

  /** A traf of three boxes. */
  lemma {:induction false} ParsedAs(b: seq<byte>, t: Box, x: Box, y: Box, z: Box, tracks: Tracks, track: Track, d: nat)
    requires Body(t) <= End(t) <= |b| && Children(b, Body(t), End(t)) == Ok([x, y, z])
    requires x.typ == TFHD && y.typ == TFDT && z.typ == TRUN && Fit(b, [x, y, z]) && d < B64
    requires ReadTfhd(b, x, tracks) == Ok((track, d)) && End(z) <= |b| && TrunDuration(b, z, d) == Ok(d)
    requires Body(y) < |b| && b[Body(y)] == 1
    ensures ParseTraf(b, t, tracks) == Ok(Traf(track, y, 1, d))
  {
    FindThree(x, y, z);
    LastIsTrun(b, x, y, z, d);
    hide Children, Find, TrunsDuration, ReadTfhd, TrunDuration, TFHD, TFDT, TRUN;
  }

  lemma {:induction false} OneSample(flags: byte, time: seq<byte>, d: nat)
    requires |time| == 8 && 0 < d < B64
    ensures TrunDuration(Segment(flags, time), Box(TRUN, 52, 8, 16), d) == Ok(d)
  {
    Words(flags, time);
    hide Segment, U32;
    assert !Flag(0, 0x100);
  }

  /** A segment of one moof with one traf. */
  lemma {:induction false} WalkedAs(b: seq<byte>, m: Box, t: Box, tracks: Tracks, tf: Traf)
    requires Body(m) <= End(m) <= |b| && Body(t) <= End(t) <= |b| && m.typ == MOOF && t.typ == TRAF
    requires Children(b, 0, |b|) == Ok([m]) && Children(b, Body(m), End(m)) == Ok([t])
    requires ParseTraf(b, t, tracks) == Ok(tf)
    ensures Walk(b, tracks) == Ok([tf])
  {
    hide Children, ParseTraf, MOOF, TRAF;
    assert [t][1..] == [] && [m][1..] == [];
    assert WalkTrafs(b, [t][1..], tracks) == Ok([]);
    assert [tf] + [] == [tf];
    assert WalkTrafs(b, [t], tracks) == Ok([tf]);
    assert WalkMoofs(b, [m][1..], tracks) == Ok([]);
    assert WalkMoofs(b, [m], tracks) == Ok([tf]);
  }

  lemma {:induction false} Parsed(flags: byte, time: seq<byte>, tracks: Tracks, track: Track, d: nat)
    requires |time| == 8 && 0 < d < B64 &&
        ReadTfhd(Segment(flags, time), Box(TFHD, 16, 8, 16), tracks) == Ok((track, d))
    ensures ParseTraf(Segment(flags, time), Box(TRAF, 8, 8, 60), tracks) == Ok(Traf(track, TFDT_BOX, 1, d))
  {
    hide Segment, Children, ReadTfhd, TrunDuration, ParseTraf, TFHD, TFDT, TRUN, MOOF, TRAF;
    var b := Segment(flags, time);
    Boxes(flags, time);
    OneSample(flags, time, d);
    MoreSlices(flags, time);
    ParsedAs(b, Box(TRAF, 8, 8, 60), Box(TFHD, 16, 8, 16), TFDT_BOX, Box(TRUN, 52, 8, 16), tracks, track, d);
  }

  /** The segment says one fragment, as long as its tfhd says. */
  lemma {:induction false} Walked(flags: byte, time: seq<byte>, tracks: Tracks, track: Track, d: nat)
    requires |time| == 8 && 0 < d < B64 &&
        ReadTfhd(Segment(flags, time), Box(TFHD, 16, 8, 16), tracks) == Ok((track, d))
    ensures Walk(Segment(flags, time), tracks) == Ok([Traf(track, TFDT_BOX, 1, d)])
  {
    hide Segment, Children, ReadTfhd, ParseTraf, Walk, TFHD, TFDT, TRUN, MOOF, TRAF;
    Boxes(flags, time);
    Parsed(flags, time, tracks, track, d);
    WalkedAs(Segment(flags, time), Box(MOOF, 0, 8, 68), Box(TRAF, 8, 8, 60), tracks, Traf(track, TFDT_BOX, 1, d));
  }

  lemma {:induction false} Time(flags: byte, time: seq<byte>)
    requires |time| == 8
    ensures U64(Segment(flags, time), 44) == Number(time)
  {
    MoreSlices(flags, time);
    hide Segment, Number;
  }

  lemma {:induction false} ToldAs(b: seq<byte>, tracks: Tracks, tf: Traf, v: nat)
    requires Walk(b, tracks) == Ok([tf]) && tf.version == 1 && Field(tf) + 8 <= |b| && U64(b, Field(tf)) == v
    ensures Fragments(b, tracks) == Ok([Fragment(tf.track, v, tf.duration)])
  {
    hide Walk, U64, Field;
    assert [tf][1..] == [];
    assert FragmentsOf(b, [tf][1..]) == Ok([]);
    assert [Fragment(tf.track, v, tf.duration)] + [] == [Fragment(tf.track, v, tf.duration)];
  }

  lemma {:induction false} MovedAs(b: seq<byte>, tracks: Tracks, tf: Traf, anchor: int, nominal: int)
    requires Walk(b, tracks) == Ok([tf]) && tf.version == 1 && Field(tf) + 8 <= |b|
    ensures Retime(b, tracks, anchor, nominal) ==
      match NewTime(U64(b, Field(tf)), tf.track.timescale, anchor, nominal)
      case Ok(v) => Ok(Put64(b, Field(tf), v))
      case Err(e) => Err(e)
  {
    hide Walk, U64, Field, Put64, NewTime;
    assert [tf][1..] == [];
    var r := NewTime(U64(b, Field(tf)), tf.track.timescale, anchor, nominal);
    if r.Ok? {
      assert Patch(Put64(b, Field(tf), r.value), [tf][1..], anchor, nominal) == Ok(Put64(b, Field(tf), r.value));
    }
  }

  lemma {:induction false} Rewritten(flags: byte, time: seq<byte>, time': seq<byte>)
    requires |time| == |time'| == 8
    ensures Put64(Segment(flags, time), 44, Number(time')) == Segment(flags, time')
  {
    DigitsOfNumber(time');
    hide Digits, Number;
  }

  /** What the move makes of the segment. */
  lemma {:induction false} Moved(flags: byte, time: seq<byte>, time': seq<byte>, tracks: Tracks, track: Track, d: nat,
      anchor: int, nominal: int)
    requires |time| == |time'| == 8 && Walk(Segment(flags, time), tracks) == Ok([Traf(track, TFDT_BOX, 1, d)])
    ensures match NewTime(Number(time), track.timescale, anchor, nominal)
      case Err(e) => Retime(Segment(flags, time), tracks, anchor, nominal) == Err(e)
      case Ok(v) => v == Number(time') ==>
          Retime(Segment(flags, time), tracks, anchor, nominal) == Ok(Segment(flags, time'))
  {
    Time(flags, time);
    Rewritten(flags, time, time');
    hide Segment, Walk, U64, Put64, NewTime, Retime, TFDT, Number;
    MovedAs(Segment(flags, time), tracks, Traf(track, TFDT_BOX, 1, d), anchor, nominal);
  }

  // ----- a default duration in the decode time -----

  const UNIT := 0x1_0000_0000
  const FAST := Track(1, 0x8000_0000, 0)
  const FAST_TRACKS: Tracks := map[1 := FAST]

  /** The decode time hi * 2^32. */
  function High(hi: byte): seq<byte> { [0, 0, 0, hi, 0, 0, 0, 0] }

  lemma {:induction false} NumberOfHigh(hi: byte)
    ensures Number(High(hi)) == hi as int * UNIT
  {
    SmallNumber(hi);
    var b: seq<byte> := High(hi);
    assert b[..7][..6] == b[..6] && b[..6][..5] == b[..5] && b[..5][..4] == b[..4] && b[..4] == [0, 0, 0, hi];
    assert Number(b[..5]) == hi as int * 0x100;
    assert Number(b[..6]) == hi as int * 0x1_0000;
    assert Number(b[..7]) == hi as int * 0x100_0000;
  }

  /** The default duration is read from the upper half of the decode time. */
  lemma {:induction false} ShortHeader(hi: byte)
    requires hi > 0
    ensures ReadTfhd(Segment(11, High(hi)), Box(TFHD, 16, 8, 16), FAST_TRACKS) == Ok((FAST, hi as nat))
    ensures Walk(Segment(11, High(hi)), FAST_TRACKS) == Ok([Traf(FAST, TFDT_BOX, 1, hi)])
    ensures Fragments(Segment(11, High(hi)), FAST_TRACKS) == Ok([Fragment(FAST, hi as int * UNIT, hi)])
  {
    var b := Segment(11, High(hi));
    Words(11, High(hi));
    MoreSlices(11, High(hi));
    Time(11, High(hi));
    NumberOfHigh(hi);
    SmallNumber(hi);
    assert U32(b, 44) == hi by {
      assert b[44..48] == b[44..52][..4] == [0, 0, 0, hi];
      hide Segment, Number;
    }
    hide Segment, U32, U64, Number, Walk, Fragments, High;
    assert DefaultDurationAt(Box(TFHD, 16, 8, 16), 11) == 44;
    Walked(11, High(hi), FAST_TRACKS, FAST, hi);
    ToldAs(b, FAST_TRACKS, Traf(FAST, TFDT_BOX, 1, hi), hi as int * UNIT);
  }

  lemma {:induction false} NewTimeOfHigh(hi: byte, hi': byte)
    requires hi == 1 && hi' == 2
    ensures NewTime(hi as int * UNIT, FAST.timescale, 4, 2) == Ok(hi' as int * UNIT)
  {
  }

  /** Moving this segment by two seconds changes its decode time, as it should, and doubles its duration. */
  lemma {:induction false} MovedDurationChanges(hi: byte, hi': byte)
    requires hi == 1 && hi' == 2
    ensures Retime(Segment(11, High(hi)), FAST_TRACKS, 4, 2) == Ok(Segment(11, High(hi')))
    ensures Fragments(Segment(11, High(hi)), FAST_TRACKS) == Ok([Fragment(FAST, UNIT, 1)])
    ensures Fragments(Segment(11, High(hi')), FAST_TRACKS) == Ok([Fragment(FAST, 2 * UNIT, 2)])
  {
    NewTimeOfHigh(hi, hi');
    NumberOfHigh(hi);
    NumberOfHigh(hi');
    hide Segment, Fragments, Retime, ReadTfhd, Walk, NewTime, High, Number;
    ShortHeader(hi);
    ShortHeader(hi');
    Moved(11, High(hi), High(hi'), FAST_TRACKS, FAST, hi, 4, 2);
  }

  // ----- a decode time before zero -----

  const SLOW := Track(1, 1000, 1000)
  const SLOW_TRACKS: Tracks := map[1 := SLOW]

  /** The decode time 2^64 - 1, one tick before zero, and the one a second later. */
  function BeforeZero(): (b: seq<byte>)
    ensures |b| == 8
  {
    [255, 255, 255, 255, 255, 255, 255, 255]
  }

  function AfterZero(): (b: seq<byte>)
    ensures |b| == 8
  {
    [0, 0, 0, 0, 0, 0, 3, 231]
  }

  lemma {:induction false} NumberOfBeforeZero()
    ensures Number(BeforeZero()) == B64 - 1
  {
    var b := BeforeZero();
    assert b[..7][..6] == b[..6] && b[..6][..5] == b[..5] && b[..5][..4] == b[..4];
    assert b[..4][..3] == b[..3] && b[..3][..2] == b[..2] && b[..2][..1] == b[..1] && b[..1][..0] == [];
    assert Number(b[..1]) == 0xFF;
    assert Number(b[..2]) == 0xFFFF;
    assert Number(b[..3]) == 0xFF_FFFF;
    assert Number(b[..4]) == 0xFFFF_FFFF;
    assert Number(b[..5]) == 0xFF_FFFF_FFFF;
    assert Number(b[..6]) == 0xFFFF_FFFF_FFFF;
    assert Number(b[..7]) == 0xFF_FFFF_FFFF_FFFF;
  }

  lemma {:induction false} NumberOfAfterZero()
    ensures Number(AfterZero()) == 999
  {
    SmallNumber(0);
    var b := AfterZero();
    assert b[..7][..6] == b[..6] && b[..6][..5] == b[..5] && b[..5][..4] == b[..4] && b[..4] == [0, 0, 0, 0];
    assert Number(b[..6]) == 0;
  }

  lemma {:induction false} NewTimesAroundZero(have: nat, scale: nat)
    requires have == B64 - 1 && scale == 1000
    ensures NewTime(have, scale, 1, 0) == Ok(999) && NewTime(999, scale, 0, 1) == Err(BeforeStart)
  {
    assert Ticks(0, scale) == 0 && Ticks(1, scale) == 1000;
    assert Wrap64(have) == -1;
    hide Ticks;
    assert Drift(have, scale, 0) == -1;
    assert Drift(999, scale, 1) == -1;
    hide Drift;
  }

  lemma {:induction false} PlainHeader(time: seq<byte>)
    requires |time| == 8
    ensures ReadTfhd(Segment(0, time), Box(TFHD, 16, 8, 16), SLOW_TRACKS) == Ok((SLOW, 1000))
  {
    Words(0, time);
    hide Segment, U32;
  }

  /** A segment that is accepted and moved across zero, and whose way back is refused. */
  lemma {:induction false} WayBackIsRefused()
    ensures Retime(Segment(0, BeforeZero()), SLOW_TRACKS, 1, 0) == Ok(Segment(0, AfterZero()))
    ensures Retime(Segment(0, AfterZero()), SLOW_TRACKS, 0, 1) == Err(BeforeStart)
  {
    NumberOfBeforeZero();
    NumberOfAfterZero();
    NewTimesAroundZero(B64 - 1, SLOW.timescale);
    hide Segment, Retime, ReadTfhd, Walk, NewTime, BeforeZero, AfterZero, Number;
    PlainHeader(BeforeZero());
    PlainHeader(AfterZero());
    Walked(0, BeforeZero(), SLOW_TRACKS, SLOW, 1000);
    Walked(0, AfterZero(), SLOW_TRACKS, SLOW, 1000);
    Moved(0, BeforeZero(), AfterZero(), SLOW_TRACKS, SLOW, 1000, 1, 0);
    Moved(0, AfterZero(), BeforeZero(), SLOW_TRACKS, SLOW, 1000, 0, 1);
  }

  // ----- a decode time of zero -----

  function Zero(): (b: seq<byte>)
    ensures |b| == 8
  {
    [0, 0, 0, 0, 0, 0, 0, 0]
  }

  lemma {:induction false} NumberOfZero()
    ensures Number(Zero()) == 0
  {
    SmallNumber(0);
    var b := Zero();
    assert b[..7][..6] == b[..6] && b[..6][..5] == b[..5] && b[..5][..4] == b[..4] && b[..4] == [0, 0, 0, 0];
    assert Number(b[..6]) == 0;
  }

  lemma {:induction false} WrapSmall(x: int)
    requires 0 <= x < 0x1000_0000_0000_0000
    ensures Wrap64(x) == x && Unsigned64(x) == x
  {
  }

  lemma {:induction false} TicksOf(anchor: int, scale: nat)
    requires scale == 1000
    ensures Ticks(anchor, scale) == 1000 * anchor
  {
  }

  /** The first 2^40 seconds of the timeline. */
  const CENTURIES := 0x100_0000_0000

  lemma {:induction false} NewTimeOfZero(have: nat, scale: nat, anchor: int)
    requires have == 0 && scale == 1000 && 0 <= anchor < CENTURIES
    ensures NewTime(have, scale, anchor, 0) == Ok(1000 * anchor)
  {
    TicksOf(0, scale);
    TicksOf(anchor, scale);
    WrapSmall(0);
    WrapSmall(1000 * anchor);
    hide Ticks, Wrap64, Unsigned64;
  }

  /** The first segment of a source can be put on any second of them. */
  lemma {:induction false} ZeroMoves(anchor: int)
    requires 0 <= anchor < CENTURIES
    ensures Retime(Segment(0, Zero()), SLOW_TRACKS, anchor, 0).Ok?
  {
    NumberOfZero();
    NewTimeOfZero(0, SLOW.timescale, anchor);
    hide Segment, Retime, ReadTfhd, Walk, NewTime, Zero, Number, U64, Put64;
    PlainHeader(Zero());
    Walked(0, Zero(), SLOW_TRACKS, SLOW, 1000);
    Time(0, Zero());
    MovedAs(Segment(0, Zero()), SLOW_TRACKS, Traf(SLOW, TFDT_BOX, 1, 1000), anchor, 0);
  }
}
