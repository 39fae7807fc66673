/**
 What the decoder makes of any splice_info_section of ANSI/SCTE 35, and not only of those
 that the program writes: sections with every value of the reserved bits, time adjustments,
 descriptors, times that are left open, and splices of components. Which byte sequences are
 accepted, and why the others are refused.
 */
module SectionRead {
  import opened Common
  import opened Crc
  import opened Scte35

  // ----- splice_insert -----

  /** The splice time: now, left open, or in ticks of the 90 kHz clock. */
  datatype Time = Immediate | Open(reserved: bv8) | At(reserved: bv8, ticks: bv64)

  datatype Length = Length(auto: bool, reserved: bv8, ticks: bv64)

  datatype Splice =
    | Cancel(id: bv32, reserved: bv8)
    | Whole(id: bv32, reserved: bv8, out: bool, spare: bv8, time: Time, length: Option<Length>, program: bv16,
        avail: bv8, expected: bv8)

  /** A flag in the top bit in front of reserved bits. */
  function Topped(flag: bool, reserved: bv8): bv8 { (if flag then 0x80 else 0) | (reserved & 0x7F) }

  function SpliceFlags(out: bool, whole: bool, length: bool, immediate: bool, spare: bv8): bv8 {
    (if out then 0x80 else 0) | (if whole then 0x40 else 0) | (if length then 0x20 else 0)
    | (if immediate then 0x10 else 0) | (spare & 0x0F)
  }

  /** A flag, six reserved bits and 33 bits of ticks. */
  function Timed(flag: bool, reserved: bv8, ticks: bv64): (b: seq<bv8>)
    ensures |b| == 5
  {
    TickBytes(Topped(flag, reserved) & 0xFE, ticks)
  }

  function TimeBytes(t: Time): seq<bv8> {
    match t
    case Immediate => []
    case Open(reserved) => [Topped(false, reserved)]
    case At(reserved, ticks) => Timed(true, reserved, ticks)
  }

  function LengthBytes(l: Option<Length>): seq<bv8> {
    match l
    case None => []
    case Some(l) => Timed(l.auto, l.reserved, l.ticks)
  }

  function SpliceBytes(s: Splice): seq<bv8> {
    match s
    case Cancel(id, reserved) => IdBytes(id) + [Topped(true, reserved)]
    case Whole(id, reserved, out, spare, time, length, program, avail, expected) =>
      IdBytes(id) + [Topped(false, reserved), SpliceFlags(out, true, length.Some?, time.Immediate?, spare)]
      + TimeBytes(time) + (LengthBytes(length) + (Pair(program) + [avail, expected]))
  }

  predicate Fits(s: Splice) {
    s.Whole? ==>
      && (s.time.At? ==> s.time.ticks < TICK_LIMIT)
      && (s.length.Some? ==> s.length.value.ticks < TICK_LIMIT)
  }

  /** What is read of a splice. */
  function Read(s: Splice): SpliceInsert {
    match s
    case Cancel(id, _) => Cancelled(id)
    case Whole(id, _, out, _, time, length, program, avail, expected) =>
      SpliceInsert(id, false, out, time.Immediate?, if time.At? then Some(time.ticks) else None,
        if length.Some? then length.value.ticks else 0, length.Some? && length.value.auto, program, avail, expected)
  }

  lemma {:induction false} ToppedBits(flag: bool, reserved: bv8)
    ensures Has(Topped(flag, reserved), 0x80) <==> flag
    ensures Has(Topped(flag, reserved) & 0xFE, 0x80) <==> flag
    ensures Topped(flag, reserved) & 0xFE & 1 == 0
  {
  }

  lemma {:induction false} FlagBits(out: bool, whole: bool, length: bool, immediate: bool, spare: bv8)
    ensures var f := SpliceFlags(out, whole, length, immediate, spare);
      && (Has(f, 0x80) <==> out) && (Has(f, 0x40) <==> whole) && (Has(f, 0x20) <==> length)
      && (Has(f, 0x10) <==> immediate)
  {
  }

  lemma {:induction false} TimedBits(flag: bool, reserved: bv8, ticks: bv64)
    requires ticks < TICK_LIMIT
    ensures var b := Timed(flag, reserved, ticks);
      Ticks(b[0], b[1], b[2], b[3], b[4]) == ticks && (Has(b[0], 0x80) <==> flag)
  {
    ToppedBits(flag, reserved);
    hide Ticks, TickBytes, Has, Topped;
    TickRoundTrip(Topped(flag, reserved) & 0xFE, ticks);
  }

  /** The first six bytes of a splice of the whole program. */
  lemma {:induction false} WholeFront(s: Splice, rest: seq<bv8>)
    requires s.Whole?
    ensures var c := SpliceBytes(s) + rest;
      && 6 <= |c| && Word(c[0], c[1], c[2], c[3]) == s.id && c[4] == Topped(false, s.reserved)
      && c[5] == SpliceFlags(s.out, true, s.length.Some?, s.time.Immediate?, s.spare)
      && c[6..] == TimeBytes(s.time) + (LengthBytes(s.length) + (Pair(s.program) + [s.avail, s.expected])) + rest
  {
    IdRoundTrip(s.id);
    hide IdBytes, Word, Topped, SpliceFlags, TimeBytes, LengthBytes, Pair;
  }

  /** What is behind the splice time. */
  lemma {:induction false} TailIsRead(s: Splice, c: seq<bv8>, p: nat, rest: seq<bv8>, pts: Option<bv64>)
    requires s.Whole? && Fits(s) && 6 <= p <= |c|
    requires c[5] == SpliceFlags(s.out, true, s.length.Some?, s.time.Immediate?, s.spare)
    requires c[p..] == LengthBytes(s.length) + (Pair(s.program) + [s.avail, s.expected]) + rest
    ensures DecodeTail(s.id, c, s.time.Immediate?, pts, p) ==
      Ok(SpliceInsert(s.id, false, s.out, s.time.Immediate?, pts,
        if s.length.Some? then s.length.value.ticks else 0, s.length.Some? && s.length.value.auto,
        s.program, s.avail, s.expected))
  {
    FlagBits(s.out, true, s.length.Some?, s.time.Immediate?, s.spare);
    ProgramIdRoundTrip(s.program);
    hide SpliceFlags, Has, Pair, Paired, Ticks, Timed;
    var pair, tail := Pair(s.program), c[p..];
    assert forall i :: 0 <= i < |tail| ==> c[p + i] == tail[i];
    if s.length.Some? {
      var l := s.length.value;
      TimedBits(l.auto, l.reserved, l.ticks);
      var t := Timed(l.auto, l.reserved, l.ticks);
      assert tail[0] == t[0] && tail[1] == t[1] && tail[2] == t[2] && tail[3] == t[3] && tail[4] == t[4];
      assert tail[5] == pair[0] && tail[6] == pair[1] && tail[7] == s.avail && tail[8] == s.expected;
    } else {
      assert tail[0] == pair[0] && tail[1] == pair[1] && tail[2] == s.avail && tail[3] == s.expected;
    }
  }

  lemma {:induction false} CancelIsRead(s: Splice, rest: seq<bv8>)
    requires s.Cancel?
    ensures DecodeInsert(SpliceBytes(s) + rest) == Ok(Read(s))
  {
    IdRoundTrip(s.id);
    ToppedBits(true, s.reserved);
    hide IdBytes, Word, Topped, Has;
  }

  /** Every splice_insert is read to its fields, whatever is in its reserved bits and behind it. */
  lemma {:induction false} SpliceIsRead(s: Splice, rest: seq<bv8>)
    requires Fits(s)
    ensures DecodeInsert(SpliceBytes(s) + rest) == Ok(Read(s))
  {
    if s.Cancel? {
      CancelIsRead(s, rest);
    } else {
      WholeIsRead(s, rest);
    }
  }

  lemma {:induction false} WholeIsRead(s: Splice, rest: seq<bv8>)
    requires s.Whole? && Fits(s)
    ensures DecodeInsert(SpliceBytes(s) + rest) == Ok(Read(s))
  {
    WholeFront(s, rest);
    ToppedBits(false, s.reserved);
    FlagBits(s.out, true, s.length.Some?, s.time.Immediate?, s.spare);
    var c, p := SpliceBytes(s) + rest, 6 + |TimeBytes(s.time)|;
    hide SpliceBytes, Word, Topped, SpliceFlags, Has, TimeBytes, LengthBytes, Pair, Ticks, DecodeTail;
    var time, tail := TimeBytes(s.time), LengthBytes(s.length) + (Pair(s.program) + [s.avail, s.expected]);
    assert c[6..] == time + (tail + rest);
    assert c[6..p] == time && c[p..] == tail + rest by { Split6(c, time, tail + rest); }
    WholeTime(s, c, p);
    TailIsRead(s, c, p, rest, if s.time.At? then Some(s.time.ticks) else None);
  }

  lemma {:induction false} Split6(c: seq<bv8>, a: seq<bv8>, b: seq<bv8>)
    requires 6 <= |c| && c[6..] == a + b
    ensures 6 + |a| <= |c| && c[6..6 + |a|] == a && c[6 + |a|..] == b
  {
    assert |c[6..]| == |a| + |b|;
    assert c[6..6 + |a|] == c[6..][..|a|] && c[6 + |a|..] == c[6..][|a|..];
  }

  lemma {:induction false} WholeTime(s: Splice, c: seq<bv8>, p: nat)
    requires s.Whole? && Fits(s) && p == 6 + |TimeBytes(s.time)| <= |c| && c[6..p] == TimeBytes(s.time)
    ensures s.time.Immediate? ==> p == 6
    ensures s.time.Open? ==> p == 7 && !Has(c[6], 0x80)
    ensures s.time.At? ==> p == 11 && Has(c[6], 0x80) && Ticks(c[6], c[7], c[8], c[9], c[10]) == s.time.ticks
  {
    var t := c[6..p];
    assert forall i :: 0 <= i < |t| ==> c[6 + i] == t[i];
    if s.time.At? {
      TimedBits(true, s.time.reserved, s.time.ticks);
      hide Has, Ticks, Timed;
      assert c[6] == t[0] && c[7] == t[1] && c[8] == t[2] && c[9] == t[3] && c[10] == t[4];
    } else if s.time.Open? {
      ToppedBits(false, s.time.reserved);
      hide Has, Topped;
      assert c[6] == t[0];
    }
  }

  /** A splice of single components is refused. */
  lemma {:induction false} ComponentsAreRefused(id: bv32, reserved: bv8, out: bool, length: bool, immediate: bool,
      spare: bv8, rest: seq<bv8>)
    ensures var flags := SpliceFlags(out, false, length, immediate, spare);
      DecodeInsert(IdBytes(id) + [Topped(false, reserved), flags] + rest)
        == Err(ComponentSplice)
  {
    ToppedBits(false, reserved);
    FlagBits(out, false, length, immediate, spare);
    hide IdBytes, Word, Topped, SpliceFlags, Has;
  }

  /** A splice_insert that ends before its last field is refused. */
  lemma {:induction false} CutShortIsRefused(s: Splice, k: nat)
    requires Fits(s) && k < |SpliceBytes(s)|
    ensures DecodeInsert(SpliceBytes(s)[..k]) == Err(InsertCutShort)
  {
    if s.Whole? && 6 <= k {
      WholeCutShort(s, k);
    } else {
      ToppedBits(false, s.reserved);
      hide IdBytes, Word, Topped, SpliceFlags, Has, TimeBytes, LengthBytes, Pair, DecodeTail;
      var c := SpliceBytes(s)[..k];
      if k == 5 { assert c[4] == Topped(false, s.reserved); }
    }
  }

  lemma {:induction false} WholeCutShort(s: Splice, k: nat)
    requires s.Whole? && Fits(s) && 6 <= k < |SpliceBytes(s)|
    ensures DecodeInsert(SpliceBytes(s)[..k]) == Err(InsertCutShort)
  {
    var all, c := SpliceBytes(s) + [], SpliceBytes(s)[..k];
    WholeFront(s, []);
    ToppedBits(false, s.reserved);
    FlagBits(s.out, true, s.length.Some?, s.time.Immediate?, s.spare);
    assert forall i :: 0 <= i < k ==> c[i] == all[i];
    assert |SpliceBytes(s)| == 10 + |TimeBytes(s.time)| + |LengthBytes(s.length)|;
    TimeFlag(s);
    LengthSize(s.length);
    hide SpliceBytes, Word, Topped, SpliceFlags, Has, TimeBytes, LengthBytes, Pair, Ticks;
  }

  lemma {:induction false} LengthSize(l: Option<Length>)
    ensures |LengthBytes(l)| == if l.Some? then 5 else 0
  {
  }

  /** The top bit of the byte behind the flags, when there is a splice time. */
  lemma {:induction false} TimeFlag(s: Splice)
    requires s.Whole? && Fits(s)
    ensures |TimeBytes(s.time)| == if s.time.Immediate? then 0 else if s.time.Open? then 1 else 5
    ensures 10 <= |SpliceBytes(s)| && (!s.time.Immediate? ==> (Has(SpliceBytes(s)[6], 0x80) <==> s.time.At?))
  {
    var all := SpliceBytes(s) + [];
    WholeFront(s, []);
    var p := 6 + |TimeBytes(s.time)|;
    assert |SpliceBytes(s)| == 10 + |TimeBytes(s.time)| + |LengthBytes(s.length)|;
    assert |TimeBytes(s.time)| == if s.time.Immediate? then 0 else if s.time.Open? then 1 else 5;
    hide SpliceBytes, Word, Topped, SpliceFlags, Has, TimeBytes, LengthBytes, Pair, Ticks;
    Split6(all, TimeBytes(s.time), LengthBytes(s.length) + (Pair(s.program) + [s.avail, s.expected]));
    WholeTime(s, all, p);
  }

  // ----- back from the bytes -----

  lemma {:induction false} ToppedIs(x: bv8)
    ensures Topped(Has(x, 0x80), x) == x
    ensures SpliceFlags(Has(x, 0x80), Has(x, 0x40), Has(x, 0x20), Has(x, 0x10), x) == x
  {
  }

  lemma {:induction false} IdIs(x0: bv8, x1: bv8, x2: bv8, x3: bv8)
    ensures IdBytes(Word(x0, x1, x2, x3)) == [x0, x1, x2, x3]
  {
  }

  lemma {:induction false} PairIs(x: bv8, y: bv8)
    ensures Pair(Paired(x, y)) == [x, y]
  {
  }

  lemma {:induction false} TicksAre(x0: bv8, x1: bv8, x2: bv8, x3: bv8, x4: bv8)
    ensures Ticks(x0, x1, x2, x3, x4) < TICK_LIMIT
    ensures TickBytes(x0 & 0xFE, Ticks(x0, x1, x2, x3, x4)) == [x0, x1, x2, x3, x4]
  {
  }

  lemma {:induction false} TimedIs(x0: bv8, x1: bv8, x2: bv8, x3: bv8, x4: bv8)
    ensures Timed(Has(x0, 0x80), x0, Ticks(x0, x1, x2, x3, x4)) == [x0, x1, x2, x3, x4]
    ensures Ticks(x0, x1, x2, x3, x4) < TICK_LIMIT
  {
    ToppedIs(x0);
    TicksAre(x0, x1, x2, x3, x4);
    hide Ticks, TickBytes, Topped, Has;
  }

  /** Where the splice time of these bytes ends. */
  function TimeEnd(c: seq<bv8>): nat
    requires 6 <= |c|
  {
    if Has(c[5], 0x10) then 6 else if |c| > 6 && Has(c[6], 0x80) then 11 else 7
  }

  function LengthEnd(c: seq<bv8>): nat
    requires 6 <= |c|
  {
    if Has(c[5], 0x20) then TimeEnd(c) + 5 else TimeEnd(c)
  }

  lemma {:induction false} AcceptedEnds(c: seq<bv8>)
    requires DecodeInsert(c).Ok?
    ensures 5 <= |c|
    ensures !Has(c[4], 0x80) ==>
      6 <= |c| && Has(c[5], 0x40) && LengthEnd(c) + 4 <= |c| && !(TimeEnd(c) == 6 && !Has(c[5], 0x10))
  {
    hide Has, Ticks, Word, Paired;
  }

  lemma {:induction false} TimeIs(c: seq<bv8>) returns (t: Time)
    requires 6 <= |c| && TimeEnd(c) <= |c|
    ensures (t.Immediate? <==> Has(c[5], 0x10)) && (t.At? ==> t.ticks < TICK_LIMIT)
    ensures TimeBytes(t) == c[6..TimeEnd(c)]
  {
    if Has(c[5], 0x10) {
      t := Immediate;
    } else if Has(c[6], 0x80) {
      TimedIs(c[6], c[7], c[8], c[9], c[10]);
      t := At(c[6], Ticks(c[6], c[7], c[8], c[9], c[10]));
      hide Has, Ticks, Timed;
      assert c[6..11] == [c[6], c[7], c[8], c[9], c[10]];
    } else {
      ToppedIs(c[6]);
      t := Open(c[6]);
      hide Has, Topped;
    }
  }

  lemma {:induction false} LengthIs(c: seq<bv8>, p: nat, q: nat) returns (l: Option<Length>)
    requires 6 <= p <= q <= |c| && q == (if Has(c[5], 0x20) then p + 5 else p)
    ensures (l.Some? <==> Has(c[5], 0x20)) && (l.Some? ==> l.value.ticks < TICK_LIMIT)
    ensures LengthBytes(l) == c[p..q]
  {
    l := None;
    if Has(c[5], 0x20) {
      TimedIs(c[p], c[p + 1], c[p + 2], c[p + 3], c[p + 4]);
      l := Some(Length(Has(c[p], 0x80), c[p], Ticks(c[p], c[p + 1], c[p + 2], c[p + 3], c[p + 4])));
      hide Has, Ticks, Timed;
      assert c[p..q] == [c[p], c[p + 1], c[p + 2], c[p + 3], c[p + 4]];
    }
  }

  /** What is accepted is a splice with bytes behind it. */
  lemma {:induction false} AcceptedIsSplice(c: seq<bv8>) returns (s: Splice, n: nat)
    requires DecodeInsert(c).Ok?
    ensures Fits(s) && n <= |c| && c[..n] == SpliceBytes(s)
  {
    AcceptedEnds(c);
    if Has(c[4], 0x80) {
      s, n := CancelIs(c);
    } else {
      s, n := WholeIs(c);
    }
  }

  lemma {:induction false} CancelIs(c: seq<bv8>) returns (s: Splice, n: nat)
    requires 5 <= |c| && Has(c[4], 0x80)
    ensures Fits(s) && n <= |c| && c[..n] == SpliceBytes(s)
  {
    IdIs(c[0], c[1], c[2], c[3]);
    ToppedIs(c[4]);
    s, n := Cancel(Word(c[0], c[1], c[2], c[3]), c[4]), 5;
    hide Has, Word, IdBytes, Topped;
    assert c[..5] == [c[0], c[1], c[2], c[3]] + [c[4]];
  }

  lemma {:induction false} WholeIs(c: seq<bv8>) returns (s: Splice, n: nat)
    requires 6 <= |c| && !Has(c[4], 0x80) && Has(c[5], 0x40) && LengthEnd(c) + 4 <= |c|
    ensures Fits(s) && n <= |c| && c[..n] == SpliceBytes(s)
  {
    var p, q := TimeEnd(c), LengthEnd(c);
    n := q + 4;
    assert 6 <= p <= q && q == (if Has(c[5], 0x20) then p + 5 else p) by { hide Has; }
    hide TimeEnd, LengthEnd;
    var t := TimeIs(c);
    var l := LengthIs(c, p, q);
    s := Whole(Word(c[0], c[1], c[2], c[3]), c[4], Has(c[5], 0x80), c[5], t, l, Paired(c[q], c[q + 1]), c[q + 2],
      c[q + 3]);
    Pieces(c, p, q, n);
    Around(c, s, p, q);
  }

  /** The bytes around the splice time and the length. */
  lemma {:induction false} Around(c: seq<bv8>, s: Splice, p: nat, q: nat)
    requires 6 <= p <= q && q + 4 <= |c| && s.Whole? && !Has(c[4], 0x80) && Has(c[5], 0x40)
    requires s.id == Word(c[0], c[1], c[2], c[3]) && s.reserved == c[4] && s.out == Has(c[5], 0x80) && s.spare == c[5]
    requires (s.time.Immediate? <==> Has(c[5], 0x10)) && (s.length.Some? <==> Has(c[5], 0x20))
    requires s.program == Paired(c[q], c[q + 1]) && s.avail == c[q + 2] && s.expected == c[q + 3]
    ensures SpliceBytes(s) == [c[0], c[1], c[2], c[3]] + [c[4], c[5]] + TimeBytes(s.time)
      + (LengthBytes(s.length) + c[q..q + 4])
  {
    IdIs(c[0], c[1], c[2], c[3]);
    ToppedIs(c[4]);
    ToppedIs(c[5]);
    PairIs(c[q], c[q + 1]);
    hide Has, Word, IdBytes, Topped, TimeBytes, LengthBytes, SpliceFlags, Pair, Paired;
    assert c[q..q + 4] == [c[q], c[q + 1]] + [c[q + 2], c[q + 3]];
  }

  lemma {:induction false} Pieces(c: seq<bv8>, p: nat, q: nat, n: nat)
    requires 6 <= p <= q <= n <= |c|
    ensures c[..n] == [c[0], c[1], c[2], c[3]] + [c[4], c[5]] + c[6..p] + (c[p..q] + c[q..n])
  {
    assert c[..6] == [c[0], c[1], c[2], c[3]] + [c[4], c[5]];
    assert c[..n] == c[..6] + c[6..p] + (c[p..q] + c[q..n]);
  }

  /** A splice_insert is accepted exactly when it is a splice of the whole program, or a cancellation, that fits. */
  lemma {:induction false} InsertIsAcceptedIff(c: seq<bv8>)
    ensures DecodeInsert(c).Ok? <==> exists s: Splice, n: nat :: Fits(s) && n <= |c| && c[..n] == SpliceBytes(s)
  {
    hide DecodeInsert, SpliceBytes, Fits;
    if DecodeInsert(c).Ok? {
      var s, n := AcceptedIsSplice(c);
    }
    forall s: Splice, n: nat | Fits(s) && n <= |c| && c[..n] == SpliceBytes(s) ensures DecodeInsert(c).Ok? {
      FrontIsRead(c, s, n);
    }
  }

  lemma {:induction false} FrontIsRead(c: seq<bv8>, s: Splice, n: nat)
    requires Fits(s) && n <= |c| && c[..n] == SpliceBytes(s)
    ensures DecodeInsert(c) == Ok(Read(s))
  {
    hide DecodeInsert, SpliceBytes, Fits, Read;
    SpliceIsRead(s, c[n..]);
    assert c[..n] + c[n..] == c;
  }

  // ----- sections -----

  /** A section: its length and its check word follow from the rest, and reserved bits may have any value. */
  datatype Frame = Frame(
    flags: bv8, protocol: bv8, encrypted: bool, algorithm: bv8, adjustment: bv64, cwIndex: bv8, tier: bv8, tierEnd: bv8,
    length: nat, command: bv8, payload: seq<bv8>)

  predicate FrameFits(f: Frame) {
    f.adjustment < TICK_LIMIT && f.length < 0x1000 && 15 + |f.payload| < 0x1000
  }

  /** Four bits of flags and a length of twelve bits. */
  function FlaggedLength(flags: bv8, n: nat): (b: seq<bv8>)
    ensures |b| == 2
  {
    [LengthByte(flags & 0xF0, n), Byte(n)]
  }

  /** The section in front of its check word. */
  function FrameBytes(f: Frame): seq<bv8> {
    [TABLE_ID] + FlaggedLength(f.flags, 15 + |f.payload|) + [f.protocol]
    + Timed(f.encrypted, f.algorithm, f.adjustment) + [f.cwIndex, f.tier]
    + FlaggedLength(f.tierEnd, f.length) + [f.command] + f.payload
  }

  lemma {:induction false} FlaggedBits(flags: bv8, n: nat)
    requires n < 0x1000
    ensures var b := FlaggedLength(flags, n); Length12(b[0], b[1]) == n
  {
    ByteOfNat(n / 256);
    ByteOfNat(n % 256);
    assert Byte(n) == Byte(n % 256);
    LowBits(flags, Byte(n / 256));
    hide Byte;
  }

  lemma {:induction false} LowBits(flags: bv8, x: bv8)
    requires x as nat < 16
    ensures ((flags & 0xF0) | (x & 0x0F)) & 0x0F == x
  {
    assert x < 16;
  }

  /** Where the bytes of a section are. */
  lemma {:induction false} FrameIsAt(f: Frame, b: seq<bv8>)
    requires b == Seal(FrameBytes(f))
    ensures |b| == 18 + |f.payload| && b[0] == TABLE_ID && [b[1], b[2]] == FlaggedLength(f.flags, 15 + |f.payload|)
    ensures b[3] == f.protocol && b[4..9] == Timed(f.encrypted, f.algorithm, f.adjustment)
    ensures [b[11], b[12]] == FlaggedLength(f.tierEnd, f.length) && b[13] == f.command
    ensures b[14..|b| - 4] == f.payload
  {
    hide Register, IdBytes, FlaggedLength, Timed;
    assert b[..|b| - 4] == FrameBytes(f);
    FrontOfFrame(f);
    var h := FrameBytes(f);
    assert forall i :: 0 <= i < |h| ==> b[i] == h[i];
    assert b[4..9] == h[4..9] && b[14..|b| - 4] == h[14..];
    hide FrameBytes, Seal;
  }

  lemma {:induction false} FrontOfFrame(f: Frame)
    ensures var h := FrameBytes(f);
      && |h| == 14 + |f.payload| && h[0] == TABLE_ID && [h[1], h[2]] == FlaggedLength(f.flags, 15 + |f.payload|)
      && h[3] == f.protocol && h[4..9] == Timed(f.encrypted, f.algorithm, f.adjustment)
      && [h[11], h[12]] == FlaggedLength(f.tierEnd, f.length) && h[13] == f.command && h[14..] == f.payload
  {
    hide FlaggedLength, Timed;
  }

  /** Every section whose length and check word are right is read to its fields, or refused for one of them. */
  lemma {:induction false} SectionIsRead(f: Frame)
    requires FrameFits(f)
    ensures Decode(Seal(FrameBytes(f))) ==
      if f.protocol != 0 then Err(WrongProtocol)
      else if f.encrypted then Err(Encrypted)
      else if f.length == 0xFFF then Err(UnknownCommandLength)
      else if |f.payload| < f.length + 2 then Err(CommandTooLong)
      else if f.command != CMD_SPLICE_INSERT then Ok(Section(f.adjustment, f.command, None))
      else
        match DecodeInsert(f.payload[..f.length])
        case Ok(insert) => Ok(Section(f.adjustment, f.command, Some(insert)))
        case Err(e) => Err(e)
  {
    hide *;
    FrameReadsAs(f);
    FieldsDecide(f, Seal(FrameBytes(f)));
  }

  /** The bytes of a section give its fields. */
  predicate ReadsAs(f: Frame, b: seq<bv8>) {
    && |b| == 18 + |f.payload| && b[0] == TABLE_ID && Length12(b[1], b[2]) + 3 == |b| && Checked(b)
    && b[3] == f.protocol && (Has(b[4], 0x80) <==> f.encrypted)
    && Ticks(b[4], b[5], b[6], b[7], b[8]) == f.adjustment
    && Length12(b[11], b[12]) == f.length && b[13] == f.command && b[14..|b| - 4] == f.payload
  }

  lemma {:induction false} FrameReadsAs(f: Frame)
    requires FrameFits(f)
    ensures ReadsAs(f, Seal(FrameBytes(f)))
  {
    var b, t := Seal(FrameBytes(f)), Timed(f.encrypted, f.algorithm, f.adjustment);
    FrameIsAt(f, b);
    SealedIsChecked(FrameBytes(f));
    FlaggedBits(f.flags, 15 + |f.payload|);
    FlaggedBits(f.tierEnd, f.length);
    TimedBits(f.encrypted, f.algorithm, f.adjustment);
    FiveBytes(b, t);
    hide Seal, FrameBytes, FlaggedLength, Timed, Checked, Length12, Ticks, Has;
  }

  lemma {:induction false} FiveBytes(b: seq<bv8>, t: seq<bv8>)
    requires 9 <= |b| && b[4..9] == t
    ensures |t| == 5 && b[4] == t[0] && b[5] == t[1] && b[6] == t[2] && b[7] == t[3] && b[8] == t[4]
  {
    assert forall i :: 0 <= i < 5 ==> b[4 + i] == t[i];
  }

  lemma {:induction false} FieldsDecide(f: Frame, b: seq<bv8>)
    requires ReadsAs(f, b)
    ensures Decode(b) ==
      if f.protocol != 0 then Err(WrongProtocol)
      else if f.encrypted then Err(Encrypted)
      else if f.length == 0xFFF then Err(UnknownCommandLength)
      else if |f.payload| < f.length + 2 then Err(CommandTooLong)
      else if f.command != CMD_SPLICE_INSERT then Ok(Section(f.adjustment, f.command, None))
      else
        match DecodeInsert(f.payload[..f.length])
        case Ok(insert) => Ok(Section(f.adjustment, f.command, Some(insert)))
        case Err(e) => Err(e)
  {
    hide Checked, Length12, Ticks, Has, DecodeInsert;
    if f.length + 2 <= |f.payload| {
      assert b[14..14 + f.length] == b[14..|b| - 4][..f.length];
    }
  }

  lemma {:induction false} FlaggedIs(hi: bv8, lo: bv8)
    ensures Length12(hi, lo) < 0x1000 && FlaggedLength(hi, Length12(hi, lo)) == [hi, lo]
  {
    var n := Length12(hi, lo);
    UpperBits(hi);
    assert n / 256 == (hi & 0x0F) as nat && n % 256 == lo as nat;
    NatOfByte(hi & 0x0F);
    NatOfByte(lo);
    assert Byte(n) == Byte(n % 256);
    hide Byte, Length12;
  }

  lemma {:induction false} UpperBits(hi: bv8)
    ensures hi & 0x0F < 16 && (hi & 0x0F) as nat < 16
    ensures (hi & 0xF0) | (hi & 0x0F & 0x0F) == hi
  {
    assert hi & 0x0F < 16;
  }

  lemma {:induction false} NatOfByte(x: bv8)
    ensures x as nat < 256 && Byte(x as nat) == x
  {
    assert x as nat % 256 == x as nat;
  }

  /** The fields in these bytes. */
  function FrameOf(b: seq<bv8>): Frame
    requires 18 <= |b|
  {
    Frame(b[1], b[3], Has(b[4], 0x80), b[4], Ticks(b[4], b[5], b[6], b[7], b[8]), b[9], b[10], b[11],
      Length12(b[11], b[12]), b[13], b[14..|b| - 4])
  }

  /** Whatever has the table id and the right length and check word is a section. */
  lemma {:induction false} CheckedIsFrame(b: seq<bv8>)
    requires 18 <= |b| && b[0] == TABLE_ID && Length12(b[1], b[2]) + 3 == |b| && Checked(b)
    ensures FrameFits(FrameOf(b)) && b == Seal(FrameBytes(FrameOf(b)))
  {
    FlaggedIs(b[1], b[2]);
    FlaggedIs(b[11], b[12]);
    TimedIs(b[4], b[5], b[6], b[7], b[8]);
    hide Checked, FlaggedLength, Timed, Length12, Ticks, Has, Seal, FrameBytes;
    FrameOfBytes(b);
    CheckedIsSealed(b);
  }

  lemma {:induction false} FrameOfBytes(b: seq<bv8>)
    requires 18 <= |b| && b[0] == TABLE_ID && FlaggedLength(b[1], |b| - 3) == [b[1], b[2]]
    requires FlaggedLength(b[11], Length12(b[11], b[12])) == [b[11], b[12]]
    requires Timed(Has(b[4], 0x80), b[4], Ticks(b[4], b[5], b[6], b[7], b[8])) == [b[4], b[5], b[6], b[7], b[8]]
    ensures FrameBytes(FrameOf(b)) == b[..|b| - 4]
  {
    hide FlaggedLength, Timed, Length12, Ticks, Has;
    Fourteen(b, |b| - 4);
  }

  lemma {:induction false} Fourteen(b: seq<bv8>, n: nat)
    requires 14 <= n <= |b|
    ensures b[..n] == [b[0]] + [b[1], b[2]] + [b[3]] + [b[4], b[5], b[6], b[7], b[8]] + [b[9], b[10]]
      + [b[11], b[12]] + [b[13]] + b[14..n]
  {
  }

  lemma {:induction false} CheckedIsSealed(b: seq<bv8>)
    requires 4 <= |b| && Checked(b)
    ensures b == Seal(b[..|b| - 4])
  {
    var n := |b| - 4;
    IdIs(b[n], b[n + 1], b[n + 2], b[n + 3]);
    hide Register, IdBytes, Word;
    assert b == b[..n] + [b[n], b[n + 1], b[n + 2], b[n + 3]];
  }

  /** Nothing in a section is what the program refuses. */
  ghost predicate Acceptable(f: Frame) {
    && FrameFits(f) && f.protocol == 0 && !f.encrypted && f.length != 0xFFF && f.length + 2 <= |f.payload|
    && (f.command == CMD_SPLICE_INSERT ==>
        exists s: Splice, n: nat :: Fits(s) && n <= f.length && f.payload[..n] == SpliceBytes(s))
  }

  /** The decoder accepts exactly the sections of version 0 that are not encrypted and hold a whole command. */
  lemma {:induction false} SectionIsAcceptedIff(b: seq<bv8>)
    ensures Decode(b).Ok? <==> exists f: Frame :: Acceptable(f) && b == Seal(FrameBytes(f))
  {
    hide Seal, FrameBytes, FrameOf, Acceptable, Checked, DecodeInsert, Length12, Ticks;
    if Decode(b).Ok? {
      CheckedIsFrame(b);
      AcceptableIff(FrameOf(b));
    }
    hide Decode;
    forall f: Frame | Acceptable(f) && b == Seal(FrameBytes(f)) ensures Decode(b).Ok? {
      FitsWhenAcceptable(f);
      AcceptableIff(f);
    }
  }

  lemma {:induction false} FitsWhenAcceptable(f: Frame)
    requires Acceptable(f)
    ensures FrameFits(f)
  {
  }

  lemma {:induction false} AcceptableIff(f: Frame)
    requires FrameFits(f)
    ensures Decode(Seal(FrameBytes(f))).Ok? <==> Acceptable(f)
  {
    SectionIsRead(f);
    hide Seal, FrameBytes, Decode, DecodeInsert, SpliceBytes, Fits;
    if f.length + 2 <= |f.payload| {
      var c := f.payload[..f.length];
      InsertIsAcceptedIff(c);
      assert forall n: nat :: n <= f.length ==> c[..n] == f.payload[..n];
    }
  }
}
