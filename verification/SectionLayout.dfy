/**
 The bits of an encoded section, field by field, as the syntax of splice_info_section(),
 splice_insert(), splice_time() and break_duration() in ANSI/SCTE 35 lists them.
 */
module SectionLayout {
  import opened Common
  import opened Crc
  import opened CrcRemainder
  import opened Scte35

  /** The lower twelve bits of a length. */
  function Bits12(n: nat): Bits { Bits8(Byte(n / 256))[4..] + Bits8(Byte(n)) }

  function Bits16(id: bv16): Bits { Bits8((id >> 8) as bv8) + Bits8((id & 0xFF) as bv8) }

  /** The lower 33 bits of a tick count. */
  function Bits33(t: bv64): Bits { [(t >> 32) & 1 != 0] + Bits32((t & 0xFFFF_FFFF) as bv32) }

  /** splice_time() with a time. */
  function SpliceTime(pts: bv64): Bits {
    [true]           // time_specified_flag
    + Ones(6)        // reserved
    + Bits33(pts)    // pts_time
  }

  function BreakDuration(auto: bool, ticks: bv64): Bits {
    [auto]           // auto_return
    + Ones(6)        // reserved
    + Bits33(ticks)  // duration
  }

  function InsertBits(s: SpliceInsert): Bits
    requires s.cancel || s.immediate || s.pts.Some?
  {
    Bits32(s.eventId)    // splice_event_id
    + ([s.cancel]        // splice_event_cancel_indicator
    + Ones(7)            // reserved
    + if s.cancel then [] else
        [s.out,                   // out_of_network_indicator
         true,                    // program_splice_flag
         s.durationTicks > 0,     // duration_flag
         s.immediate]             // splice_immediate_flag
        + Ones(4)                 // reserved
        + (if s.immediate then [] else SpliceTime(s.pts.value))
        + ((if s.durationTicks > 0 then BreakDuration(s.autoReturn, s.durationTicks) else [])
        + (Bits16(s.uniqueProgramId)     // unique_program_id
        + Bits8(s.availNum)              // avail_num
        + Bits8(s.availsExpected))))     // avails_expected
  }

  /** Everything in front of a command of n bytes. */
  function HeadBits(command: bv8, n: nat): Bits {
    Bits8(0xFC)                          // table_id
    + ([false] + [false] + [true, true]  // section_syntax_indicator, private_indicator, sap_type
    + Bits12(n + 17))                    // section_length: what follows it, with the check word
    + Zeros(8)                           // protocol_version
    + ([false] + Zeros(6) + Zeros(33))   // encrypted_packet, encryption_algorithm, pts_adjustment
    + Ones(8)                            // cw_index
    + (Ones(12) + Bits12(n))             // tier, splice_command_length
    + Bits8(command)                     // splice_command_type
  }

  // ----- bytes and their bits -----

  lemma {:induction false} BitsConcat(a: seq<bv8>, b: seq<bv8>)
    ensures BitsOf(a + b) == BitsOf(a) + BitsOf(b)
  {
    hide Bits8;
    if a == [] {
      assert a + b == b;
    } else {
      assert (a + b)[1..] == a[1..] + b;
      BitsConcat(a[1..], b);
    }
  }

  lemma {:induction false} BitsOfFour(a: bv8, b: bv8, c: bv8, d: bv8)
    ensures BitsOf([a, b, c, d]) == Bits8(a) + Bits8(b) + Bits8(c) + Bits8(d)
  {
    hide Bits8;
    assert [a, b, c, d][1..] == [b, c, d] && [b, c, d][1..] == [c, d] && [c, d][1..] == [d];
    assert BitsOf([d]) == Bits8(d) + BitsOf([]) by { assert [d][1..] == []; }
    assert BitsOf([c, d]) == Bits8(c) + BitsOf([d]);
    assert BitsOf([b, c, d]) == Bits8(b) + BitsOf([c, d]);
  }

  lemma {:induction false} BitsOfOne(a: bv8)
    ensures BitsOf([a]) == Bits8(a)
  {
    hide Bits8;
    assert [a][1..] == [];
  }

  lemma {:induction false} BitsOfId(id: bv32)
    ensures BitsOf(IdBytes(id)) == Bits32(id)
  {
    var b := IdBytes(id);
    assert b[0] == Byte0(id) && b[1] == Byte1(id) && b[2] == Byte2(id) && b[3] == Byte3(id);
    hide IdBytes, Byte0, Byte1, Byte2, Byte3, Bits8;
    BitsOfFour(b[0], b[1], b[2], b[3]);
    assert b == [b[0], b[1], b[2], b[3]];
  }

  lemma {:induction false} FlagBytes(s: SpliceInsert)
    ensures Bits8(Flags(s)) == [s.out, true, s.durationTicks > 0, s.immediate] + Ones(4)
  {
    FlagBits(s);
    EightBits(Flags(s));
    hide Flags, Has8, Bits8;
  }

  lemma {:induction false} FlagBits(s: SpliceInsert)
    ensures var f := Flags(s);
      && (Has8(f, 0x80) <==> s.out) && Has8(f, 0x40) && (Has8(f, 0x20) <==> s.durationTicks > 0)
      && (Has8(f, 0x10) <==> s.immediate) && Has8(f, 0x08) && Has8(f, 0x04) && Has8(f, 0x02) && Has8(f, 0x01)
  {
  }

  /** The first of five tick bytes: a flag, six ones and the highest bit of the count. */
  lemma {:induction false} LeadBits(lead: bv8, t: bv64)
    requires lead == 0xFE || lead == 0x7E
    ensures Bits8(TickBytes(lead, t)[0]) == [lead == 0xFE] + Ones(6) + [(t >> 32) & 1 != 0]
  {
    var x := TickBytes(lead, t)[0];
    LeadHas(lead, t, x);
    EightBits(x);
    hide TickBytes, Has8, Bits8;
  }

  lemma {:induction false} LeadHas(lead: bv8, t: bv64, x: bv8)
    requires (lead == 0xFE || lead == 0x7E) && x == lead | ((t >> 32) & 1) as bv8
    ensures (Has8(x, 0x80) <==> lead == 0xFE) && Has8(x, 0x40) && Has8(x, 0x20) && Has8(x, 0x10)
    ensures Has8(x, 0x08) && Has8(x, 0x04) && Has8(x, 0x02) && (Has8(x, 0x01) <==> (t >> 32) & 1 != 0)
  {
    LowBit((t >> 32) & 1);
  }

  lemma {:induction false} LowBit(y: bv64)
    requires y == 0 || y == 1
    ensures y as bv8 == (if y == 0 then 0 else 1)
  {
  }

  lemma {:induction false} TickRest(lead: bv8, t: bv64)
    ensures var b, w := TickBytes(lead, t), (t & 0xFFFF_FFFF) as bv32;
      b[1] == Byte0(w) && b[2] == Byte1(w) && b[3] == Byte2(w) && b[4] == Byte3(w)
  {
  }

  lemma {:induction false} WordBits(w: bv32, b: seq<bv8>)
    requires b == [Byte0(w), Byte1(w), Byte2(w), Byte3(w)]
    ensures BitsOf(b) == Bits32(w)
  {
    hide Byte0, Byte1, Byte2, Byte3, Bits8;
    BitsOfFour(b[0], b[1], b[2], b[3]);
  }

  lemma {:induction false} Regroup(a: Bits, b: Bits, c: Bits, d: Bits)
    ensures a + b + c + d == a + b + (c + d)
  {
  }

  lemma {:induction false} TickBits(lead: bv8, t: bv64)
    requires lead == 0xFE || lead == 0x7E
    ensures BitsOf(TickBytes(lead, t)) == [lead == 0xFE] + Ones(6) + Bits33(t)
  {
    var b, w := TickBytes(lead, t), (t & 0xFFFF_FFFF) as bv32;
    LeadBits(lead, t);
    TickRest(lead, t);
    hide TickBytes, Byte0, Byte1, Byte2, Byte3, Bits8;
    var rest := [b[1], b[2], b[3], b[4]];
    WordBits(w, rest);
    BitsOfOne(b[0]);
    BitsConcat([b[0]], rest);
    assert b == [b[0]] + rest;
    hide BitsOf, Bits32;
    Regroup([lead == 0xFE], Ones(6), [(t >> 32) & 1 != 0], Bits32(w));
  }

  lemma {:induction false} LengthBits(flags: bv8, n: nat)
    requires flags == 0x30 || flags == 0xF0
    ensures Bits8(LengthByte(flags, n))[..4] == (if flags == 0x30 then [false, false, true, true] else Ones(4))
    ensures Bits8(LengthByte(flags, n))[4..] == Bits8(Byte(n / 256))[4..]
  {
    var x, y := LengthByte(flags, n), Byte(n / 256);
    LengthHas(flags, y);
    EightBits(x);
    EightBits(y);
    hide Has8, Bits8, Byte;
  }

  lemma {:induction false} LengthHas(flags: bv8, y: bv8)
    requires flags == 0x30 || flags == 0xF0
    ensures var x := flags | (y & 0x0F);
      && (Has8(x, 0x80) <==> flags == 0xF0) && (Has8(x, 0x40) <==> flags == 0xF0) && Has8(x, 0x20) && Has8(x, 0x10)
      && Has8(x, 0x08) == Has8(y, 0x08) && Has8(x, 0x04) == Has8(y, 0x04)
      && Has8(x, 0x02) == Has8(y, 0x02) && Has8(x, 0x01) == Has8(y, 0x01)
  {
  }

  // ----- the command -----

  lemma {:induction false} IdOfProgram(id: bv16)
    ensures BitsOf(Pair(id)) == Bits16(id)
  {
    hide Bits8;
    BitsOfOne((id >> 8) as bv8);
    BitsOfOne((id & 0xFF) as bv8);
    BitsConcat([(id >> 8) as bv8], [(id & 0xFF) as bv8]);
    assert Pair(id) == [(id >> 8) as bv8] + [(id & 0xFF) as bv8];
  }

  lemma {:induction false} TwoBits(x: bv8, y: bv8)
    ensures BitsOf([x, y]) == Bits8(x) + Bits8(y)
  {
    hide Bits8;
    BitsOfOne(x);
    BitsOfOne(y);
    BitsConcat([x], [y]);
    assert [x, y] == [x] + [y];
    hide BitsOf;
  }

  /** The bits of three parts, the last of two bytes. */
  lemma {:induction false} BitsOfThree(a: seq<bv8>, b: seq<bv8>, x: bv8, y: bv8)
    ensures BitsOf(a + b + [x, y]) == BitsOf(a) + (BitsOf(b) + Bits8(x) + Bits8(y))
  {
    TwoBits(x, y);
    BitsConcat(a, b);
    BitsConcat(a + b, [x, y]);
    hide BitsOf, Bits8;
    Regroup([], BitsOf(a), BitsOf(b), Bits8(x) + Bits8(y));
    Regroup([], BitsOf(b), Bits8(x), Bits8(y));
    assert BitsOf(a) + BitsOf(b) + (Bits8(x) + Bits8(y)) == BitsOf(a) + (BitsOf(b) + Bits8(x) + Bits8(y));
  }

  lemma {:induction false} NoBits()
    ensures BitsOf([]) == []
  {
  }

  lemma {:induction false} DurationBits(s: SpliceInsert)
    ensures BitsOf(if s.durationTicks > 0 then TickBytes(ReturnFlag(s.autoReturn), s.durationTicks) else []) ==
      if s.durationTicks > 0 then BreakDuration(s.autoReturn, s.durationTicks) else []
  {
    TickBits(ReturnFlag(s.autoReturn), s.durationTicks);
    NoBits();
    hide TickBytes, Bits33, BitsOf;
  }

  lemma {:induction false} TailBits(s: SpliceInsert)
    ensures BitsOf(Tail(s)) == (if s.durationTicks > 0 then BreakDuration(s.autoReturn, s.durationTicks) else [])
      + (Bits16(s.uniqueProgramId) + Bits8(s.availNum) + Bits8(s.availsExpected))
  {
    DurationBits(s);
    IdOfProgram(s.uniqueProgramId);
    hide TickBytes, Bits8, Bits33, Bits16, Pair, BitsOf, BreakDuration, ReturnFlag;
    BitsOfThree(if s.durationTicks > 0 then TickBytes(ReturnFlag(s.autoReturn), s.durationTicks) else [],
      Pair(s.uniqueProgramId), s.availNum, s.availsExpected);
  }

  lemma {:induction false} TimeBits(s: SpliceInsert)
    requires s.immediate || s.pts.Some?
    ensures BitsOf(if s.immediate then [] else TickBytes(0xFE, s.pts.value)) ==
      if s.immediate then [] else SpliceTime(s.pts.value)
  {
    NoBits();
    if !s.immediate { TickBits(0xFE, s.pts.value); }
    hide TickBytes, Bits33, BitsOf;
  }

  /** The bits of an id, a mark, flags and two more parts. */
  lemma {:induction false} BitsOfFive(id: seq<bv8>, mark: bv8, flags: bv8, time: seq<bv8>, tail: seq<bv8>)
    ensures BitsOf(id + ([mark, flags] + time + tail)) ==
      BitsOf(id) + (Bits8(mark) + (Bits8(flags) + BitsOf(time) + BitsOf(tail)))
  {
    TwoBits(mark, flags);
    BitsConcat([mark, flags], time);
    BitsConcat([mark, flags] + time, tail);
    BitsConcat(id, [mark, flags] + time + tail);
    hide BitsOf, Bits8;
    assert Bits8(mark) + Bits8(flags) + BitsOf(time) + BitsOf(tail)
        == Bits8(mark) + (Bits8(flags) + BitsOf(time) + BitsOf(tail));
  }

  /** The command is the syntax of splice_insert(). */
  lemma {:induction false} CommandBits(s: SpliceInsert)
    requires s.cancel || s.immediate || s.pts.Some?
    ensures BitsOf(Command(s)) == InsertBits(s)
  {
    BitsOfId(s.eventId);
    MarkBytes();
    if s.cancel {
      BitsConcat(IdBytes(s.eventId), [0xFF]);
      BitsOfOne(0xFF);
      hide BitsOf, IdBytes, Bits32, Bits8;
      assert [true] + Ones(7) + [] == [true] + Ones(7);
    } else {
      FlagBytes(s);
      TailBits(s);
      TimeBits(s);
      hide IdBytes, Bits32, Bits8, Tail, TickBytes, Flags, Bits33, Bits16, BitsOf, SpliceTime, BreakDuration;
      BitsOfFive(IdBytes(s.eventId), 0x7F, Flags(s), if s.immediate then [] else TickBytes(0xFE, s.pts.value), Tail(s));
    }
  }

  lemma {:induction false} MarkBytes()
    ensures Bits8(0xFF) == [true] + Ones(7) && Bits8(0x7F) == [false] + Ones(7)
  {
    FixedBytes();
    EightBits(0x7F);
    assert !Has8(0x7F, 0x80) && Has8(0x7F, 0x40) && Has8(0x7F, 0x20) && Has8(0x7F, 0x10);
    assert Has8(0x7F, 0x08) && Has8(0x7F, 0x04) && Has8(0x7F, 0x02) && Has8(0x7F, 0x01);
    hide Has8, Bits8;
  }

  // ----- the section -----

  lemma {:induction false} EightBytes(a: bv8, b: bv8, c: bv8, d: bv8, e: bv8, f: bv8, g: bv8, h: bv8)
    ensures BitsOf([a, b, c, d, e, f, g, h]) ==
      Bits8(a) + Bits8(b) + Bits8(c) + Bits8(d) + (Bits8(e) + Bits8(f) + Bits8(g) + Bits8(h))
  {
    hide Bits8;
    BitsOfFour(a, b, c, d);
    BitsOfFour(e, f, g, h);
    BitsConcat([a, b, c, d], [e, f, g, h]);
    assert [a, b, c, d, e, f, g, h] == [a, b, c, d] + [e, f, g, h];
    hide BitsOf;
  }

  lemma {:induction false} HeaderBits(command: bv8, n: nat)
    ensures BitsOf(Header(command, n)) == HeadBits(command, n)
  {
    var h := Header(command, n);
    assert h == h[..8] + h[8..12] + [h[12], h[13]];
    FirstEight(command, n, h);
    NextFour(command, n, h);
    hide Bits8, LengthByte, Byte, Header;
    BitsOfThree(h[..8], h[8..12], h[12], h[13]);
    hide BitsOf;
    HeadParts(command, n);
  }

  lemma {:induction false} FirstEight(command: bv8, n: nat, h: seq<bv8>)
    requires h == Header(command, n)
    ensures BitsOf(h[..8]) == Bits8(0xFC) + ([false, false, true, true] + Bits12(n + 17)) + Zeros(8) + Zeros(32)
    ensures h[12] == Byte(n) && h[13] == command
  {
    var x, y := LengthByte(0x30, n + 17), Byte(n + 17);
    assert h[..8] == [0xFC, x, y, 0, 0, 0, 0, 0];
    LengthBits(0x30, n + 17);
    FixedBytes();
    hide Bits8, LengthByte, Byte, Header;
    EightBytes(0xFC, x, y, 0, 0, 0, 0, 0);
    hide BitsOf;
    FirstParts(Bits8(0xFC), Bits8(x), Bits8(Byte((n + 17) / 256)), Bits8(y));
  }

  lemma {:induction false} FirstParts(a: Bits, x: Bits, z: Bits, y: Bits)
    requires |x| == |z| == |y| == 8 && x[..4] == [false, false, true, true] && x[4..] == z[4..]
    ensures a + x + y + Zeros(8) + (Zeros(8) + Zeros(8) + Zeros(8) + Zeros(8))
      == a + ([false, false, true, true] + (z[4..] + y)) + Zeros(8) + Zeros(32)
  {
    assert x == [false, false, true, true] + z[4..];
    assert Zeros(8) + Zeros(8) + Zeros(8) + Zeros(8) == Zeros(32);
    Regroup(a, [false, false, true, true], z[4..], y);
    assert a + ([false, false, true, true] + z[4..]) + y == a + ([false, false, true, true] + (z[4..] + y));
  }

  lemma {:induction false} NextFour(command: bv8, n: nat, h: seq<bv8>)
    requires h == Header(command, n)
    ensures BitsOf(h[8..12]) == Zeros(8) + Ones(8) + (Ones(12) + Bits8(Byte(n / 256))[4..])
  {
    var x := LengthByte(0xF0, n);
    assert h[8..12] == [0, 0xFF, 0xFF, x];
    LengthBits(0xF0, n);
    FixedBytes();
    hide Bits8, LengthByte, Byte, Header;
    BitsOfFour(0, 0xFF, 0xFF, x);
    hide BitsOf;
    NextParts(Bits8(x), Bits8(Byte(n / 256)));
  }

  lemma {:induction false} NextParts(x: Bits, z: Bits)
    requires |x| == |z| == 8 && x[..4] == Ones(4) && x[4..] == z[4..]
    ensures Zeros(8) + Ones(8) + Ones(8) + x == Zeros(8) + Ones(8) + (Ones(12) + z[4..])
  {
    assert x == Ones(4) + z[4..];
    assert Ones(12) == Ones(8) + Ones(4);
  }

  lemma {:induction false} HeadParts(command: bv8, n: nat)
    ensures HeadBits(command, n) == Bits8(0xFC) + ([false, false, true, true] + Bits12(n + 17)) + Zeros(8) + Zeros(32)
      + (Zeros(8) + Ones(8) + (Ones(12) + Bits8(Byte(n / 256))[4..]) + Bits8(Byte(n)) + Bits8(command))
  {
    var a := Bits8(0xFC) + ([false, false, true, true] + Bits12(n + 17));
    var z, y := Bits8(Byte(n / 256))[4..], Bits8(Byte(n));
    assert [false] + [false] + [true, true] == [false, false, true, true];
    HeadZeros();
    hide Bits8, Byte;
    Spread(a, z, y, Bits8(command));
  }

  lemma {:induction false} HeadZeros()
    ensures [false] + Zeros(6) + Zeros(33) == Zeros(32) + Zeros(8)
  {
  }

  lemma {:induction false} Spread(a: Bits, z: Bits, y: Bits, c: Bits)
    ensures a + Zeros(8) + (Zeros(32) + Zeros(8)) + Ones(8) + (Ones(12) + (z + y)) + c
      == a + Zeros(8) + Zeros(32) + (Zeros(8) + Ones(8) + (Ones(12) + z) + y + c)
  {
  }

  /**
   Every encoded message is the standard's list of fields, the command between its header and an empty
   descriptor loop, and behind them the remainder of their division as the check word.
   */
  lemma {:induction false} EncodedBits(s: SpliceInsert)
    requires Encode(s).Ok?
    ensures var b, head, insert := Encode(s).value, HeadBits(CMD_SPLICE_INSERT, |Command(s)|), InsertBits(s);
      var fields := head + insert + Zeros(16);
      && |insert| == 8 * |Command(s)| && |fields| + 32 == 8 * |b|
      && BitsOf(b)[..|fields|] == fields
      && IsRemainder(Preset(Ones(32), fields + Zeros(32)), Generator(), BitsOf(b)[|fields|..])
  {
    var framed := Framed(CMD_SPLICE_INSERT, Command(s));
    var crc := Register(PRESET, framed);
    HeaderBits(CMD_SPLICE_INSERT, |Command(s)|);
    CommandBits(s);
    EmptyLoop();
    BitsOfId(crc);
    CheckWordIsRemainder(framed, Bits32(crc));
    assert |Framed(CMD_SPLICE_INSERT, Command(s))| == 16 + |Command(s)|;
    hide IdBytes, Register, Command, Header, HeadBits, InsertBits, Bits32, Bits8, IsRemainder, Generator;
    BitsConcat(Header(CMD_SPLICE_INSERT, |Command(s)|), Command(s));
    BitsConcat(Header(CMD_SPLICE_INSERT, |Command(s)|) + Command(s), [0x00, 0x00]);
    BitsConcat(framed, IdBytes(crc));
    hide BitsOf;
  }

  lemma {:induction false} EmptyLoop()
    ensures BitsOf([0x00, 0x00]) == Zeros(16)
  {
    FixedBytes();
    hide Bits8;
    BitsOfOne(0);
    BitsConcat([0x00], [0x00]);
    assert [0x00 as bv8, 0x00] == [0x00] + [0x00];
  }
}
