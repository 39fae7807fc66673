/**
 The splice_info_section of SCTE-35 with a splice_insert command: the encoder, the
 decoder with all its refusals, and what they promise each other.
 */
module Scte35 {
  import opened Common
  import opened Crc

  const TABLE_ID: bv8 := 0xFC
  const CMD_NULL: bv8 := 0x00
  const CMD_SPLICE_INSERT: bv8 := 0x05
  const TICK_RATE: bv64 := 90000
  const TICK_LIMIT: bv64 := 0x2_0000_0000 // times and durations have 33 bits

  datatype SpliceInsert = SpliceInsert(
    eventId: bv32,
    cancel: bool,
    out: bool,
    immediate: bool,
    pts: Option<bv64>,
    durationTicks: bv64,
    autoReturn: bool,
    uniqueProgramId: bv16,
    availNum: bv8,
    availsExpected: bv8)

  datatype Section = Section(ptsAdjustment: bv64, commandType: bv8, insert: Option<SpliceInsert>)

  datatype Error =
    | DurationTooLong | TimeTooLong | TimeMissing
    | TooShort | WrongTable | WrongLength | WrongCrc | WrongProtocol | Encrypted
    | UnknownCommandLength | CommandTooLong | InsertCutShort | ComponentSplice

  // ----- fields -----

  function Byte(n: nat): bv8 { (n % 256) as bv8 }

  /** The upper four bits of a 12-bit length under four bits of flags. */
  function LengthByte(flags: bv8, n: nat): bv8 { flags | (Byte(n / 256) & 0x0F) }

  /** The lower four bits of one byte on top of the next one: the 12-bit lengths of the section. */
  function Length12(hi: bv8, lo: bv8): nat { (hi & 0x0F) as nat * 256 + lo as nat }

  function IdBytes(id: bv32): (b: seq<bv8>)
    ensures |b| == 4
  {
    [(id >> 24) as bv8, ((id >> 16) & 0xFF) as bv8, ((id >> 8) & 0xFF) as bv8, (id & 0xFF) as bv8]
  }

  /** Five bytes that hold a 33-bit tick count under seven bits of flags. */
  function TickBytes(lead: bv8, t: bv64): (b: seq<bv8>)
    ensures |b| == 5
  {
    [lead | ((t >> 32) & 1) as bv8,
     ((t >> 24) & 0xFF) as bv8, ((t >> 16) & 0xFF) as bv8, ((t >> 8) & 0xFF) as bv8, (t & 0xFF) as bv8]
  }

  function Ticks(c0: bv8, c1: bv8, c2: bv8, c3: bv8, c4: bv8): bv64 {
    ((c0 & 1) as bv64 << 32) | (c1 as bv64 << 24) | (c2 as bv64 << 16) | (c3 as bv64 << 8) | c4 as bv64
  }

  predicate Has(b: bv8, bit: bv8) { b & bit != 0 }

  function Pair(id: bv16): (b: seq<bv8>)
    ensures |b| == 2
  {
    [(id >> 8) as bv8, (id & 0xFF) as bv8]
  }

  function Paired(hi: bv8, lo: bv8): bv16 { (hi as bv16 << 8) | lo as bv16 }

  function ReturnFlag(auto: bool): bv8 { if auto then 0xFE else 0x7E }

  function Flags(s: SpliceInsert): bv8 {
    0x4F | (if s.out then 0x80 else 0) | (if s.durationTicks > 0 then 0x20 else 0) | (if s.immediate then 0x10 else 0)
  }

  // ----- encoder -----

  /** What follows the splice time in an encoded command. */
  function Tail(s: SpliceInsert): seq<bv8> {
    (if s.durationTicks > 0 then TickBytes(ReturnFlag(s.autoReturn), s.durationTicks) else [])
    + Pair(s.uniqueProgramId) + [s.availNum, s.availsExpected]
  }

  /** The splice_insert command; s has passed the checks of Encode. */
  function Command(s: SpliceInsert): seq<bv8>
    requires s.cancel || s.immediate || s.pts.Some?
  {
    IdBytes(s.eventId) +
    if s.cancel then [0xFF] else
      [0x7F, Flags(s)]
      + (if s.immediate then [] else TickBytes(0xFE, s.pts.value))
      + Tail(s)
  }

  /** The fourteen bytes in front of a command of n bytes. */
  function Header(command: bv8, n: nat): (b: seq<bv8>)
    ensures |b| == 14
  {
    var length := 13 + n + 4;
    [TABLE_ID, LengthByte(0x30, length), Byte(length),
     0x00, 0x00, 0x00, 0x00, 0x00, 0x00, 0xFF, 0xFF, LengthByte(0xF0, n), Byte(n), command]
  }

  /** Everything of the section in front of its check word. */
  function Framed(command: bv8, cmd: seq<bv8>): seq<bv8> {
    Header(command, |cmd|) + cmd + [0x00, 0x00]
  }

  function Seal(b: seq<bv8>): seq<bv8> { b + IdBytes(Register(PRESET, b)) }

  /** Why a splice_insert cannot be encoded, if it cannot. */
  function Refusal(s: SpliceInsert): Option<Error> {
    if s.durationTicks >= TICK_LIMIT then Some(DurationTooLong)
    else if s.pts.Some? && s.pts.value >= TICK_LIMIT then Some(TimeTooLong)
    else if !s.cancel && !s.immediate && s.pts.None? then Some(TimeMissing)
    else None
  }

  function Encode(s: SpliceInsert): Result<seq<bv8>, Error> {
    match Refusal(s)
    case Some(e) => Err(e)
    case None => Ok(Seal(Framed(CMD_SPLICE_INSERT, Command(s))))
  }

  /** The message that starts a break of the given length; the product wraps at 64 bits. */
  function Out(eventId: bv32, seconds: bv64): Result<seq<bv8>, Error> {
    Encode(SpliceInsert(eventId, false, true, true, None, seconds * TICK_RATE, true, 0, 0, 1))
  }

  /** The message that ends the break. */
  function In(eventId: bv32): Result<seq<bv8>, Error> {
    Encode(SpliceInsert(eventId, false, false, true, None, 0, false, 0, 0, 0))
  }

  /** The heartbeat that says nothing is spliced. */
  function Null(): seq<bv8> { Seal(Framed(CMD_NULL, [])) }

  // ----- decoder -----

  function Decode(b: seq<bv8>): Result<Section, Error> {
    if |b| < 18 then Err(TooShort)
    else if b[0] != TABLE_ID then Err(WrongTable)
    else if Length12(b[1], b[2]) + 3 != |b| then Err(WrongLength)
    else if !Checked(b) then Err(WrongCrc)
    else if b[3] != 0 then Err(WrongProtocol)
    else if Has(b[4], 0x80) then Err(Encrypted)
    else
      var adjustment := Ticks(b[4], b[5], b[6], b[7], b[8]);
      var cmdLen := Length12(b[11], b[12]);
      if cmdLen == 0xFFF then Err(UnknownCommandLength)
      else if 14 + cmdLen > |b| - 4 - 2 then Err(CommandTooLong)
      else if b[13] != CMD_SPLICE_INSERT then Ok(Section(adjustment, b[13], None))
      else
        match DecodeInsert(b[14..14 + cmdLen])
        case Ok(insert) => Ok(Section(adjustment, b[13], Some(insert)))
        case Err(e) => Err(e)
  }

  function DecodeInsert(c: seq<bv8>): Result<SpliceInsert, Error> {
    if |c| < 5 then Err(InsertCutShort) else
      var id := Word(c[0], c[1], c[2], c[3]);
      if Has(c[4], 0x80) then Ok(Cancelled(id))
      else if |c| < 6 then Err(InsertCutShort)
      else if !Has(c[5], 0x40) then Err(ComponentSplice)
      else
        var immediate := Has(c[5], 0x10);
        if !immediate && |c| < 7 then Err(InsertCutShort) else
          var timed := !immediate && Has(c[6], 0x80);
          if timed && |c| < 11 then Err(InsertCutShort) else
            var pts := if timed then Some(Ticks(c[6], c[7], c[8], c[9], c[10])) else None;
            var p := if immediate then 6 else if timed then 11 else 7;
            DecodeTail(id, c, immediate, pts, p)
  }

  /** The part of splice_insert after the splice time, from position p. */
  function DecodeTail(id: bv32, c: seq<bv8>, immediate: bool, pts: Option<bv64>, p: nat): Result<SpliceInsert, Error>
    requires 6 <= p <= |c|
  {
    var hasDuration := Has(c[5], 0x20);
    if hasDuration && |c| < p + 5 then Err(InsertCutShort) else
      var q := if hasDuration then p + 5 else p;
      if |c| < q + 4 then Err(InsertCutShort) else
        Ok(SpliceInsert(
          id, false, Has(c[5], 0x80), immediate, pts,
          if hasDuration then Ticks(c[p], c[p + 1], c[p + 2], c[p + 3], c[p + 4]) else 0,
          hasDuration && Has(c[p], 0x80),
          Paired(c[q], c[q + 1]), c[q + 2], c[q + 3]))
  }

  function Cancelled(id: bv32): SpliceInsert {
    SpliceInsert(id, true, false, false, None, 0, false, 0, 0, 0)
  }

  // ----- field round trips -----

  lemma {:induction false} ByteOfNat(n: nat)
    requires n < 256
    ensures Byte(n) as nat == n
  {
    assert n % 256 == n;
  }

  lemma {:induction false} LengthOfSmall(n: nat)
    requires n < 256
    ensures Length12(LengthByte(0x30, n), Byte(n)) == n
    ensures Length12(LengthByte(0xF0, n), Byte(n)) == n
  {
    ByteOfNat(n);
    assert n / 256 == 0;
    assert Byte(0) == 0;
    assert (0x30 | ((0 as bv8) & 0x0F)) & 0x0F == 0;
    assert (0xF0 | ((0 as bv8) & 0x0F)) & 0x0F == 0;
  }

  lemma {:induction false} IdRoundTrip(id: bv32)
    ensures var b := IdBytes(id); Word(b[0], b[1], b[2], b[3]) == id
  {
  }

  lemma {:induction false} TickRoundTrip(lead: bv8, t: bv64)
    requires t < TICK_LIMIT && lead & 1 == 0
    ensures var b := TickBytes(lead, t); Ticks(b[0], b[1], b[2], b[3], b[4]) == t
    ensures Has(TickBytes(lead, t)[0], 0x80) <==> Has(lead, 0x80)
  {
  }

  lemma {:induction false} ProgramIdRoundTrip(id: bv16)
    ensures var b := Pair(id); Paired(b[0], b[1]) == id
  {
  }

  lemma {:induction false} FlagsRoundTrip(s: SpliceInsert)
    ensures Has(Flags(s), 0x80) <==> s.out
    ensures Has(Flags(s), 0x40)
    ensures Has(Flags(s), 0x20) <==> s.durationTicks > 0
    ensures Has(Flags(s), 0x10) <==> s.immediate
  {
  }

  // ----- what the decoder gets back -----

  /** The part of a splice_insert that its encoding carries. */
  function Carried(s: SpliceInsert): SpliceInsert {
    if s.cancel then Cancelled(s.eventId)
    else s.(pts := if s.immediate then None else s.pts, autoReturn := s.autoReturn && s.durationTicks > 0)
  }

  lemma {:induction false} TailRoundTrip(s: SpliceInsert, id: bv32, c: seq<bv8>, immediate: bool, pts: Option<bv64>,
      p: nat)
    requires s.durationTicks < TICK_LIMIT
    requires 6 <= p <= |c| && c[5] == Flags(s) && c[p..] == Tail(s)
    ensures DecodeTail(id, c, immediate, pts, p) ==
      Ok(SpliceInsert(id, false, s.out, immediate, pts, s.durationTicks, s.autoReturn && s.durationTicks > 0,
                      s.uniqueProgramId, s.availNum, s.availsExpected))
  {
    ReturnFlagBits(s.autoReturn);
    hide Ticks, TickBytes, Flags, Has, Pair, Paired, ReturnFlag;
    FlagsRoundTrip(s);
    ProgramIdRoundTrip(s.uniqueProgramId);
    var tail, lead, pair := Tail(s), ReturnFlag(s.autoReturn), Pair(s.uniqueProgramId);
    assert forall i :: 0 <= i < |tail| ==> c[p + i] == tail[i];
    if s.durationTicks > 0 {
      TickRoundTrip(lead, s.durationTicks);
      var t := TickBytes(lead, s.durationTicks);
      assert tail[..5] == t && tail[5] == pair[0] && tail[6] == pair[1];
    } else {
      assert tail[0] == pair[0] && tail[1] == pair[1];
    }
  }

  lemma {:induction false} ReturnFlagBits(auto: bool)
    ensures ReturnFlag(auto) & 1 == 0 && (Has(ReturnFlag(auto), 0x80) <==> auto)
  {
  }

  lemma {:induction false} FixedBits()
    ensures Has(0xFF, 0x80) && !Has(0x7F, 0x80) && Has(0xFE, 0x80) && (0xFE as bv8) & 1 == 0 && !Has(0, 0x80)
    ensures Ticks(0, 0, 0, 0, 0) == 0
  {
  }

  lemma {:induction false} CancelRoundTrip(s: SpliceInsert)
    requires Refusal(s).None? && s.cancel
    ensures DecodeInsert(Command(s)) == Ok(Carried(s))
  {
    FixedBits();
    IdRoundTrip(s.eventId);
    hide Has, IdBytes, Word, DecodeTail;
    var c, id := Command(s), IdBytes(s.eventId);
    assert c == [id[0], id[1], id[2], id[3], 0xFF];
  }

  lemma {:induction false} ImmediateRoundTrip(s: SpliceInsert)
    requires Refusal(s).None? && !s.cancel && s.immediate
    ensures DecodeInsert(Command(s)) == Ok(Carried(s))
  {
    FixedBits();
    FlagsRoundTrip(s);
    IdRoundTrip(s.eventId);
    hide Flags, Has, IdBytes, Word, DecodeTail, Tail;
    var c, id := Command(s), IdBytes(s.eventId);
    assert c == [id[0], id[1], id[2], id[3], 0x7F, Flags(s)] + Tail(s);
    TailRoundTrip(s, s.eventId, c, true, None, 6);
  }

  lemma {:induction false} TimedRoundTrip(s: SpliceInsert)
    requires Refusal(s).None? && !s.cancel && !s.immediate
    ensures DecodeInsert(Command(s)) == Ok(Carried(s))
  {
    FixedBits();
    FlagsRoundTrip(s);
    IdRoundTrip(s.eventId);
    TickRoundTrip(0xFE, s.pts.value);
    hide Ticks, TickBytes, Flags, Has, IdBytes, Word, DecodeTail, Tail;
    var c, id, t := Command(s), IdBytes(s.eventId), TickBytes(0xFE, s.pts.value);
    assert c == [id[0], id[1], id[2], id[3], 0x7F, Flags(s), t[0], t[1], t[2], t[3], t[4]] + Tail(s);
    TailRoundTrip(s, s.eventId, c, false, s.pts, 11);
  }

  /** The check word of a sealed message is right. */
  lemma {:induction false} SealedIsChecked(b: seq<bv8>)
    ensures Checked(Seal(b))
  {
    var r, s := Register(PRESET, b), Seal(b);
    IdRoundTrip(r);
    hide Register, IdBytes, Word;
    var w := IdBytes(r);
    assert s[..|s| - 4] == b;
    assert s[|b|] == w[0] && s[|b| + 1] == w[1] && s[|b| + 2] == w[2] && s[|b| + 3] == w[3];
  }

  /** Where the bytes of a framed command are. */
  lemma {:induction false} FrameLayout(command: bv8, cmd: seq<bv8>, b: seq<bv8>)
    requires b == Seal(Framed(command, cmd))
    ensures |b| == 20 + |cmd|
    ensures b[0] == TABLE_ID && b[1] == LengthByte(0x30, 17 + |cmd|) && b[2] == Byte(17 + |cmd|)
    ensures b[3] == b[4] == b[5] == b[6] == b[7] == b[8] == 0
    ensures b[11] == LengthByte(0xF0, |cmd|) && b[12] == Byte(|cmd|) && b[13] == command
    ensures b[14..14 + |cmd|] == cmd
  {
    hide Register, IdBytes, Byte, LengthByte;
    assert b[..14] == Header(command, |cmd|);
    assert forall i :: 0 <= i < 14 ==> b[i] == b[..14][i];
  }

  /** A framed command comes back unchanged from the decoder. */
  lemma {:induction false} FrameRoundTrip(command: bv8, cmd: seq<bv8>)
    requires |cmd| < 200
    ensures Decode(Seal(Framed(command, cmd))) ==
      if command != CMD_SPLICE_INSERT then Ok(Section(0, command, None)) else
        match DecodeInsert(cmd)
        case Ok(insert) => Ok(Section(0, command, Some(insert)))
        case Err(e) => Err(e)
  {
    hide Seal, Framed, Checked, Length12, Byte, Ticks, Has, LengthByte, DecodeInsert;
    LengthOfSmall(17 + |cmd|);
    LengthOfSmall(|cmd|);
    FixedBits();
    SealedIsChecked(Framed(command, cmd));
    FrameLayout(command, cmd, Seal(Framed(command, cmd)));
  }

  /** Decoding an encoded splice_insert gives back everything the message carries. */
  lemma {:induction false} RoundTrip(s: SpliceInsert)
    requires Encode(s).Ok?
    ensures Decode(Encode(s).value) == Ok(Section(0, CMD_SPLICE_INSERT, Some(Carried(s))))
  {
    if s.cancel {
      CancelRoundTrip(s);
    } else if s.immediate {
      ImmediateRoundTrip(s);
    } else {
      TimedRoundTrip(s);
    }
    hide DecodeInsert, Decode, Seal, Framed;
    FrameRoundTrip(CMD_SPLICE_INSERT, Command(s));
  }

  lemma {:induction false} NullRoundTrip()
    ensures Decode(Null()) == Ok(Section(0, CMD_NULL, None))
  {
    FrameRoundTrip(CMD_NULL, []);
  }

  /** The two markers of a break come back with its event id, and OUT with its length. */
  lemma {:induction false} MarkersRoundTrip(eventId: bv32, seconds: bv64)
    ensures In(eventId).Ok?
    ensures Decode(In(eventId).value) ==
      Ok(Section(0, CMD_SPLICE_INSERT, Some(SpliceInsert(eventId, false, false, true, None, 0, false, 0, 0, 0))))
    ensures Out(eventId, seconds).Ok? <==> seconds * TICK_RATE < TICK_LIMIT
    ensures Out(eventId, seconds).Ok? && seconds * TICK_RATE > 0 ==>
      Decode(Out(eventId, seconds).value) == Ok(Section(0, CMD_SPLICE_INSERT,
        Some(SpliceInsert(eventId, false, true, true, None, seconds * TICK_RATE, true, 0, 0, 1))))
  {
    hide Decode, Command, Seal, Framed;
    RoundTrip(SpliceInsert(eventId, false, false, true, None, 0, false, 0, 0, 0));
    if Out(eventId, seconds).Ok? {
      RoundTrip(SpliceInsert(eventId, false, true, true, None, seconds * TICK_RATE, true, 0, 0, 1));
    }
  }

  // ----- what the decoder refuses -----

  /** a and b are equal outside the k bytes from position p on. */
  predicate DifferOnlyIn(a: seq<bv8>, b: seq<bv8>, p: nat, k: nat) {
    |a| == |b| && forall i :: 0 <= i < |a| && !(p <= i < p + k) ==> a[i] == b[i]
  }

  /** A change inside at most four neighbouring bytes of an accepted section is always refused. */
  lemma {:induction false} BurstIsRefused(a: seq<bv8>, b: seq<bv8>, p: nat, k: nat)
    requires Decode(a).Ok? && a != b
    requires k <= 4 && DifferOnlyIn(a, b, p, k)
    ensures Decode(b).Err?
  {
    hide Checked, DecodeInsert, Length12, Ticks;
    if Decode(b).Ok? {
      CheckedIffZero(a);
      CheckedIffZero(b);
      var q := if p + 4 <= |a| then p else |a| - 4;
      assert a[..q] == b[..q] && a[q + 4..] == b[q + 4..];
      BurstChangesRegister(PRESET, a, b, q);
    }
  }

  /** A section cut short or with bytes added is always refused. */
  lemma {:induction false} OtherLengthIsRefused(a: seq<bv8>, b: seq<bv8>)
    requires Decode(a).Ok? && a != b
    requires a <= b || b <= a
    ensures Decode(b).Err?
  {
    hide Checked, DecodeInsert, Length12, Ticks;
  }
}
