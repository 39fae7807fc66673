/**
 The boxes tfhd, tfdt and trun written from records of their fields, as sections 8.8.7, 8.8.12
 and 8.8.8 of ISO/IEC 14496-12 list them, and what the program reads out of them.
 */
module Fmp4Fields {
  import opened Common
  import opened Bytes
  import opened Fmp4
  import opened Fmp4Boxes

  type uint64 = n: nat | n < 0x1_0000_0000_0000_0000

  /** A flag as the digit of a number. */
  function Bit(b: bool): nat { if b then 1 else 0 }

  /** An optional field of 32 bits. */
  function Word(v: Option<uint32>): seq<byte> { if v.Some? then Digits(v.value, 4) else [] }

  function Long(v: Option<uint64>): seq<byte> { if v.Some? then Digits(v.value, 8) else [] }

  // ----- tfhd -----

  /** The flags that the program does not know are kept in others: bit 2, and the bits from 6 on. */
  datatype Tfhd = Tfhd(
    version: byte, trackId: uint32, baseDataOffset: Option<uint64>, descriptionIndex: Option<uint32>,
    duration: Option<uint32>, size: Option<uint32>, flags: Option<uint32>, bit2: bool, others: nat)

  predicate GoodTfhd(h: Tfhd) { h.others < 0x4_0000 }

  function TfhdFlags(h: Tfhd): nat {
    Bit(h.baseDataOffset.Some?) + 0x2 * Bit(h.descriptionIndex.Some?) + 0x4 * Bit(h.bit2) + 0x8 * Bit(h.duration.Some?)
    + 0x10 * Bit(h.size.Some?) + 0x20 * Bit(h.flags.Some?) + 0x40 * h.others
  }

  function TfhdBody(h: Tfhd): seq<byte> {
    Digits(0x100_0000 * h.version + TfhdFlags(h), 4) + Digits(h.trackId, 4)
    + (Long(h.baseDataOffset) + Word(h.descriptionIndex))
    + (Word(h.duration) + (Word(h.size) + Word(h.flags)))
  }

  // ----- tfdt -----

  datatype Tfdt = Tfdt(version: byte, flags: nat, time: uint64)

  /** Version 1 has 64 bits for the time, every other one 32. */
  predicate GoodTfdt(d: Tfdt) { d.flags < 0x100_0000 && (d.version != 1 ==> d.time < 0x1_0000_0000) }

  function TfdtBody(d: Tfdt): seq<byte> {
    [d.version] + Digits(d.flags, 3) + Digits(d.time, if d.version == 1 then 8 else 4)
  }

  // ----- trun -----

  datatype Sample = Sample(duration: uint32, size: uint32, flags: uint32, offset: uint32)

  /** Which fields a sample has; the program does not know the flags of bit 1, of bits 3 to 7 and from bit 12 on. */
  datatype Trun = Trun(
    version: byte, dataOffset: Option<uint32>, firstFlags: Option<uint32>,
    durations: bool, sizes: bool, sampleFlags: bool, offsets: bool,
    bit1: bool, middle: nat, others: nat, samples: seq<Sample>)

  predicate GoodTrun(t: Trun) { t.middle < 0x20 && t.others < 0x1000 && |t.samples| < 0x1_0000_0000 }

  function TrunFlags(t: Trun): nat {
    Bit(t.dataOffset.Some?) + 0x2 * Bit(t.bit1) + 0x4 * Bit(t.firstFlags.Some?) + 0x8 * t.middle
    + 0x100 * Bit(t.durations) + 0x200 * Bit(t.sizes) + 0x400 * Bit(t.sampleFlags) + 0x800 * Bit(t.offsets)
    + 0x1000 * t.others
  }

  function Field(present: bool, v: uint32): seq<byte> { if present then Digits(v, 4) else [] }

  function SampleFields(t: Trun, s: Sample): seq<byte> {
    Field(t.durations, s.duration)
    + (Field(t.sizes, s.size) + Field(t.sampleFlags, s.flags) + Field(t.offsets, s.offset))
  }

  function AllSamples(t: Trun, ss: seq<Sample>): seq<byte> {
    if ss == [] then [] else AllSamples(t, ss[..|ss| - 1]) + SampleFields(t, ss[|ss| - 1])
  }

  function TrunBody(t: Trun): seq<byte> {
    Digits(0x100_0000 * t.version + TrunFlags(t), 4) + Digits(|t.samples|, 4)
    + (Word(t.dataOffset) + Word(t.firstFlags)) + AllSamples(t, t.samples)
  }

  function Durations(ss: seq<Sample>): nat {
    if ss == [] then 0 else Durations(ss[..|ss| - 1]) + ss[|ss| - 1].duration
  }

  // ----- flags -----

  lemma {:induction false} QuotientIs(x: nat, bit: nat, q: nat, low: nat)
    requires x == low + bit * q && low < bit
    ensures x / bit == q
  {
    var c := x / bit;
    assert x == bit * c + x % bit;
    if c < q {
      MulMonotone(c + 1, q, bit);
      assert false;
    } else if q < c {
      MulMonotone(q + 1, c, bit);
      assert false;
    }
  }

  /** A flag is the digit of the flags at its place. */
  lemma {:induction false} FlagIs(x: nat, low: nat, bit: nat, d: nat, high: nat)
    requires x == low + bit * (d + 2 * high) && low < bit && d < 2
    ensures 0 < bit && (Flag(x, bit) <==> d == 1)
  {
    QuotientIs(x, bit, d + 2 * high, low);
  }

  lemma {:induction false} TfhdFlagsFit(h: Tfhd)
    requires GoodTfhd(h)
    ensures TfhdFlags(h) < 0x100_0000
  {
  }

  lemma {:induction false} TfhdDigits(f: nat, a: nat, b: nat, c: nat, d: nat, high: nat)
    requires a < 2 && b < 2 && c < 2 && d < 2 && f == a + 0x2 * b + 0x4 * c + 0x8 * d + 0x10 * high
    ensures (Flag(f, 0x1) <==> a == 1) && (Flag(f, 0x2) <==> b == 1) && (Flag(f, 0x8) <==> d == 1)
  {
    hide Flag;
    FlagIs(f, 0, 0x1, a, b + 0x2 * c + 0x4 * d + 0x8 * high);
    FlagIs(f, a, 0x2, b, c + 0x2 * d + 0x4 * high);
    FlagIs(f, a + 0x2 * b + 0x4 * c, 0x8, d, high);
  }

  lemma {:induction false} TfhdFlagsAre(h: Tfhd)
    requires GoodTfhd(h)
    ensures var f := TfhdFlags(h);
      && f < 0x100_0000 && (0x100_0000 * h.version + f) % 0x100_0000 == f && 0x100_0000 * h.version + f < 0x1_0000_0000
      && (Flag(f, 0x1) <==> h.baseDataOffset.Some?) && (Flag(f, 0x2) <==> h.descriptionIndex.Some?)
      && (Flag(f, 0x8) <==> h.duration.Some?)
  {
    TfhdFlagsFit(h);
    BehindVersion(h.version, TfhdFlags(h));
    BitIs(h.baseDataOffset.Some?);
    BitIs(h.descriptionIndex.Some?);
    BitIs(h.bit2);
    BitIs(h.duration.Some?);
    hide Flag, Bit;
    TfhdDigits(TfhdFlags(h), Bit(h.baseDataOffset.Some?), Bit(h.descriptionIndex.Some?), Bit(h.bit2),
      Bit(h.duration.Some?), Bit(h.size.Some?) + 0x2 * Bit(h.flags.Some?) + 0x4 * h.others);
  }

  /** The flags of a number that is given by its digits. */
  lemma {:induction false} DigitFlags(f: nat, a: nat, b: nat, c: nat, m: nat, d: nat, e: nat, g: nat, h: nat, o: nat)
    requires a < 2 && b < 2 && c < 2 && m < 0x20 && d < 2 && e < 2 && g < 2 && h < 2
    requires f == a + 0x2 * b + 0x4 * c + 0x8 * m + 0x100 * d + 0x200 * e + 0x400 * g + 0x800 * h + 0x1000 * o
    ensures (Flag(f, 0x1) <==> a == 1) && (Flag(f, 0x4) <==> c == 1) && (Flag(f, 0x100) <==> d == 1)
    ensures (Flag(f, 0x200) <==> e == 1) && (Flag(f, 0x400) <==> g == 1) && (Flag(f, 0x800) <==> h == 1)
  {
    hide Flag;
    var h3 := h + 2 * o;
    var h2 := g + 2 * h3;
    var h1 := e + 2 * h2;
    var low := a + 0x2 * b + 0x4 * c + 0x8 * m;
    FlagIs(f, 0, 0x1, a, b + 0x2 * c + 0x4 * m + 0x80 * (d + 2 * h1));
    FlagIs(f, a + 0x2 * b, 0x4, c, m + 0x20 * (d + 2 * h1));
    FlagIs(f, low, 0x100, d, h1);
    FlagIs(f, low + 0x100 * d, 0x200, e, h2);
    FlagIs(f, low + 0x100 * d + 0x200 * e, 0x400, g, h3);
    FlagIs(f, low + 0x100 * d + 0x200 * e + 0x400 * g, 0x800, h, o);
  }

  lemma {:induction false} BehindVersion(version: byte, f: nat)
    requires f < 0x100_0000
    ensures (0x100_0000 * version + f) % 0x100_0000 == f && 0x100_0000 * version + f < 0x1_0000_0000
  {
  }

  lemma {:induction false} TrunFlagsFit(t: Trun)
    requires GoodTrun(t)
    ensures TrunFlags(t) < 0x100_0000
  {
  }

  lemma {:induction false} TrunFlagsAre(t: Trun)
    requires GoodTrun(t)
    ensures var f := TrunFlags(t);
      && f < 0x100_0000 && (0x100_0000 * t.version + f) % 0x100_0000 == f && 0x100_0000 * t.version + f < 0x1_0000_0000
      && (Flag(f, 0x1) <==> t.dataOffset.Some?) && (Flag(f, 0x4) <==> t.firstFlags.Some?)
      && (Flag(f, 0x100) <==> t.durations) && (Flag(f, 0x200) <==> t.sizes)
      && (Flag(f, 0x400) <==> t.sampleFlags) && (Flag(f, 0x800) <==> t.offsets)
  {
    TrunFlagsFit(t);
    BehindVersion(t.version, TrunFlags(t));
    BitIs(t.dataOffset.Some?);
    BitIs(t.bit1);
    BitIs(t.firstFlags.Some?);
    BitIs(t.durations);
    BitIs(t.sizes);
    BitIs(t.sampleFlags);
    BitIs(t.offsets);
    hide Flag, Bit;
    DigitFlags(TrunFlags(t), Bit(t.dataOffset.Some?), Bit(t.bit1), Bit(t.firstFlags.Some?), t.middle, Bit(t.durations),
      Bit(t.sizes), Bit(t.sampleFlags), Bit(t.offsets), t.others);
  }

  lemma {:induction false} BitIs(b: bool)
    ensures Bit(b) < 2 && (Bit(b) == 1 <==> b)
  {
  }

  // ----- reading tfhd -----

  lemma {:induction false} WordAt(b: seq<byte>, k: Box, x: seq<byte>, i: nat, n: nat)
    requires Body(k) + |x| <= |b| && b[Body(k)..Body(k) + |x|] == x
    requires i + 4 <= |x| && x[i..i + 4] == Digits(n, 4) && n < 0x1_0000_0000
    ensures U32(b, Body(k) + i) == n && Read32(b, Body(k) + i) == Ok(n)
  {
    Within(b, Body(k), x, i, Digits(n, 4));
    ReadWord(b, Body(k) + i, n);
  }

  lemma {:induction false} TfhdWords(h: Tfhd)
    requires GoodTfhd(h)
    ensures var x, flags := TfhdBody(h), TfhdFlags(h);
      var i := 8 + (if h.baseDataOffset.Some? then 8 else 0) + (if h.descriptionIndex.Some? then 4 else 0);
      && 8 <= |x| && x[0..4] == Digits(0x100_0000 * h.version + flags, 4) && x[4..8] == Digits(h.trackId, 4)
      && (h.duration.Some? ==> i + 4 <= |x| && x[i..i + 4] == Digits(h.duration.value, 4))
  {
    hide Digits, TfhdFlags;
  }

  lemma {:induction false} ReadsTfhd(b: seq<byte>, k: Box, tracks: Tracks, word: nat, id: uint32, d: Option<uint32>)
    requires Read32(b, Body(k)) == Ok(word) && Read32(b, Body(k) + 4) == Ok(id)
    requires Flag(word % 0x100_0000, 0x8) <==> d.Some?
    requires d.Some? ==> Read32(b, DefaultDurationAt(k, word % 0x100_0000)) == Ok(d.value)
    ensures ReadTfhd(b, k, tracks) == if id !in tracks then Err(UnknownTrack)
      else Ok((tracks[id], if d.Some? then d.value else tracks[id].defaultSampleDuration))
  {
    hide Read32, Flag, DefaultDurationAt;
  }

  /** The words of a tfhd that is written somewhere. */
  lemma {:induction false} TfhdReads(b: seq<byte>, k: Box, h: Tfhd, word: nat)
    requires GoodTfhd(h) && Body(k) + |TfhdBody(h)| <= |b| && b[Body(k)..Body(k) + |TfhdBody(h)|] == TfhdBody(h)
    requires word == 0x100_0000 * h.version + TfhdFlags(h) && word < 0x1_0000_0000
    ensures Read32(b, Body(k)) == Ok(word) && Read32(b, Body(k) + 4) == Ok(h.trackId)
    ensures var i := 8 + (if h.baseDataOffset.Some? then 8 else 0) + (if h.descriptionIndex.Some? then 4 else 0);
      h.duration.Some? ==> Read32(b, Body(k) + i) == Ok(h.duration.value)
  {
    TfhdWords(h);
    hide Digits, TfhdBody, TfhdFlags, Read32, U32;
    WordAt(b, k, TfhdBody(h), 0, word);
    WordAt(b, k, TfhdBody(h), 4, h.trackId);
    if h.duration.Some? { TfhdDuration(b, k, h); }
  }

  lemma {:induction false} TfhdDuration(b: seq<byte>, k: Box, h: Tfhd)
    requires GoodTfhd(h) && Body(k) + |TfhdBody(h)| <= |b| && b[Body(k)..Body(k) + |TfhdBody(h)|] == TfhdBody(h)
    requires h.duration.Some?
    ensures var i := 8 + (if h.baseDataOffset.Some? then 8 else 0) + (if h.descriptionIndex.Some? then 4 else 0);
      Read32(b, Body(k) + i) == Ok(h.duration.value)
  {
    TfhdWords(h);
    hide Digits, TfhdBody, TfhdFlags, Read32, U32;
    var i := 8 + (if h.baseDataOffset.Some? then 8 else 0) + (if h.descriptionIndex.Some? then 4 else 0);
    WordAt(b, k, TfhdBody(h), i, h.duration.value);
  }

  /** What the program reads of a tfhd: its track, and its default duration when it has one. */
  lemma {:induction false} TfhdIsRead(b: seq<byte>, k: Box, h: Tfhd, tracks: Tracks)
    requires GoodTfhd(h) && Body(k) + |TfhdBody(h)| <= |b| && b[Body(k)..Body(k) + |TfhdBody(h)|] == TfhdBody(h)
    ensures ReadTfhd(b, k, tracks) ==
      if h.trackId !in tracks then Err(UnknownTrack)
      else
        var track := tracks[h.trackId];
        Ok((track, if h.duration.Some? then h.duration.value else track.defaultSampleDuration))
  {
    TfhdFlagsAre(h);
    var word := 0x100_0000 * h.version + TfhdFlags(h);
    TfhdReads(b, k, h, word);
    hide Digits, TfhdBody, TfhdFlags, Flag, Read32, ReadTfhd;
    ReadsTfhd(b, k, tracks, word, h.trackId, h.duration);
  }

  // ----- reading trun -----

  /** The bytes of one sample. */
  function SampleSize(t: Trun): nat {
    4 * Bit(t.durations) + 4 * Bit(t.sizes) + 4 * Bit(t.sampleFlags) + 4 * Bit(t.offsets)
  }

  lemma {:induction false} SamplesHaveSize(t: Trun, ss: seq<Sample>)
    ensures |AllSamples(t, ss)| == |ss| * SampleSize(t)
    decreases |ss|
  {
    if ss != [] {
      SamplesHaveSize(t, ss[..|ss| - 1]);
      MulStep(|ss|, SampleSize(t));
      assert |SampleFields(t, ss[|ss| - 1])| == SampleSize(t) by { hide Digits; }
      hide SampleFields, SampleSize;
    }
  }

  lemma {:induction false} TrunWords(t: Trun)
    ensures var x := TrunBody(t);
      && 8 <= |x| && x[0..4] == Digits(0x100_0000 * t.version + TrunFlags(t), 4) && x[4..8] == Digits(|t.samples|, 4)
  {
    hide Digits, TrunFlags, AllSamples;
  }

  /** Where the samples of a trun begin. */
  function FrontSize(t: Trun): nat { 8 + 4 * Bit(t.dataOffset.Some?) + 4 * Bit(t.firstFlags.Some?) }

  lemma {:induction false} TrunParts(t: Trun)
    ensures FrontSize(t) <= |TrunBody(t)| && TrunBody(t)[FrontSize(t)..] == AllSamples(t, t.samples)
  {
    hide Digits, TrunFlags, AllSamples;
  }

  lemma {:induction false} TrunHasSize(t: Trun)
    ensures |TrunBody(t)| == FrontSize(t) + |t.samples| * SampleSize(t)
  {
    TrunParts(t);
    SamplesHaveSize(t, t.samples);
    hide TrunBody, FrontSize, SampleSize, AllSamples;
  }

  /** The bytes of the samples in front of the last one, and its duration behind them. */
  lemma {:induction false} LastPart(b: seq<byte>, p: nat, t: Trun, ss: seq<Sample>)
    requires t.durations && ss != []
    requires p + |AllSamples(t, ss)| <= |b| && b[p..p + |AllSamples(t, ss)|] == AllSamples(t, ss)
    ensures var front := AllSamples(t, ss[..|ss| - 1]);
      && p + |front| + 4 <= |b| && |front| <= |AllSamples(t, ss)| && b[p..p + |front|] == front
      && U32(b, p + |front|) == ss[|ss| - 1].duration
  {
    var n := |ss| - 1;
    var front, last := AllSamples(t, ss[..n]), SampleFields(t, ss[n]);
    var whole := AllSamples(t, ss);
    assert whole == front + last;
    hide AllSamples, SampleFields, U32;
    TwoParts(b, p, p + |whole|, front, last);
    assert |whole| == |front| + |last|;
    LastDuration(b, p + |front|, t, ss[n]);
  }

  /** The first n durations of samples at p add up to this, modulo 2^64. */
  predicate Summed(b: seq<byte>, p: nat, per: nat, n: nat, sum: nat) {
    4 <= per && p + n * per <= |b| && SampleSum(b, p, per, n) == sum % B64
  }

  lemma {:induction false} SamplesAreSummed(b: seq<byte>, p: nat, t: Trun, ss: seq<Sample>)
    requires t.durations && p + |AllSamples(t, ss)| <= |b| && b[p..p + |AllSamples(t, ss)|] == AllSamples(t, ss)
    ensures Summed(b, p, SampleSize(t), |ss|, Durations(ss))
    decreases |ss|
  {
    if ss == [] {
      FirstIsThere(t);
      NothingSummed(b, p, SampleSize(t));
    } else {
      LastPart(b, p, t, ss);
      hide AllSamples, SampleSize, U32, Summed, Durations;
      SamplesAreSummed(b, p, t, ss[..|ss| - 1]);
      LastIsSummed(b, p, t, ss);
    }
  }

  lemma {:induction false} LastIsSummed(b: seq<byte>, p: nat, t: Trun, ss: seq<Sample>)
    requires t.durations && ss != []
    requires p + |AllSamples(t, ss)| <= |b| && b[p..p + |AllSamples(t, ss)|] == AllSamples(t, ss)
    requires Summed(b, p, SampleSize(t), |ss| - 1, Durations(ss[..|ss| - 1]))
    ensures Summed(b, p, SampleSize(t), |ss|, Durations(ss))
  {
    var n := |ss| - 1;
    LastPart(b, p, t, ss);
    OneMoreSample(t, ss);
    FirstIsThere(t);
    SamplesHaveSize(t, ss[..n]);
    assert Durations(ss) == Durations(ss[..n]) + ss[n].duration;
    hide AllSamples, SampleSize, U32, Summed, Durations;
    SumOneMore(b, p, SampleSize(t), n, |AllSamples(t, ss[..n])|, Durations(ss[..n]), ss[n].duration);
  }

  lemma {:induction false} NothingSummed(b: seq<byte>, p: nat, per: nat)
    requires 4 <= per && p <= |b|
    ensures Summed(b, p, per, 0, 0)
  {
  }

  lemma {:induction false} OneMoreSample(t: Trun, ss: seq<Sample>)
    requires ss != []
    ensures |AllSamples(t, ss)| == |AllSamples(t, ss[..|ss| - 1])| + SampleSize(t)
  {
    assert |SampleFields(t, ss[|ss| - 1])| == SampleSize(t) by { hide Digits; }
    hide SampleFields, SampleSize;
  }

  lemma {:induction false} FirstIsThere(t: Trun)
    requires t.durations
    ensures 4 <= SampleSize(t)
  {
  }

  lemma {:induction false} SumOneMore(b: seq<byte>, p: nat, per: nat, n: nat, size: nat, sum: nat, d: nat)
    requires Summed(b, p, per, n, sum) && size == n * per && p + size + per <= |b|
    requires p + size + 4 <= |b| && U32(b, p + size) == d
    ensures Summed(b, p, per, n + 1, sum + d)
  {
    MulStep(n + 1, per);
    SumStep(b, p, per, n + 1);
    hide SampleSum, U32;
    AddsUp(sum, d);
  }

  lemma {:induction false} LastDuration(b: seq<byte>, p: nat, t: Trun, s: Sample)
    requires t.durations && p + |SampleFields(t, s)| <= |b|
    requires b[p..p + |SampleFields(t, s)|] == SampleFields(t, s)
    ensures p + 4 <= |b| && U32(b, p) == s.duration
  {
    FirstField(t, s);
    hide Digits, SampleFields;
    Within(b, p, SampleFields(t, s), 0, Digits(s.duration, 4));
    ReadWord(b, p, s.duration);
  }

  lemma {:induction false} FirstField(t: Trun, s: Sample)
    requires t.durations
    ensures 4 <= |SampleFields(t, s)| && SampleFields(t, s)[0..4] == Digits(s.duration, 4)
  {
    hide Digits;
  }

  lemma {:induction false} SumStep(b: seq<byte>, p: nat, per: nat, n: nat)
    requires 0 < n && 4 <= per && p + n * per <= |b| && p + (n - 1) * per + 4 <= |b|
    requires p + (n - 1) * per <= |b|
    ensures SampleSum(b, p, per, n) == (SampleSum(b, p, per, n - 1) + U32(b, p + (n - 1) * per)) % B64
  {
    hide U32;
  }

  lemma {:induction false} AddsUp(x: nat, y: nat)
    ensures (x % B64 + y) % B64 == (x + y) % B64
  {
  }

  lemma {:induction false} SizesAgree(t: Trun, k: Box)
    requires GoodTrun(t) && t.durations
    ensures SampleBytes(TrunFlags(t)) == SampleSize(t)
    ensures SamplesAt(k, TrunFlags(t)) == Body(k) + FrontSize(t)
  {
    TrunFlagsAre(t);
    hide TrunFlags, Flag;
  }

  lemma {:induction false} ReadsTrun(b: seq<byte>, k: Box, default: nat, word: nat, count: nat, p: nat, per: nat)
    requires Read32(b, Body(k)) == Ok(word) && Read32(b, Body(k) + 4) == Ok(count) && End(k) <= |b|
    requires p == SamplesAt(k, word % 0x100_0000) && per == SampleBytes(word % 0x100_0000)
    ensures Flag(word % 0x100_0000, 0x100) ==>
      if p + count * per > End(k) then TrunDuration(b, k, default) == Err(ShortTrun)
      else 4 <= per && TrunDuration(b, k, default) == Ok(SampleSum(b, p, per, count))
    ensures !Flag(word % 0x100_0000, 0x100) ==>
      TrunDuration(b, k, default) == if default == 0 then Err(NoDuration) else Ok(count * default % B64)
  {
    hide Read32, Flag, SamplesAt, SampleSum;
  }

  /** The words of a trun that begins somewhere. */
  lemma {:induction false} TrunReads(b: seq<byte>, k: Box, t: Trun, word: nat)
    requires GoodTrun(t) && Body(k) + 8 <= |b| && 8 <= |TrunBody(t)| && b[Body(k)..Body(k) + 8] == TrunBody(t)[..8]
    requires word == 0x100_0000 * t.version + TrunFlags(t) && word < 0x1_0000_0000
    ensures Read32(b, Body(k)) == Ok(word) && Read32(b, Body(k) + 4) == Ok(|t.samples|)
  {
    TrunWords(t);
    var x := TrunBody(t)[..8];
    assert x[0..4] == TrunBody(t)[0..4] && x[4..8] == TrunBody(t)[4..8];
    hide Digits, TrunBody, TrunFlags, Read32, U32, SampleSize;
    WordAt(b, k, x, 0, word);
    WordAt(b, k, x, 4, |t.samples|);
  }

  /**
   What the program makes of a trun that is written somewhere: with durations of its own, their sum modulo
   2^64; without, as many defaults as it has samples, and a refusal when there is no default.
   */
  lemma {:induction false} TrunIsRead(b: seq<byte>, k: Box, t: Trun, default: nat)
    requires GoodTrun(t) && Body(k) + |TrunBody(t)| <= End(k) <= |b|
    requires b[Body(k)..Body(k) + |TrunBody(t)|] == TrunBody(t)
    ensures TrunDuration(b, k, default) ==
      if t.durations then Ok(Durations(t.samples) % B64)
      else if default == 0 then Err(NoDuration) else Ok(|t.samples| * default % B64)
  {
    TrunFlagsAre(t);
    TrunBegins(b, k, t);
    var word := 0x100_0000 * t.version + TrunFlags(t);
    TrunReads(b, k, t, word);
    if t.durations {
      SizesAgree(t, k);
      TrunHasSize(t);
      TrunSamples(b, k, t);
    }
    hide Digits, TrunBody, TrunFlags, Flag, Read32, SampleSize, SampleSum, SampleBytes, SamplesAt, TrunDuration, Bit,
         FrontSize;
    ReadsTrun(b, k, default, word, |t.samples|, SamplesAt(k, TrunFlags(t)), SampleBytes(TrunFlags(t)));
  }

  lemma {:induction false} TrunBegins(b: seq<byte>, k: Box, t: Trun)
    requires Body(k) + |TrunBody(t)| <= |b| && b[Body(k)..Body(k) + |TrunBody(t)|] == TrunBody(t)
    ensures 8 <= |TrunBody(t)| && b[Body(k)..Body(k) + 8] == TrunBody(t)[..8]
  {
    hide Digits, AllSamples, TrunFlags;
    assert |TrunBody(t)| >= 8;
    hide TrunBody;
    Within(b, Body(k), TrunBody(t), 0, TrunBody(t)[..8]);
  }

  /** The samples of a trun that is written somewhere. */
  lemma {:induction false} TrunSamples(b: seq<byte>, k: Box, t: Trun)
    requires t.durations && Body(k) + |TrunBody(t)| <= |b|
    requires b[Body(k)..Body(k) + |TrunBody(t)|] == TrunBody(t)
    ensures Summed(b, Body(k) + FrontSize(t), SampleSize(t), |t.samples|, Durations(t.samples))
  {
    TrunParts(t);
    var x, i := TrunBody(t), FrontSize(t);
    hide Digits, TrunBody, TrunFlags, AllSamples, SampleSize, Summed, Bit, FrontSize;
    TwoParts(b, Body(k), Body(k) + |x|, x[..i], x[i..]);
    SamplesAreSummed(b, Body(k) + i, t, t.samples);
  }

  /**
   A trun with durations is refused exactly when its box is shorter than its fields: for every box in the
   bytes that begins with the flags and the count of a record.
   */
  lemma {:induction false} TrunIsShortIff(b: seq<byte>, k: Box, t: Trun, default: nat)
    requires GoodTrun(t) && t.durations && Body(k) + 8 <= |b| && End(k) <= |b|
    requires b[Body(k)..Body(k) + 8] == TrunBody(t)[..8]
    ensures TrunDuration(b, k, default) == Err(ShortTrun) <==> End(k) < Body(k) + |TrunBody(t)|
    ensures End(k) >= Body(k) + |TrunBody(t)| ==> TrunDuration(b, k, default).Ok?
  {
    TrunFlagsAre(t);
    TrunHasSize(t);
    SizesAgree(t, k);
    TrunWords(t);
    var word := 0x100_0000 * t.version + TrunFlags(t);
    TrunReads(b, k, t, word);
    hide Digits, TrunBody, TrunFlags, Flag, Read32, AllSamples, SampleSize, SampleSum, SampleBytes, SamplesAt,
         TrunDuration, Bit;
    ReadsTrun(b, k, default, word, |t.samples|, SamplesAt(k, TrunFlags(t)), SampleBytes(TrunFlags(t)));
  }
}
