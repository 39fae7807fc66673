/**
 CRC-32/MPEG-2 as the splice_info_section uses it: polynomial 0x04C11DB7, register
 preset to all ones, no reflection, no final xor.

 The register is a linear map of the message. Two facts about that map are all that
 error detection needs: a shift of the register loses nothing, and four message
 bytes enter the register as one 32-bit word.
 */
module Crc {
  const POLYNOMIAL: bv32 := 0x04C1_1DB7
  const PRESET: bv32 := 0xFFFF_FFFF

  function Xor(a: bv32, b: bv32): bv32 { a ^ b }

  predicate Top(c: bv32) { c & 0x8000_0000 != 0 }

  function Up(c: bv32): bv32 { c << 1 }

  /** One step of the shift register. */
  function Shift(c: bv32): bv32 {
    if Top(c) then Xor(Up(c), POLYNOMIAL) else Up(c)
  }

  function Shifts(c: bv32, n: nat): bv32
    decreases n
  {
    if n == 0 then c else Shifts(Shift(c), n - 1)
  }

  /** A byte in the four positions of the register, top first. */
  function High(x: bv8): bv32 { x as bv32 << 24 }
  function Mid(x: bv8): bv32 { x as bv32 << 16 }
  function Low(x: bv8): bv32 { x as bv32 << 8 }
  function Last(x: bv8): bv32 { x as bv32 }

  /** The register after one more message byte. */
  function Absorb(c: bv32, x: bv8): bv32 {
    Shifts(Xor(c, High(x)), 8)
  }

  /** The register after all bytes of a message, started from c. */
  function Register(c: bv32, b: seq<bv8>): bv32
    decreases |b|
  {
    if b == [] then c else Register(Absorb(c, b[0]), b[1..])
  }

  /** The double loop of the encoder and the decoder. */
  method Crc32Mpeg(b: seq<bv8>) returns (crc: bv32)
    ensures crc == Register(PRESET, b)
  {
    crc := PRESET;
    for k := 0 to |b|
      invariant Register(crc, b[k..]) == Register(PRESET, b)
    {
      assert b[k..][0] == b[k] && b[k..][1..] == b[k + 1..];
      ghost var absorbed := Absorb(crc, b[k]);
      crc := crc ^ (b[k] as bv32 << 24);
      for i := 0 to 8
        invariant Shifts(crc, 8 - i) == absorbed
      {
        if crc & 0x8000_0000 != 0 {
          crc := (crc << 1) ^ POLYNOMIAL;
        } else {
          crc := crc << 1;
        }
      }
    }
  }

  /** The 32-bit word that four bytes form, first byte on top. */
  function Word(x0: bv8, x1: bv8, x2: bv8, x3: bv8): bv32 {
    High(x0) | Mid(x1) | Low(x2) | Last(x3)
  }

  // ----- bit facts -----

  lemma {:induction false} TopOfXor(a: bv32, b: bv32)
    ensures Top(Xor(a, b)) <==> (Top(a) != Top(b))
  {
  }

  lemma {:induction false} UpOfXor(a: bv32, b: bv32)
    ensures Up(Xor(a, b)) == Xor(Up(a), Up(b))
  {
  }

  lemma {:induction false} XorSelf(a: bv32)
    ensures Xor(a, a) == 0 && Xor(a, 0) == a
  {
  }

  lemma {:induction false} XorCommutes(a: bv32, b: bv32)
    ensures Xor(a, b) == Xor(b, a)
  {
    assert a ^ b == b ^ a;
  }

  lemma {:induction false} XorAssociates(a: bv32, b: bv32, c: bv32)
    ensures Xor(Xor(a, b), c) == Xor(a, Xor(b, c))
  {
    assert (a ^ b) ^ c == a ^ (b ^ c);
  }

  lemma {:induction false} XorMoves(x: bv32, y: bv32, p: bv32)
    ensures Xor(Xor(x, p), y) == Xor(Xor(x, y), p)
    ensures Xor(x, Xor(y, p)) == Xor(Xor(x, y), p)
    ensures Xor(Xor(x, p), Xor(y, p)) == Xor(x, y)
  {
    hide Xor;
    XorAssociates(x, p, y);
    XorAssociates(x, y, p);
    XorCommutes(p, y);
    XorAssociates(Xor(x, p), y, p);
    XorAssociates(Xor(x, y), p, p);
    XorSelf(p);
    XorSelf(Xor(x, y));
  }

  lemma {:induction false} XorZero(a: bv32, b: bv32)
    ensures Xor(a, b) == 0 <==> a == b
  {
    hide Xor;
    XorSelf(a);
    XorSelf(b);
    XorAssociates(a, b, b);
    XorCommutes(0, b);
  }

  lemma {:induction false} PolynomialIsOdd(a: bv32)
    ensures Xor(Up(a), POLYNOMIAL) != 0
  {
  }

  lemma {:induction false} OnlyTopIsLost(a: bv32)
    requires !Top(a) && Up(a) == 0
    ensures a == 0
  {
  }

  // ----- the register is linear and loses nothing -----

  lemma {:induction false} ShiftLinear(a: bv32, b: bv32)
    ensures Shift(Xor(a, b)) == Xor(Shift(a), Shift(b))
  {
    hide Xor, Up, Top;
    TopOfXor(a, b);
    UpOfXor(a, b);
    XorMoves(Up(a), Up(b), POLYNOMIAL);
  }

  lemma {:induction false} ShiftsLinear(a: bv32, b: bv32, n: nat)
    ensures Shifts(Xor(a, b), n) == Xor(Shifts(a, n), Shifts(b, n))
    decreases n
  {
    hide Xor, Shift;
    if n != 0 {
      ShiftLinear(a, b);
      ShiftsLinear(Shift(a), Shift(b), n - 1);
    }
  }

  lemma {:induction false} ShiftKernel(c: bv32)
    ensures Shift(c) == 0 <==> c == 0
  {
    assert !Top(0) && Up(0) == 0;
    hide Xor, Up, Top;
    PolynomialIsOdd(c);
    if Shift(c) == 0 {
      OnlyTopIsLost(c);
    }
  }

  lemma {:induction false} ShiftsKernel(c: bv32, n: nat)
    ensures Shifts(c, n) == 0 <==> c == 0
    decreases n
  {
    hide Xor, Shift;
    if n != 0 {
      ShiftsKernel(Shift(c), n - 1);
      ShiftKernel(c);
    }
  }

  lemma {:induction false} ShiftsInjective(a: bv32, b: bv32, n: nat)
    ensures Shifts(a, n) == Shifts(b, n) <==> a == b
  {
    hide Xor, Shifts;
    ShiftsLinear(a, b, n);
    ShiftsKernel(Xor(a, b), n);
    XorZero(a, b);
    XorZero(Shifts(a, n), Shifts(b, n));
  }

  lemma {:induction false} XorInjective(a: bv32, b: bv32, w: bv32)
    ensures Xor(a, w) == Xor(b, w) <==> a == b
  {
    XorZero(a, b);
    XorZero(Xor(a, w), Xor(b, w));
    XorMoves(a, b, w);
  }

  /** Different registers stay different, whatever the message that follows. */
  lemma {:induction false} RegisterInjective(a: bv32, b: bv32, m: seq<bv8>)
    ensures Register(a, m) == Register(b, m) <==> a == b
    decreases |m|
  {
    hide Xor, Shifts, High;
    if m != [] {
      RegisterInjective(Absorb(a, m[0]), Absorb(b, m[0]), m[1..]);
      ShiftsInjective(Xor(a, High(m[0])), Xor(b, High(m[0])), 8);
      XorInjective(a, b, High(m[0]));
    }
  }

  lemma {:induction false} RegisterConcat(c: bv32, m: seq<bv8>, n: seq<bv8>)
    ensures Register(c, m + n) == Register(Register(c, m), n)
    decreases |m|
  {
    hide Absorb;
    if m == [] {
      assert m + n == n;
    } else {
      assert (m + n)[0] == m[0] && (m + n)[1..] == m[1..] + n;
      RegisterConcat(Absorb(c, m[0]), m[1..], n);
    }
  }

  // ----- four bytes enter as one word -----

  lemma {:induction false} ShiftsAdd(c: bv32, m: nat, n: nat)
    ensures Shifts(c, m + n) == Shifts(Shifts(c, m), n)
    decreases m
  {
    hide Shift;
    if m != 0 {
      ShiftsAdd(Shift(c), m - 1, n);
    }
  }

  /** A register whose top byte is clear is only moved up by eight shifts. */
  lemma {:induction false} ShiftsOfLow(w: bv32)
    requires w & 0xFF00_0000 == 0
    ensures Shifts(w, 8) == w << 8
  {
    var w1, w2, w3, w4 := Up(w), w << 2, w << 3, w << 4;
    var w5, w6, w7, w8 := w << 5, w << 6, w << 7, w << 8;
    assert w2 == Up(w1) && w3 == Up(w2) && w4 == Up(w3) && w5 == Up(w4);
    assert w6 == Up(w5) && w7 == Up(w6) && w8 == Up(w7);
    assert !Top(w) && !Top(w1) && !Top(w2) && !Top(w3);
    assert !Top(w4) && !Top(w5) && !Top(w6) && !Top(w7);
    hide Xor, Up, Top;
    OneShift(w, 7);
    OneShift(w1, 6);
    OneShift(w2, 5);
    OneShift(w3, 4);
    OneShift(w4, 3);
    OneShift(w5, 2);
    OneShift(w6, 1);
    OneShift(w7, 0);
  }

  lemma {:induction false} OneShift(w: bv32, n: nat)
    requires !Top(w)
    ensures Shifts(w, n + 1) == Shifts(Up(w), n)
  {
  }

  /** A byte that enters after n shifts counts as the word u that n shifts turn into it. */
  lemma {:induction false} AbsorbAfter(v: bv32, u: bv32, n: nat, x: bv8)
    requires Shifts(u, n) == High(x)
    ensures Absorb(Shifts(v, n), x) == Shifts(Xor(v, u), n + 8)
  {
    hide Xor, Shift, Shifts, High;
    ShiftsLinear(v, u, n);
    ShiftsAdd(Xor(v, u), n, 8);
  }

  /** A register whose low bytes are clear: one byte's worth of shifts moves it up. */
  lemma {:induction false} EightUp(x: bv8)
    ensures Shifts(Last(x), 8) == Low(x) && Shifts(Low(x), 8) == Mid(x) && Shifts(Mid(x), 8) == High(x)
  {
    ByteIsLow(x);
    hide Shifts;
    ShiftsOfLow(Last(x));
    ShiftsOfLow(Low(x));
    ShiftsOfLow(Mid(x));
  }

  lemma {:induction false} ByteIsLow(x: bv8)
    ensures Last(x) & 0xFF00_0000 == 0 && Low(x) & 0xFF00_0000 == 0 && Mid(x) & 0xFF00_0000 == 0
    ensures Last(x) << 8 == Low(x) && Low(x) << 8 == Mid(x) && Mid(x) << 8 == High(x)
  {
  }

  lemma {:induction false} BytePositions(x: bv8)
    ensures Shifts(Mid(x), 8) == High(x) && Shifts(Low(x), 16) == High(x) && Shifts(Last(x), 24) == High(x)
  {
    hide Shift, Shifts, High, Mid, Low, Last;
    EightUp(x);
    ShiftsAdd(Low(x), 8, 8);
    ShiftsAdd(Last(x), 8, 16);
  }

  lemma {:induction false} WordIsXor(x0: bv8, x1: bv8, x2: bv8, x3: bv8)
    ensures Word(x0, x1, x2, x3) == Xor(High(x0), Xor(Mid(x1), Xor(Low(x2), Last(x3))))
  {
    assert (x0 as bv32 << 24) | (x1 as bv32 << 16) | (x2 as bv32 << 8) | x3 as bv32
        == (x0 as bv32 << 24) ^ ((x1 as bv32 << 16) ^ ((x2 as bv32 << 8) ^ (x3 as bv32)));
  }

  lemma {:induction false} XorOfWord(c: bv32, x0: bv8, x1: bv8, x2: bv8, x3: bv8)
    ensures Xor(Xor(Xor(Xor(c, High(x0)), Mid(x1)), Low(x2)), Last(x3)) == Xor(c, Word(x0, x1, x2, x3))
  {
    hide Xor, High, Mid, Low, Last, Word;
    WordIsXor(x0, x1, x2, x3);
    var v := Xor(c, High(x0));
    XorAssociates(Xor(v, Mid(x1)), Low(x2), Last(x3));
    XorAssociates(v, Mid(x1), Xor(Low(x2), Last(x3)));
    XorAssociates(c, High(x0), Xor(Mid(x1), Xor(Low(x2), Last(x3))));
  }

  lemma {:induction false} RegisterUnfolds(c: bv32, x0: bv8, x1: bv8, x2: bv8, x3: bv8)
    ensures Register(c, [x0, x1, x2, x3]) == Absorb(Absorb(Absorb(Absorb(c, x0), x1), x2), x3)
  {
    hide Absorb;
    var m1, m2, m3 := [x1, x2, x3], [x2, x3], [x3];
    assert [x0, x1, x2, x3][1..] == m1 && m1[1..] == m2 && m2[1..] == m3;
    var r1 := Absorb(c, x0);
    var r2 := Absorb(r1, x1);
    var r3 := Absorb(r2, x2);
    assert Register(r1, m1) == Register(r2, m2) && Register(r2, m2) == Register(r3, m3);
    assert Register(r3, m3) == Absorb(r3, x3);
  }

  /** Four bytes enter the register as one word. */
  lemma {:induction false} RegisterOfWord(c: bv32, x0: bv8, x1: bv8, x2: bv8, x3: bv8)
    ensures Register(c, [x0, x1, x2, x3]) == Shifts(Xor(c, Word(x0, x1, x2, x3)), 32)
  {
    hide Xor, Shifts, High, Mid, Low, Last, Word;
    BytePositions(x1);
    BytePositions(x2);
    BytePositions(x3);
    var v1 := Xor(c, High(x0));
    var v2 := Xor(v1, Mid(x1));
    var v3 := Xor(v2, Low(x2));
    AbsorbAfter(v1, Mid(x1), 8, x1);
    AbsorbAfter(v2, Low(x2), 16, x2);
    AbsorbAfter(v3, Last(x3), 24, x3);
    XorOfWord(c, x0, x1, x2, x3);
    RegisterUnfolds(c, x0, x1, x2, x3);
  }

  lemma {:induction false} WordParts(x0: bv8, x1: bv8, x2: bv8, x3: bv8)
    ensures (Word(x0, x1, x2, x3) >> 24) as bv8 == x0
    ensures ((Word(x0, x1, x2, x3) >> 16) & 0xFF) as bv8 == x1
    ensures ((Word(x0, x1, x2, x3) >> 8) & 0xFF) as bv8 == x2
    ensures (Word(x0, x1, x2, x3) & 0xFF) as bv8 == x3
  {
  }

  lemma {:induction false} WordInjective(x0: bv8, x1: bv8, x2: bv8, x3: bv8, y0: bv8, y1: bv8, y2: bv8, y3: bv8)
    requires Word(x0, x1, x2, x3) == Word(y0, y1, y2, y3)
    ensures x0 == y0 && x1 == y1 && x2 == y2 && x3 == y3
  {
    hide Word;
    WordParts(x0, x1, x2, x3);
    WordParts(y0, y1, y2, y3);
  }

  // ----- what the check word detects -----

  /** The last four bytes are the register of all bytes before them. */
  predicate Checked(b: seq<bv8>)
    requires 4 <= |b|
  {
    var n := |b|;
    Register(PRESET, b[..n - 4]) == Word(b[n - 4], b[n - 3], b[n - 2], b[n - 1])
  }

  /** A message carries the right check word exactly when the register over all of it is zero. */
  lemma {:induction false} CheckedIffZero(b: seq<bv8>)
    requires 4 <= |b|
    ensures Checked(b) <==> Register(PRESET, b) == 0
  {
    hide Xor, Shifts, Absorb, Word;
    var n := |b|;
    var word := [b[n - 4], b[n - 3], b[n - 2], b[n - 1]];
    assert b == b[..n - 4] + word;
    var r := Register(PRESET, b[..n - 4]);
    RegisterConcat(PRESET, b[..n - 4], word);
    RegisterOfWord(r, word[0], word[1], word[2], word[3]);
    var w := Word(word[0], word[1], word[2], word[3]);
    ShiftsKernel(Xor(r, w), 32);
    XorZero(r, w);
  }

  /** Two messages that differ only inside four neighbouring bytes have different registers. */
  lemma {:induction false} BurstChangesRegister(c: bv32, a: seq<bv8>, b: seq<bv8>, p: nat)
    requires |a| == |b| && p + 4 <= |a|
    requires a[..p] == b[..p] && a[p + 4..] == b[p + 4..]
    requires Register(c, a) == Register(c, b)
    ensures a == b
  {
    hide Xor, Shifts, Absorb, Word;
    var x, y := [a[p], a[p + 1], a[p + 2], a[p + 3]], [b[p], b[p + 1], b[p + 2], b[p + 3]];
    var pre, post := a[..p], a[p + 4..];
    assert a == pre + (x + post) && b == pre + (y + post);
    var r := Register(c, pre);
    RegisterConcat(c, pre, x + post);
    RegisterConcat(c, pre, y + post);
    RegisterConcat(r, x, post);
    RegisterConcat(r, y, post);
    RegisterInjective(Register(r, x), Register(r, y), post);
    RegisterOfWord(r, x[0], x[1], x[2], x[3]);
    RegisterOfWord(r, y[0], y[1], y[2], y[3]);
    var v, w := Word(x[0], x[1], x[2], x[3]), Word(y[0], y[1], y[2], y[3]);
    ShiftsInjective(Xor(r, v), Xor(r, w), 32);
    XorCommutes(r, v);
    XorCommutes(r, w);
    XorInjective(v, w, r);
    WordInjective(x[0], x[1], x[2], x[3], y[0], y[1], y[2], y[3]);
  }
}
