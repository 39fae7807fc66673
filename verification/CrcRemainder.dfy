/**
 The check word as the standard has it: the remainder of a polynomial division. Polynomials
 over the two bits are lists of bits, the highest exponent first.
 */
module CrcRemainder {
  import opened Crc

  type Bits = seq<bool>

  function Zeros(n: nat): (r: Bits)
    ensures |r| == n && forall i :: 0 <= i < n ==> !r[i]
  {
    seq(n, _ => false)
  }

  function Ones(n: nat): (r: Bits)
    ensures |r| == n && forall i :: 0 <= i < n ==> r[i]
  {
    seq(n, _ => true)
  }

  /** The sum of two polynomials of the same length. */
  function Sum(a: Bits, b: Bits): (r: Bits)
    requires |a| == |b|
    ensures |r| == |a| && forall i :: 0 <= i < |a| ==> r[i] == (a[i] != b[i])
  {
    seq(|a|, i requires 0 <= i < |a| => a[i] != b[i])
  }

  /** The product of two polynomials, by the digits of the first. */
  function Product(q: Bits, g: Bits): (r: Bits)
    requires g != []
    ensures |r| == |q| + |g| - 1
  {
    if q == [] then Zeros(|g| - 1)
    else Sum((if q[0] then g else Zeros(|g|)) + Zeros(|q| - 1), [false] + Product(q[1..], g))
  }

  /** m is a multiple of g and r added up, where r has fewer digits than g. */
  predicate Divides(m: Bits, g: Bits, q: Bits, r: Bits) {
    g != [] && |r| == |g| - 1 && |m| == |q| + |r| && m == Sum(Product(q, g), Zeros(|q|) + r)
  }

  ghost predicate IsRemainder(m: Bits, g: Bits, r: Bits) { exists q :: Divides(m, g, q, r) }

  /** A monic polynomial leaves one remainder. */
  lemma {:induction false} RemainderIsUnique(m: Bits, g: Bits, q: Bits, r: Bits, q': Bits, r': Bits)
    requires Divides(m, g, q, r) && Divides(m, g, q', r') && g[0]
    ensures q == q' && r == r'
    decreases |q|
  {
    if q == [] {
      assert Zeros(0) + r == r && Zeros(0) + r' == r';
      forall i | 0 <= i < |r| ensures r[i] == r'[i] {
        assert m[i] == (Product(q, g)[i] != (Zeros(0) + r)[i]);
        assert m[i] == (Product(q', g)[i] != (Zeros(0) + r')[i]);
      }
    } else {
      var p := (if q[0] then g else Zeros(|g|)) + Zeros(|q| - 1);
      assert q[0] == m[0] == q'[0];
      var rest := Sum(m, p)[1..];
      DividesRest(m, g, q, r, p);
      DividesRest(m, g, q', r', p);
      RemainderIsUnique(rest, g, q[1..], r, q'[1..], r');
      assert q == [q[0]] + q[1..] && q' == [q'[0]] + q'[1..];
    }
  }

  lemma {:induction false} DividesRest(m: Bits, g: Bits, q: Bits, r: Bits, p: Bits)
    requires Divides(m, g, q, r) && q != [] && p == (if q[0] then g else Zeros(|g|)) + Zeros(|q| - 1)
    ensures Divides(Sum(m, p)[1..], g, q[1..], r)
  {
    var rest, product := Sum(m, p)[1..], Product(q[1..], g);
    forall i | 0 <= i < |rest| ensures rest[i] == Sum(product, Zeros(|q| - 1) + r)[i] {
      assert m[i + 1] == (Product(q, g)[i + 1] != (Zeros(|q|) + r)[i + 1]);
      assert Product(q, g)[i + 1] == (p[i + 1] != ([false] + product)[i + 1]);
      assert (Zeros(|q|) + r)[i + 1] == (Zeros(|q| - 1) + r)[i];
    }
    assert rest == Sum(product, Zeros(|q| - 1) + r);
  }

  // ----- words and messages as bits -----

  predicate Has8(a: bv8, mask: bv8) { a & mask != 0 }

  /** The bits of a byte, the highest first. */
  function Bits8(x: bv8): (r: Bits)
    ensures |r| == 8
  {
    [Has8(x, 0x80), Has8(x, 0x40), Has8(x, 0x20), Has8(x, 0x10),
     Has8(x, 0x08), Has8(x, 0x04), Has8(x, 0x02), Has8(x, 0x01)]
  }

  function Byte0(w: bv32): bv8 { (w >> 24) as bv8 }
  function Byte1(w: bv32): bv8 { ((w >> 16) & 0xFF) as bv8 }
  function Byte2(w: bv32): bv8 { ((w >> 8) & 0xFF) as bv8 }
  function Byte3(w: bv32): bv8 { (w & 0xFF) as bv8 }

  function Bits32(w: bv32): (r: Bits)
    ensures |r| == 32
  {
    Bits8(Byte0(w)) + Bits8(Byte1(w)) + Bits8(Byte2(w)) + Bits8(Byte3(w))
  }

  function BitsOf(b: seq<bv8>): (r: Bits)
    ensures |r| == 8 * |b|
  {
    if b == [] then [] else Bits8(b[0]) + BitsOf(b[1..])
  }

  /** A message with a word added to its first digits. */
  function Preset(r: Bits, m: Bits): (p: Bits)
    requires |r| <= |m|
    ensures |p| == |m| && forall i :: 0 <= i < |m| ==> p[i] == if i < |r| then m[i] != r[i] else m[i]
  {
    seq(|m|, i requires 0 <= i < |m| => if i < |r| then m[i] != r[i] else m[i])
  }

  /** x^32 + x^26 + x^23 + x^22 + x^16 + x^12 + x^11 + x^10 + x^8 + x^7 + x^5 + x^4 + x^2 + x + 1 */
  function Generator(): (g: Bits)
    ensures |g| == 33 && forall i :: 0 <= i < 33 ==>
      (g[i] <==> 32 - i in {32, 26, 23, 22, 16, 12, 11, 10, 8, 7, 5, 4, 2, 1, 0})
  {
    seq(33, i requires 0 <= i < 33 => 32 - i in {32, 26, 23, 22, 16, 12, 11, 10, 8, 7, 5, 4, 2, 1, 0})
  }

  // ----- one step of the division -----

  function Xor8(a: bv8, b: bv8): bv8 { a ^ b }

  /** A byte moved up, with the first bit of the next one behind it. */
  function Up8(a: bv8, b: bv8): bv8 { (a << 1) | (b >> 7) }

  lemma {:induction false} HasOfXor8(a: bv8, b: bv8)
    ensures Has8(Xor8(a, b), 0x80) == (Has8(a, 0x80) != Has8(b, 0x80))
    ensures Has8(Xor8(a, b), 0x40) == (Has8(a, 0x40) != Has8(b, 0x40))
    ensures Has8(Xor8(a, b), 0x20) == (Has8(a, 0x20) != Has8(b, 0x20))
    ensures Has8(Xor8(a, b), 0x10) == (Has8(a, 0x10) != Has8(b, 0x10))
    ensures Has8(Xor8(a, b), 0x08) == (Has8(a, 0x08) != Has8(b, 0x08))
    ensures Has8(Xor8(a, b), 0x04) == (Has8(a, 0x04) != Has8(b, 0x04))
    ensures Has8(Xor8(a, b), 0x02) == (Has8(a, 0x02) != Has8(b, 0x02))
    ensures Has8(Xor8(a, b), 0x01) == (Has8(a, 0x01) != Has8(b, 0x01))
  {
  }

  lemma {:induction false} EightBits(x: bv8)
    ensures var b := Bits8(x);
      && b[0] == Has8(x, 0x80) && b[1] == Has8(x, 0x40) && b[2] == Has8(x, 0x20) && b[3] == Has8(x, 0x10)
      && b[4] == Has8(x, 0x08) && b[5] == Has8(x, 0x04) && b[6] == Has8(x, 0x02) && b[7] == Has8(x, 0x01)
  {
    hide Has8;
  }

  lemma {:induction false} BitsOfXor8(a: bv8, b: bv8)
    ensures Bits8(Xor8(a, b)) == Sum(Bits8(a), Bits8(b))
  {
    HasOfXor8(a, b);
    EightBits(a);
    EightBits(b);
    EightBits(Xor8(a, b));
    hide Xor8, Has8, Bits8;
    SumOfEight(Bits8(a), Bits8(b), Bits8(Xor8(a, b)));
  }

  lemma {:induction false} SumOfEight(a: Bits, b: Bits, c: Bits)
    requires |a| == |b| == |c| == 8
    requires c[0] == (a[0] != b[0]) && c[1] == (a[1] != b[1]) && c[2] == (a[2] != b[2]) && c[3] == (a[3] != b[3])
    requires c[4] == (a[4] != b[4]) && c[5] == (a[5] != b[5]) && c[6] == (a[6] != b[6]) && c[7] == (a[7] != b[7])
    ensures c == Sum(a, b)
  {
  }

  lemma {:induction false} BitsOfUp8(a: bv8, b: bv8)
    ensures Bits8(Up8(a, b)) == Bits8(a)[1..] + [Bits8(b)[0]]
  {
  }

  lemma {:induction false} FixedBytes()
    ensures Bits8(0) == Zeros(8) && Bits8(0xFF) == Ones(8)
    ensures Bits8(0x04) == [false, false, false, false, false, true, false, false]
    ensures Bits8(0xC1) == [true, true, false, false, false, false, false, true]
    ensures Bits8(0x1D) == [false, false, false, true, true, true, false, true]
    ensures Bits8(0xB7) == [true, false, true, true, false, true, true, true]
  {
  }

  lemma {:induction false} BytesOfConstants()
    ensures Byte0(POLYNOMIAL) == 0x04 && Byte1(POLYNOMIAL) == 0xC1
    ensures Byte2(POLYNOMIAL) == 0x1D && Byte3(POLYNOMIAL) == 0xB7
    ensures Byte0(PRESET) == Byte1(PRESET) == Byte2(PRESET) == Byte3(PRESET) == 0xFF
  {
  }

  lemma {:induction false} Byte0OfXor(a: bv32, b: bv32)
    ensures Byte0(Xor(a, b)) == Xor8(Byte0(a), Byte0(b))
  {
  }

  lemma {:induction false} Byte1OfXor(a: bv32, b: bv32)
    ensures Byte1(Xor(a, b)) == Xor8(Byte1(a), Byte1(b))
  {
  }

  lemma {:induction false} Byte2OfXor(a: bv32, b: bv32)
    ensures Byte2(Xor(a, b)) == Xor8(Byte2(a), Byte2(b))
  {
  }

  lemma {:induction false} Byte3OfXor(a: bv32, b: bv32)
    ensures Byte3(Xor(a, b)) == Xor8(Byte3(a), Byte3(b))
  {
  }

  lemma {:induction false} BytesOfXor(a: bv32, b: bv32)
    ensures Byte0(Xor(a, b)) == Xor8(Byte0(a), Byte0(b)) && Byte1(Xor(a, b)) == Xor8(Byte1(a), Byte1(b))
    ensures Byte2(Xor(a, b)) == Xor8(Byte2(a), Byte2(b)) && Byte3(Xor(a, b)) == Xor8(Byte3(a), Byte3(b))
  {
    hide Xor, Xor8, Byte0, Byte1, Byte2, Byte3;
    Byte0OfXor(a, b);
    Byte1OfXor(a, b);
    Byte2OfXor(a, b);
    Byte3OfXor(a, b);
  }

  lemma {:induction false} BytesOfUp(w: bv32)
    ensures Byte0(Up(w)) == Up8(Byte0(w), Byte1(w)) && Byte1(Up(w)) == Up8(Byte1(w), Byte2(w))
    ensures Byte2(Up(w)) == Up8(Byte2(w), Byte3(w)) && Byte3(Up(w)) == Up8(Byte3(w), 0)
    ensures Top(w) <==> Byte0(w) & 0x80 != 0
  {
  }

  lemma {:induction false} BytesOfHigh(x: bv8)
    ensures Byte0(High(x)) == x && Byte1(High(x)) == Byte2(High(x)) == Byte3(High(x)) == 0
  {
  }

  lemma {:induction false} BitsOfXor(a: bv32, b: bv32)
    ensures Bits32(Xor(a, b)) == Sum(Bits32(a), Bits32(b))
  {
    BytesOfXor(a, b);
    hide Xor, Xor8, Byte0, Byte1, Byte2, Byte3, Bits8;
    BitsOfXor8(Byte0(a), Byte0(b));
    BitsOfXor8(Byte1(a), Byte1(b));
    BitsOfXor8(Byte2(a), Byte2(b));
    BitsOfXor8(Byte3(a), Byte3(b));
  }

  lemma {:induction false} BitsOfUp(w: bv32)
    ensures Bits32(Up(w)) == Bits32(w)[1..] + [false] && (Top(w) <==> Bits32(w)[0])
  {
    BytesOfUp(w);
    FirstBit(Byte0(w));
    FixedBytes();
    hide Up, Up8, Top, Byte0, Byte1, Byte2, Byte3, Bits8;
    BitsOfUp8(Byte0(w), Byte1(w));
    BitsOfUp8(Byte1(w), Byte2(w));
    BitsOfUp8(Byte2(w), Byte3(w));
    BitsOfUp8(Byte3(w), 0);
    FourUp(Bits8(Byte0(w)), Bits8(Byte1(w)), Bits8(Byte2(w)), Bits8(Byte3(w)));
  }

  lemma {:induction false} FirstBit(x: bv8)
    ensures Bits8(x)[0] <==> x & 0x80 != 0
  {
  }

  lemma {:induction false} FourUp(a: Bits, b: Bits, c: Bits, d: Bits)
    requires |a| == |b| == |c| == |d| == 8
    ensures a[1..] + [b[0]] + (b[1..] + [c[0]]) + (c[1..] + [d[0]]) + (d[1..] + [false])
         == (a + b + c + d)[1..] + [false]
  {
  }

  lemma {:induction false} BitsOfHigh(x: bv8)
    ensures Bits32(High(x)) == Bits8(x) + Zeros(24)
  {
    BytesOfHigh(x);
    FixedBytes();
    hide High, Byte0, Byte1, Byte2, Byte3, Bits8;
  }

  lemma {:induction false} BitsOfPreset()
    ensures Bits32(PRESET) == Ones(32)
  {
    BytesOfConstants();
    FixedBytes();
    hide Byte0, Byte1, Byte2, Byte3, Bits8;
  }

  /** The constant of the program is the generator without its highest term. */
  lemma {:induction false} PolynomialIs()
    ensures Bits32(POLYNOMIAL) == Generator()[1..]
  {
    BytesOfConstants();
    FixedBytes();
    hide Byte0, Byte1, Byte2, Byte3, Bits8;
    assert Generator()[1..] == [
      false, false, false, false, false, true, false, false, true, true, false, false, false, false, false, true,
      false, false, false, true, true, true, false, true, true, false, true, true, false, true, true, true];
  }

  // ----- the register divides -----

  /** One step of the register, on bits. */
  lemma {:induction false} BitsOfShift(c: bv32)
    ensures var g, r := Generator(), Bits32(c);
      Bits32(Shift(c)) == Sum(r[1..] + [false], if r[0] then g[1..] else Zeros(32))
  {
    BitsOfUp(c);
    PolynomialIs();
    BitsOfXor(Up(c), POLYNOMIAL);
    hide Xor, Up, Top, Bits32;
  }

  /** A word in front of a message is one bit of the quotient and the next word in front of the rest. */
  lemma {:induction false} OneBit(c: bv32, t: Bits)
    requires 32 <= |t|
    ensures var g, r := Generator(), Bits32(c);
      Preset(r, [false] + t)
      == Sum((if r[0] then g else Zeros(33)) + Zeros(|t| - 32), [false] + Preset(Bits32(Shift(c)), t))
  {
    BitsOfShift(c);
    hide Shift, Bits32;
  }

  lemma {:induction false} OneDigit(c: bv32, t: Bits, q: Bits, r: Bits)
    requires 32 <= |t| && Divides(Preset(Bits32(Shift(c)), t), Generator(), q, r)
    ensures Divides(Preset(Bits32(c), [false] + t), Generator(), [Bits32(c)[0]] + q, r)
  {
    OneBit(c, t);
    var g, q1 := Generator(), [Bits32(c)[0]] + q;
    assert q1[1..] == q;
    assert Zeros(|q1|) + r == [false] + (Zeros(|q|) + r);
    hide Shift, Bits32, Generator, Preset;
    var p := (if q1[0] then g else Zeros(33)) + Zeros(|q1| - 1);
    SumMoves(p, Product(q, g), Zeros(|q|) + r);
  }

  lemma {:induction false} SumMoves(p: Bits, a: Bits, b: Bits)
    requires |p| == |a| + 1 == |b| + 1
    ensures Sum(p, [false] + Sum(a, b)) == Sum(Sum(p, [false] + a), [false] + b)
  {
  }

  /** n steps of the register divide n zeros. */
  lemma {:induction false} DigitsOfShifts(c: bv32, n: nat, t: Bits, q: Bits, r: Bits) returns (q': Bits)
    requires 32 <= |t| && Divides(Preset(Bits32(Shifts(c, n)), t), Generator(), q, r)
    ensures Divides(Preset(Bits32(c), Zeros(n) + t), Generator(), q', r)
    decreases n
  {
    hide Shift, Bits32, Generator, Divides;
    if n == 0 {
      assert Zeros(0) + t == t;
      q' := q;
    } else {
      var q1 := DigitsOfShifts(Shift(c), n - 1, t, q, r);
      OneDigit(c, Zeros(n - 1) + t, q1, r);
      assert [false] + (Zeros(n - 1) + t) == Zeros(n) + t;
      q' := [Bits32(c)[0]] + q1;
    }
  }

  lemma {:induction false} AbsorbedBits(c: bv32, x: bv8, t: Bits)
    requires 32 <= |t|
    ensures Preset(Bits32(Xor(c, High(x))), Zeros(8) + t) == Preset(Bits32(c), Bits8(x) + t)
  {
    BitsOfXor(c, High(x));
    BitsOfHigh(x);
    hide Xor, High, Bits32, Bits8;
  }

  lemma {:induction false} RegisterDivides(c: bv32, b: seq<bv8>) returns (q: Bits)
    ensures Divides(Preset(Bits32(c), BitsOf(b) + Zeros(32)), Generator(), q, Bits32(Register(c, b)))
    decreases |b|
  {
    hide Xor, High, Shifts, Bits32, Bits8, Generator;
    if b == [] {
      q := [];
      var r := Bits32(c);
      assert BitsOf(b) + Zeros(32) == Zeros(32);
      assert Preset(r, Zeros(32)) == r;
      assert Sum(Product([], Generator()), Zeros(0) + r) == r;
    } else {
      var t := BitsOf(b[1..]) + Zeros(32);
      var q1 := RegisterDivides(Absorb(c, b[0]), b[1..]);
      q := DigitsOfShifts(Xor(c, High(b[0])), 8, t, q1, Bits32(Register(c, b)));
      AbsorbedBits(c, b[0], t);
      assert BitsOf(b) + Zeros(32) == Bits8(b[0]) + t;
    }
  }

  /**
   The check word of every message is the one remainder of its bits, with ones added to the first 32
   and 32 zeros behind them, divided by the generator of the standard.
   */
  lemma {:induction false} CheckWordIsRemainder(b: seq<bv8>, r: Bits)
    ensures IsRemainder(Preset(Ones(32), BitsOf(b) + Zeros(32)), Generator(), r) <==> r == Bits32(Register(PRESET, b))
  {
    BitsOfPreset();
    var q := RegisterDivides(PRESET, b);
    var m := Preset(Ones(32), BitsOf(b) + Zeros(32));
    assert Generator()[0];
    hide Register, Bits32, Generator, Divides;
    if IsRemainder(m, Generator(), r) {
      var q' :| Divides(m, Generator(), q', r);
      RemainderIsUnique(m, Generator(), q, Bits32(Register(PRESET, b)), q', r);
    }
  }
}
