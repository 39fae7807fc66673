/** Big-endian numbers in byte sequences, and the 64-bit arithmetic of the program. */
module Bytes {
  type byte = n: int | 0 <= n < 256

  function Pow256(n: nat): nat { if n == 0 then 1 else 256 * Pow256(n - 1) }

  function Number(b: seq<byte>): nat {
    if b == [] then 0 else Number(b[..|b| - 1]) * 256 + b[|b| - 1]
  }

  /** The last n bytes of v, highest first. */
  function Digits(v: nat, n: nat): (b: seq<byte>)
    ensures |b| == n
  {
    if n == 0 then [] else Digits(v / 256, n - 1) + [v % 256]
  }

  lemma {:induction false} NumberOfDigits(v: nat, n: nat)
    requires v < Pow256(n)
    ensures Number(Digits(v, n)) == v
  {
    if n != 0 {
      NumberOfDigits(v / 256, n - 1);
      assert Digits(v, n)[..n - 1] == Digits(v / 256, n - 1);
    }
  }

  lemma {:induction false} DigitsOfNumber(b: seq<byte>)
    ensures Digits(Number(b), |b|) == b && Number(b) < Pow256(|b|)
  {
    if b != [] {
      DigitsOfNumber(b[..|b| - 1]);
    }
  }

  const B64: int := 0x1_0000_0000_0000_0000

  lemma {:induction false} Pow256Of8()
    ensures Pow256(8) == B64
  {
    assert Pow256(2) == 0x1_0000;
    assert Pow256(4) == 0x1_0000_0000;
    assert Pow256(6) == 0x1_0000_0000_0000;
  }

  function U32(b: seq<byte>, p: nat): nat
    requires p + 4 <= |b|
  {
    Number(b[p..p + 4])
  }

  function U64(b: seq<byte>, p: nat): (v: nat)
    requires p + 8 <= |b|
    ensures v < B64
  {
    DigitsOfNumber(b[p..p + 8]);
    Pow256Of8();
    Number(b[p..p + 8])
  }

  /** b with the eight bytes from p on replaced by the number v. */
  function Put64(b: seq<byte>, p: nat, v: nat): (r: seq<byte>)
    requires p + 8 <= |b|
    ensures |r| == |b|
  {
    b[..p] + Digits(v, 8) + b[p + 8..]
  }

  lemma {:induction false} Put64Reads(b: seq<byte>, p: nat, v: nat)
    requires p + 8 <= |b| && v < B64
    ensures U64(Put64(b, p, v), p) == v
    ensures forall i :: 0 <= i < |b| && !(p <= i < p + 8) ==> Put64(b, p, v)[i] == b[i]
  {
    Pow256Of8();
    NumberOfDigits(v, 8);
    assert Put64(b, p, v)[p..p + 8] == Digits(v, 8);
  }

  /** A number in the range of int64, with the same remainder modulo 2^64. */
  function Wrap64(x: int): (r: int)
    ensures -B64 / 2 <= r < B64 / 2
  {
    (x + B64 / 2) % B64 - B64 / 2
  }

  /** The bits of an int64 as uint64. */
  function Unsigned64(x: int): (r: nat)
    ensures r < B64
  {
    x % B64
  }

  lemma {:induction false} WrapOfUnsigned(x: int)
    requires -B64 / 2 <= x < B64 / 2
    ensures Wrap64(Unsigned64(x)) == x && Wrap64(x) == x
    ensures 0 <= x ==> Unsigned64(x) == x
  {
  }

  lemma {:induction false} UnsignedOfWrap(x: int)
    ensures Unsigned64(Wrap64(x)) == x % B64
  {
  }

  /** A wrapped number differs from the number by whole turns, and nothing else in range does. */
  lemma {:induction false} WrapTurns(x: int) returns (q: int)
    ensures x == Wrap64(x) + q * B64
  {
    q := (x + B64 / 2) / B64;
  }

  lemma {:induction false} WrapIsUnique(x: int, r: int, q: int)
    requires x == r + q * B64 && -B64 / 2 <= r < B64 / 2
    ensures Wrap64(x) == r
  {
  }

  /** Adding what was taken away gives the number back, whatever wraps on the way. */
  lemma {:induction false} WrapAddSub(x: int, a: int)
    ensures Wrap64(Wrap64(a) + Wrap64(Wrap64(x) - Wrap64(a))) == Wrap64(x)
  {
    hide Wrap64;
    var q := WrapTurns(Wrap64(x) - Wrap64(a));
    WrapIsUnique(Wrap64(a) + Wrap64(Wrap64(x) - Wrap64(a)), Wrap64(x), -q);
  }

  /** Taking away what was added gives the number back. */
  lemma {:induction false} WrapSubAdd(x: int, a: int)
    ensures Wrap64(Wrap64(Wrap64(a) + x) - Wrap64(a)) == Wrap64(x)
  {
    hide Wrap64;
    var q := WrapTurns(Wrap64(a) + x);
    var p := WrapTurns(x);
    WrapIsUnique(Wrap64(Wrap64(a) + x) - Wrap64(a), Wrap64(x), p - q);
  }
}
