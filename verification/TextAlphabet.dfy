/**
 The two texts of a section against their standard: base16 and base64 as sections 8 and 4 of
 RFC 4648 define them, by alphabet and by the value of a group of bytes.
 */
module TextAlphabet {
  import opened Bytes
  import opened SpliceText

  const BASE64 := "ABCDEFGHIJKLMNOP" + "QRSTUVWXYZabcdef" + "ghijklmnopqrstuv" + "wxyz0123456789+/"
  const UPPER := "0123456789ABCDEF"
  const LOWER := "0123456789abcdef"

  lemma {:induction false} LetterIs(n: int)
    requires 0 <= n < 64
    ensures Letter(n) == BASE64[n]
  {
    if n < 16 { FirstLetters(n); } else if n < 32 { SecondLetters(n); }
    else if n < 48 { ThirdLetters(n); } else { LastLetters(n); }
  }

  lemma {:induction false} FirstLetters(n: int)
    requires 0 <= n < 16
    ensures Letter(n) == BASE64[n]
  {
    assert BASE64[n] == "ABCDEFGHIJKLMNOP"[n];
  }

  lemma {:induction false} SecondLetters(n: int)
    requires 16 <= n < 32
    ensures Letter(n) == BASE64[n]
  {
    assert BASE64[n] == "QRSTUVWXYZabcdef"[n - 16];
  }

  lemma {:induction false} ThirdLetters(n: int)
    requires 32 <= n < 48
    ensures Letter(n) == BASE64[n]
  {
    assert BASE64[n] == "ghijklmnopqrstuv"[n - 32];
  }

  lemma {:induction false} LastLetters(n: int)
    requires 48 <= n < 64
    ensures Letter(n) == BASE64[n]
  {
    assert BASE64[n] == "wxyz0123456789+/"[n - 48];
  }

  lemma {:induction false} HexCharIs(n: int, upper: bool)
    requires 0 <= n < 16
    ensures HexChar(n, upper) == (if upper then UPPER else LOWER)[n]
  {
  }

  /** Two digits a byte, the upper half first. */
  lemma {:induction false} HexIsStandard(b: seq<byte>, upper: bool, i: nat)
    requires i < |b|
    ensures var digits := if upper then UPPER else LOWER;
      HexDigits(b, upper)[2 * i] == digits[b[i] / 16] && HexDigits(b, upper)[2 * i + 1] == digits[b[i] % 16]
    decreases |b|
  {
    if i == 0 {
      HexCharIs(b[0] / 16, upper);
      HexCharIs(b[0] % 16, upper);
      hide HexChar;
    } else {
      HexIsStandard(b[1..], upper, i - 1);
      hide HexChar;
      var digits, rest := if upper then UPPER else LOWER, HexDigits(b[1..], upper);
      assert HexDigits(b, upper)[2 * i] == rest[2 * (i - 1)];
      assert HexDigits(b, upper)[2 * i + 1] == rest[2 * (i - 1) + 1];
    }
  }

  /** Three bytes as a number of 24 bits; a missing byte is zero. */
  function Group(b: seq<byte>): nat {
    (if |b| > 0 then 0x1_0000 * b[0] as int else 0) + (if |b| > 1 then 0x100 * b[1] as int else 0)
    + if |b| > 2 then b[2] else 0
  }

  /** The k-th of the four numbers of six bits in a number of 24 bits, the highest first. */
  function SixBits(v: nat, k: nat): int
    requires k < 4
  {
    v / (if k == 0 then 0x4_0000 else if k == 1 then 0x1000 else if k == 2 then 0x40 else 1) % 64
  }

  function Encoded(v: nat, k: nat): char
    requires k < 4
  {
    BASE64[SixBits(v, k)]
  }

  /** Base64: four letters for every three bytes, and one letter more than bytes in a last group that is short. */
  function Standard(b: seq<byte>, pad: string): string {
    var v := Group(b);
    if b == [] then ""
    else if |b| == 1 then [Encoded(v, 0), Encoded(v, 1)] + pad + pad
    else if |b| == 2 then [Encoded(v, 0), Encoded(v, 1), Encoded(v, 2)] + pad
    else [Encoded(v, 0), Encoded(v, 1), Encoded(v, 2), Encoded(v, 3)] + Standard(b[3..], pad)
  }

  lemma {:induction false} SixBitsAre(b0: byte, b1: byte, b2: byte)
    ensures var v := 0x1_0000 * b0 as int + 0x100 * b1 as int + b2;
      && SixBits(v, 0) == Six0(b0) && SixBits(v, 1) == Six1(b0, b1) && SixBits(v, 2) == Six2(b1, b2)
      && SixBits(v, 3) == Six3(b2)
  {
    var v, q0, r0, q1, r1, q2, r2 :=
      0x1_0000 * b0 as int + 0x100 * b1 as int + b2, b0 / 4, b0 % 4, b1 / 16, b1 % 16, b2 / 64, b2 % 64;
    Quotient(v, 0x4_0000, q0, 0x1_0000 * r0 + 0x100 * b1 as int + b2);
    Quotient(v, 0x1000, 64 * q0 + 16 * r0 + q1, 0x100 * r1 + b2);
    Quotient(v, 0x40, 4096 * q0 + 1024 * r0 + 64 * q1 + 4 * r1 + q2, r2);
    Quotient(64 * q0 + 16 * r0 + q1, 64, q0, 16 * r0 + q1);
    Quotient(4096 * q0 + 1024 * r0 + 64 * q1 + 4 * r1 + q2, 64, 64 * q0 + 16 * r0 + q1, 4 * r1 + q2);
    Quotient(v, 64, 4096 * q0 + 1024 * r0 + 64 * q1 + 4 * r1 + q2, r2);
  }

  lemma {:induction false} Quotient(v: nat, d: nat, q: nat, r: nat)
    requires d == 0x4_0000 || d == 0x1000 || d == 64
    requires v == d * q + r && r < d
    ensures v / d == q && v % d == r
  {
  }

  lemma {:induction false} EncodedAre(b0: byte, b1: byte, b2: byte)
    ensures var v := 0x1_0000 * b0 as int + 0x100 * b1 as int + b2;
      && Encoded(v, 0) == Letter(Six0(b0)) && Encoded(v, 1) == Letter(Six1(b0, b1))
      && Encoded(v, 2) == Letter(Six2(b1, b2)) && Encoded(v, 3) == Letter(Six3(b2))
  {
    SixBitsAre(b0, b1, b2);
    hide SixBits, Letter, Six0, Six1, Six2, Six3;
    LetterIs(Six0(b0));
    LetterIs(Six1(b0, b1));
    LetterIs(Six2(b1, b2));
    LetterIs(Six3(b2));
  }

  lemma {:induction false} GroupIsEncoded(b: seq<byte>)
    requires b != []
    ensures var b1: byte, b2: byte := if |b| > 1 then b[1] else 0, if |b| > 2 then b[2] else 0;
      && Encoded(Group(b), 0) == Letter(Six0(b[0])) && Encoded(Group(b), 1) == Letter(Six1(b[0], b1))
      && Encoded(Group(b), 2) == Letter(Six2(b1, b2)) && Encoded(Group(b), 3) == Letter(Six3(b2))
  {
    hide Encoded, Letter, Six0, Six1, Six2, Six3;
    var b1: byte, b2: byte := if |b| > 1 then b[1] else 0, if |b| > 2 then b[2] else 0;
    assert Group(b) == 0x1_0000 * b[0] as int + 0x100 * b1 as int + b2;
    hide Group;
    EncodedAre(b[0], b1, b2);
  }

  /** What the program writes, and so what it reads back, is the base64 of the standard. */
  lemma {:induction false} Base64IsStandard(b: seq<byte>, pad: string)
    ensures Base64Text(b, pad) == Standard(b, pad)
    decreases |b|
  {
    if b != [] {
      GroupIsEncoded(b);
      hide Encoded, Letter, Six0, Six1, Six2, Six3, Group;
      if |b| >= 3 { Base64IsStandard(b[3..], pad); }
    }
  }
}
