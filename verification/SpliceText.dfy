/**
 The two texts in which a splice_info_section is exchanged, hexadecimal and base64,
 and the parser that accepts either.
 */
module SpliceText {
  import opened Common
  import opened Bytes

  // ----- bytes as numbers -----

  function Numbers(b: seq<bv8>): (r: seq<byte>)
    ensures |r| == |b| && forall i :: 0 <= i < |b| ==> r[i] == b[i] as int
  {
    seq(|b|, i requires 0 <= i < |b| => b[i] as int)
  }

  function Octets(b: seq<byte>): (r: seq<bv8>)
    ensures |r| == |b| && forall i :: 0 <= i < |b| ==> r[i] == b[i] as bv8
  {
    seq(|b|, i requires 0 <= i < |b| => b[i] as bv8)
  }

  lemma {:induction false} OctetsOfNumbers(b: seq<bv8>)
    ensures Octets(Numbers(b)) == b
  {
    forall i | 0 <= i < |b|
      ensures Octets(Numbers(b))[i] == b[i]
    {
      Octet(b[i]);
    }
  }

  lemma {:induction false} Octet(x: bv8)
    ensures (x as int) as bv8 == x
  {
  }

  // ----- hexadecimal -----

  function HexValue(c: char): Option<int> {
    if '0' <= c <= '9' then Some(c as int - '0' as int)
    else if 'a' <= c <= 'f' then Some(c as int - 'a' as int + 10)
    else if 'A' <= c <= 'F' then Some(c as int - 'A' as int + 10)
    else None
  }

  function HexChar(n: int, upper: bool): (c: char)
    requires 0 <= n < 16
    ensures HexValue(c) == Some(n)
  {
    if n < 10 then (n + '0' as int) as char
    else (n - 10 + (if upper then 'A' else 'a') as int) as char
  }

  function HexDigits(b: seq<byte>, upper: bool): (t: string)
    ensures |t| == 2 * |b|
  {
    if b == [] then "" else [HexChar(b[0] / 16, upper), HexChar(b[0] % 16, upper)] + HexDigits(b[1..], upper)
  }

  function Hex(b: seq<bv8>): string { "0x" + HexDigits(Numbers(b), true) }

  function HexDecode(t: string): Option<seq<byte>> {
    if t == "" then Some([])
    else if |t| == 1 then None
    else
      match (HexValue(t[0]), HexValue(t[1]), HexDecode(t[2..]))
      case (Some(h), Some(l), Some(rest)) => Some([16 * h + l] + rest)
      case _ => None
  }

  // ----- base64 -----

  /** The sextet of a character of the standard alphabet. */
  function Sextet(c: char): Option<int> {
    if 'A' <= c <= 'Z' then Some(c as int - 'A' as int)
    else if 'a' <= c <= 'z' then Some(c as int - 'a' as int + 26)
    else if '0' <= c <= '9' then Some(c as int - '0' as int + 52)
    else if c == '+' then Some(62)
    else if c == '/' then Some(63)
    else None
  }

  function Letter(n: int): (c: char)
    requires 0 <= n < 64
    ensures Sextet(c) == Some(n)
  {
    if n < 26 then (n + 'A' as int) as char
    else if n < 52 then (n - 26 + 'a' as int) as char
    else if n < 62 then (n - 52 + '0' as int) as char
    else if n == 62 then '+' else '/'
  }

  type sextet = n: int | 0 <= n < 64

  // the four numbers that three bytes are split into; a missing byte counts as zero
  function Six0(b0: byte): sextet { b0 / 4 }
  function Six1(b0: byte, b1: byte): sextet { b0 % 4 * 16 + b1 / 16 }
  function Six2(b1: byte, b2: byte): sextet { b1 % 16 * 4 + b2 / 64 }
  function Six3(b2: byte): sextet { b2 % 64 }

  function Base64Text(b: seq<byte>, pad: string): string {
    if b == [] then ""
    else if |b| == 1 then [Letter(Six0(b[0])), Letter(Six1(b[0], 0))] + pad + pad
    else if |b| == 2 then [Letter(Six0(b[0])), Letter(Six1(b[0], b[1])), Letter(Six2(b[1], 0))] + pad
    else
      [Letter(Six0(b[0])), Letter(Six1(b[0], b[1])), Letter(Six2(b[1], b[2])), Letter(Six3(b[2]))]
      + Base64Text(b[3..], pad)
  }

  function Base64(b: seq<bv8>): string { Base64Text(Numbers(b), "=") }

  function RawBase64(b: seq<bv8>): string { Base64Text(Numbers(b), "") }

  function DropNewlines(t: string): string {
    if t == "" then "" else (if t[0] == '\r' || t[0] == '\n' then "" else [t[0]]) + DropNewlines(t[1..])
  }

  /** The first byte that two sextets hold, and the next two; spare low bits are ignored. */
  function First(s0: int, s1: int): int { s0 * 4 + s1 / 16 }
  function Second(s1: int, s2: int): int { s1 % 16 * 16 + s2 / 4 }
  function Third(s2: int, s3: int): int { s2 % 4 * 64 + s3 }

  /** Two letters hold one byte, three letters hold two. */
  function ShortGroup(t: string): Option<seq<byte>> {
    if !(2 <= |t| <= 3) then None else
      match (Sextet(t[0]), Sextet(t[1]))
      case (Some(s0), Some(s1)) =>
        if |t| == 2 then Some([First(s0, s1)]) else (
          match Sextet(t[2])
          case Some(s2) => Some([First(s0, s1), Second(s1, s2)])
          case None => None
        )
      case _ => None
  }

  /** The last group when it is not full; padded tells whether it must be filled with '='. */
  function LastGroup(t: string, padded: bool): Option<seq<byte>> {
    if !padded then ShortGroup(t)
    else if |t| == 4 && t[3] == '=' then ShortGroup(if t[2] == '=' then t[..2] else t[..3])
    else None
  }

  predicate StartsWithGroup(t: string) {
    4 <= |t| && Sextet(t[0]).Some? && Sextet(t[1]).Some? && Sextet(t[2]).Some? && Sextet(t[3]).Some?
  }

  /** The bytes of the first four letters. */
  function FullGroup(t: string): (r: seq<byte>)
    requires StartsWithGroup(t)
    ensures |r| == 3
  {
    var s0, s1, s2, s3 := Sextet(t[0]).value, Sextet(t[1]).value, Sextet(t[2]).value, Sextet(t[3]).value;
    [First(s0, s1), Second(s1, s2), Third(s2, s3)]
  }

  /** A text without line ends, group by group. */
  function GroupsDecode(t: string, padded: bool): Option<seq<byte>> {
    if t == "" then Some([])
    else if !StartsWithGroup(t) then LastGroup(t, padded)
    else
      match GroupsDecode(t[4..], padded)
      case Some(rest) => Some(FullGroup(t) + rest)
      case None => None
  }

  function Base64Decode(t: string, padded: bool): Option<seq<byte>> { GroupsDecode(DropNewlines(t), padded) }

  // ----- the parser -----

  predicate IsSpace(c: char) {
    || '\t' <= c <= '\r' || c == ' ' || c == '\U{0085}' || c == '\U{00A0}' || c == '\U{1680}'
    || '\U{2000}' <= c <= '\U{200A}' || c == '\U{2028}' || c == '\U{2029}' || c == '\U{202F}'
    || c == '\U{205F}' || c == '\U{3000}'
  }

  function TrimLeft(t: string): string {
    if t != "" && IsSpace(t[0]) then TrimLeft(t[1..]) else t
  }

  function TrimRight(t: string): string {
    if t != "" && IsSpace(t[|t| - 1]) then TrimRight(t[..|t| - 1]) else t
  }

  function TrimPrefix(t: string, p: string): string {
    if p <= t then t[|p|..] else t
  }

  /** A decoder that found at least one byte. */
  predicate Found(r: Option<seq<byte>>) { r.Some? && r.value != [] }

  function Parse(text: string): Result<seq<bv8>, ()> {
    var t := TrimRight(TrimLeft(text));
    var h := HexDecode(TrimPrefix(TrimPrefix(t, "0x"), "0X"));
    var p := Base64Decode(t, true);
    var r := Base64Decode(t, false);
    if Found(h) then Ok(Octets(h.value))
    else if Found(p) then Ok(Octets(p.value))
    else if Found(r) then Ok(Octets(r.value))
    else Err(())
  }

  // ----- what the parser gives back -----

  predicate Plain(t: string) { forall i :: 0 <= i < |t| ==> !IsSpace(t[i]) }

  predicate Blank(t: string) { forall i :: 0 <= i < |t| ==> IsSpace(t[i]) }

  lemma {:induction false} TrimLeftBlank(l: string, t: string)
    requires Blank(l) && (t == "" || !IsSpace(t[0]))
    ensures TrimLeft(l + t) == t
  {
    if l == "" {
      assert l + t == t;
    } else {
      assert (l + t)[1..] == l[1..] + t;
      TrimLeftBlank(l[1..], t);
    }
  }

  lemma {:induction false} TrimRightBlank(t: string, r: string)
    requires Blank(r) && (t == "" || !IsSpace(t[|t| - 1]))
    ensures TrimRight(t + r) == t
  {
    if r == "" {
      assert t + r == t;
    } else {
      var last := |r| - 1;
      assert (t + r)[..|t + r| - 1] == t + r[..last];
      assert (t + r)[|t + r| - 1] == r[last];
      TrimRightBlank(t, r[..last]);
    }
  }

  lemma {:induction false} Trimmed(l: string, t: string, r: string)
    requires Blank(l) && Blank(r) && Plain(t) && t != ""
    ensures TrimRight(TrimLeft(l + t + r)) == t
  {
    assert l + t + r == l + (t + r);
    TrimLeftBlank(l, t + r);
    TrimRightBlank(t, r);
  }

  lemma {:induction false} PlainHasNoNewlines(t: string)
    requires Plain(t)
    ensures DropNewlines(t) == t
  {
    if t != "" {
      assert !IsSpace(t[0]);
      PlainHasNoNewlines(t[1..]);
    }
  }

  lemma {:induction false} HexRoundTrip(b: seq<byte>, upper: bool)
    ensures HexDecode(HexDigits(b, upper)) == Some(b)
    ensures forall i :: 0 <= i < |HexDigits(b, upper)| ==> HexValue(HexDigits(b, upper)[i]).Some?
  {
    if b != [] {
      HexRoundTrip(b[1..], upper);
      assert HexDigits(b, upper)[2..] == HexDigits(b[1..], upper);
      assert [b[0]] + b[1..] == b;
    }
  }

  lemma {:induction false} HexIsPlain(d: string, prefix: string)
    requires prefix in {"", "0x", "0X"} && forall i :: 0 <= i < |d| ==> HexValue(d[i]).Some?
    ensures Plain(prefix + d)
  {
    var t := prefix + d;
    forall i | 0 <= i < |t|
      ensures !IsSpace(t[i])
    {
      if |prefix| <= i {
        assert t[i] == d[i - |prefix|];
      }
    }
  }

  lemma {:induction false} PrefixIsTrimmed(d: string, prefix: string)
    requires prefix in {"", "0x", "0X"} && 2 <= |d| && HexValue(d[1]).Some?
    ensures TrimPrefix(TrimPrefix(prefix + d, "0x"), "0X") == d
  {
    assert d[1] != 'x' && d[1] != 'X';
    assert TrimPrefix(d, "0x") == d && TrimPrefix(d, "0X") == d;
    var t := prefix + d;
    if prefix == "" {
      assert t == d;
    } else if prefix == "0x" {
      assert t[2..] == d;
    } else {
      assert t[1] == 'X' && t[2..] == d;
    }
  }

  /** Any nonempty bytes, written in hex with or without a prefix, in either case, with blanks around. */
  lemma {:induction false} ParseHex(b: seq<bv8>, upper: bool, prefix: string, l: string, r: string)
    requires b != [] && prefix in {"", "0x", "0X"} && Blank(l) && Blank(r)
    ensures Parse(l + (prefix + HexDigits(Numbers(b), upper)) + r) == Ok(b)
  {
    var d := HexDigits(Numbers(b), upper);
    HexRoundTrip(Numbers(b), upper);
    OctetsOfNumbers(b);
    hide IsSpace, HexValue, HexDecode, HexDigits, TrimLeft, TrimRight, TrimPrefix;
    HexIsPlain(d, prefix);
    Trimmed(l, prefix + d, r);
    PrefixIsTrimmed(d, prefix);
  }

  /** The padding of the last group is the only character outside the alphabet. */
  lemma {:induction false} Base64IsPlain(b: seq<byte>, pad: string)
    requires pad == "" || pad == "="
    ensures Plain(Base64Text(b, pad))
  {
    if 2 < |b| {
      Base64IsPlain(b[3..], pad);
    }
  }

  lemma {:induction false} FirstRoundTrip(b0: byte, b1: byte)
    ensures First(Six0(b0), Six1(b0, b1)) == b0
  {
  }

  lemma {:induction false} SextetsRoundTrip(b0: byte, b1: byte, b2: byte)
    ensures First(Six0(b0), Six1(b0, b1)) == b0
    ensures Second(Six1(b0, b1), Six2(b1, b2)) == b1
    ensures Third(Six2(b1, b2), Six3(b2)) == b2
  {
  }

  /** Four letters are a full group. */
  lemma {:induction false} LettersAreGroup(s0: int, s1: int, s2: int, s3: int, rest: string)
    requires 0 <= s0 < 64 && 0 <= s1 < 64 && 0 <= s2 < 64 && 0 <= s3 < 64
    ensures var t := [Letter(s0), Letter(s1), Letter(s2), Letter(s3)] + rest;
      && StartsWithGroup(t) && t[4..] == rest
      && Sextet(t[0]) == Some(s0) && Sextet(t[1]) == Some(s1) && Sextet(t[2]) == Some(s2) && Sextet(t[3]) == Some(s3)
  {
    hide First, Second, Third;
  }

  /** The text of at least three bytes starts with a full group. */
  lemma {:induction false} FirstGroup(b: seq<byte>, pad: string)
    requires 3 <= |b|
    ensures var t := Base64Text(b, pad);
      StartsWithGroup(t) && FullGroup(t) == b[..3] && t[4..] == Base64Text(b[3..], pad)
  {
    SextetsRoundTrip(b[0], b[1], b[2]);
    var s0, s1, s2, s3 := Six0(b[0]), Six1(b[0], b[1]), Six2(b[1], b[2]), Six3(b[2]);
    hide Letter, First, Second, Third, Sextet, Six0, Six1, Six2, Six3;
    LettersAreGroup(s0, s1, s2, s3, Base64Text(b[3..], pad));
    assert b[..3] == [b[0], b[1], b[2]];
  }

  lemma {:induction false} OneByteText(b0: byte)
    ensures |Base64Text([b0], "")| == 2 && ShortGroup(Base64Text([b0], "")) == Some([b0])
  {
    FirstRoundTrip(b0, 0);
    hide Letter, First, Second, Third, Sextet, Six0, Six1, Six2, Six3;
    assert Base64Text([b0], "") == [Letter(Six0(b0)), Letter(Six1(b0, 0))];
  }

  lemma {:induction false} TwoByteText(b0: byte, b1: byte)
    ensures |Base64Text([b0, b1], "")| == 3 && ShortGroup(Base64Text([b0, b1], "")) == Some([b0, b1])
  {
    SextetsRoundTrip(b0, b1, 0);
    hide Letter, First, Second, Third, Sextet, Six0, Six1, Six2, Six3;
    assert Base64Text([b0, b1], "") == [Letter(Six0(b0)), Letter(Six1(b0, b1)), Letter(Six2(b1, 0))];
  }

  /** The text of one or two bytes without padding. */
  lemma {:induction false} ShortText(b: seq<byte>)
    requires 1 <= |b| <= 2
    ensures |Base64Text(b, "")| == |b| + 1 && ShortGroup(Base64Text(b, "")) == Some(b)
  {
    hide Base64Text, ShortGroup;
    if |b| == 1 {
      OneByteText(b[0]);
      assert b == [b[0]];
    } else {
      TwoByteText(b[0], b[1]);
      assert b == [b[0], b[1]];
    }
  }

  lemma {:induction false} PaddedText(b: seq<byte>)
    requires 1 <= |b| <= 2
    ensures var t := Base64Text(b, "=");
      |t| == 4 && t[3] == '=' && Sextet(t[3]).None? && (t[2] == '=' <==> |b| == 1) && t[..|b| + 1] == Base64Text(b, "")
  {
  }

  lemma {:induction false} GroupsRoundTrip(b: seq<byte>, padded: bool)
    ensures GroupsDecode(Base64Text(b, if padded then "=" else ""), padded) == Some(b)
  {
    hide Letter, Sextet, ShortGroup, FullGroup;
    if 1 <= |b| <= 2 {
      ShortText(b);
      PaddedText(b);
    } else if 3 <= |b| {
      FirstGroup(b, if padded then "=" else "");
      GroupsRoundTrip(b[3..], padded);
      assert b[..3] + b[3..] == b;
    }
  }

  /** Without its padding a text whose last group is short is no padded base64. */
  lemma {:induction false} RawIsNotPadded(b: seq<byte>)
    ensures GroupsDecode(Base64Text(b, ""), true) == if |b| % 3 == 0 then Some(b) else None
  {
    hide Letter, Sextet, ShortGroup, FullGroup;
    if 1 <= |b| <= 2 {
      ShortText(b);
    } else if 3 <= |b| {
      FirstGroup(b, "");
      RawIsNotPadded(b[3..]);
      assert b[..3] + b[3..] == b;
    }
  }

  /** A section starts with 0xFC, whose upper six bits are written '/': no hex digit. */
  lemma {:induction false} SectionIsNotHex(b: seq<byte>, pad: string)
    requires b != [] && b[0] == 0xFC
    ensures var t := Base64Text(b, pad);
      t != "" && t[0] == '/' && HexDecode(TrimPrefix(TrimPrefix(t, "0x"), "0X")).None?
  {
    var t := Base64Text(b, pad);
    assert b[0] / 4 == 63;
    assert t[0] == '/';
    assert TrimPrefix(TrimPrefix(t, "0x"), "0X") == t;
  }

  /** A section written in base64, with or without padding, with blanks around. */
  lemma {:induction false} ParseBase64(b: seq<bv8>, l: string, r: string)
    requires b != [] && b[0] == 0xFC && Blank(l) && Blank(r)
    ensures Parse(l + Base64(b) + r) == Ok(b)
    ensures Parse(l + RawBase64(b) + r) == Ok(b)
  {
    var n := Numbers(b);
    OctetsOfNumbers(b);
    Base64IsPlain(n, "=");
    Base64IsPlain(n, "");
    SectionIsNotHex(n, "=");
    SectionIsNotHex(n, "");
    Trimmed(l, Base64(b), r);
    Trimmed(l, RawBase64(b), r);
    PlainHasNoNewlines(Base64(b));
    PlainHasNoNewlines(RawBase64(b));
    GroupsRoundTrip(n, true);
    GroupsRoundTrip(n, false);
    RawIsNotPadded(n);
  }
}
