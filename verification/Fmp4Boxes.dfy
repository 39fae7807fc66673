/**
 Boxes written as section 4.2 of ISO/IEC 14496-12 has them, and how the walker finds them again:
 with a size of 32 or 64 bits, or up to the end of what holds them.
 */
module Fmp4Boxes {
  import opened Common
  import opened Bytes
  import opened Fmp4

  datatype Form = Plain | Large | ToEnd

  /** What is written of a box: its type and what it holds. */
  datatype Node = Node(typ: seq<byte>, form: Form, body: seq<byte>)

  function HeadBytes(x: Node): seq<byte> {
    match x.form
    case Plain => Digits(8 + |x.body|, 4) + x.typ
    case Large => Digits(1, 4) + x.typ + Digits(16 + |x.body|, 8)
    case ToEnd => Digits(0, 4) + x.typ
  }

  function NodeBytes(x: Node): seq<byte> { HeadBytes(x) + x.body }

  /** The size of the box fits into its field. */
  predicate Sized(x: Node) {
    && |x.typ| == 4
    && (x.form.Plain? ==> 8 + |x.body| < 0x1_0000_0000)
    && (x.form.Large? ==> 16 + |x.body| <= 0x7FFF_FFFF)
  }

  /** Boxes that can stand behind each other: only the last one may go up to the end. */
  predicate Listed(xs: seq<Node>) {
    forall i :: 0 <= i < |xs| ==> Sized(xs[i]) && (xs[i].form.ToEnd? ==> i == |xs| - 1)
  }

  function Concat(xs: seq<Node>): seq<byte> {
    if xs == [] then [] else NodeBytes(xs[0]) + Concat(xs[1..])
  }

  function BoxOf(x: Node, p: nat): Box { Box(x.typ, p, |HeadBytes(x)|, |NodeBytes(x)|) }

  function BoxesAt(xs: seq<Node>, p: nat): (r: seq<Box>)
    ensures |r| == |xs|
  {
    if xs == [] then [] else [BoxOf(xs[0], p)] + BoxesAt(xs[1..], p + |NodeBytes(xs[0])|)
  }

  // ----- numbers in place -----

  lemma {:induction false} Powers()
    ensures Pow256(3) == 0x100_0000 && Pow256(4) == 0x1_0000_0000 && Pow256(8) == B64
  {
    Pow256Of8();
    assert Pow256(2) == 0x1_0000;
  }

  lemma {:induction false} ReadWord(b: seq<byte>, p: nat, n: nat)
    requires p + 4 <= |b| && b[p..p + 4] == Digits(n, 4) && n < 0x1_0000_0000
    ensures U32(b, p) == n && Read32(b, p) == Ok(n)
  {
    Powers();
    NumberOfDigits(n, 4);
    hide Digits;
  }

  lemma {:induction false} ReadLong(b: seq<byte>, p: nat, n: nat)
    requires p + 8 <= |b| && b[p..p + 8] == Digits(n, 8) && n < B64
    ensures U64(b, p) == n
  {
    Powers();
    NumberOfDigits(n, 8);
    hide Digits;
  }

  /** A part of a part. */
  lemma {:induction false} Within(b: seq<byte>, p: nat, x: seq<byte>, i: nat, y: seq<byte>)
    requires p + |x| <= |b| && b[p..p + |x|] == x && i + |y| <= |x| && x[i..i + |y|] == y
    ensures b[p + i..p + i + |y|] == y
  {
    forall j | 0 <= j < |y| ensures b[p + i + j] == y[j] {
      assert x[i + j] == b[p..p + |x|][i + j];
      assert y[j] == x[i..i + |y|][j];
    }
  }

  /** A stretch of bytes in two parts. */
  lemma {:induction false} TwoParts(b: seq<byte>, p: nat, end: nat, x: seq<byte>, y: seq<byte>)
    requires p <= end <= |b| && b[p..end] == x + y
    ensures p + |x| <= end && b[p..p + |x|] == x && b[p + |x|..end] == y
  {
    Within(b, p, x + y, 0, x);
    Within(b, p, x + y, |x|, y);
  }

  // ----- the walker finds what was written -----

  lemma {:induction false} HeaderOf(b: seq<byte>, p: nat, end: nat, x: Node)
    requires Sized(x) && p + |NodeBytes(x)| <= end <= |b| && (x.form.ToEnd? ==> p + |NodeBytes(x)| == end)
    requires b[p..p + |NodeBytes(x)|] == NodeBytes(x)
    ensures p < end && HeaderAt(b, p, end) == Ok(BoxOf(x, p))
  {
    hide Digits, U32, U64;
    var n := NodeBytes(x);
    var first := if x.form.Plain? then 8 + |x.body| else if x.form.Large? then 1 else 0;
    assert n[0..4] == Digits(first, 4) && n[4..8] == x.typ;
    Within(b, p, n, 0, Digits(first, 4));
    Within(b, p, n, 4, x.typ);
    ReadWord(b, p, first);
    if x.form.Large? {
      assert n[8..16] == Digits(16 + |x.body|, 8);
      Within(b, p, n, 8, Digits(16 + |x.body|, 8));
      ReadLong(b, p + 8, 16 + |x.body|);
    }
  }

  lemma {:induction false} ChildrenOf(b: seq<byte>, p: nat, end: nat, xs: seq<Node>)
    requires p <= end <= |b| && b[p..end] == Concat(xs) && Listed(xs)
    ensures Children(b, p, end) == Ok(BoxesAt(xs, p))
    decreases |xs|
  {
    hide *;
    if xs == [] {
      NoBoxes(b, p, end);
    } else {
      FirstOfBoxes(b, p, end, xs);
      RestIsListed(xs);
      LastReaches(b, p, end, xs);
      HeaderOf(b, p, end, xs[0]);
      ChildrenOf(b, p + |NodeBytes(xs[0])|, end, xs[1..]);
      BoxesApart(xs, p);
      NextBox(b, p, end, BoxOf(xs[0], p), BoxesAt(xs[1..], p + |NodeBytes(xs[0])|));
    }
  }

  lemma {:induction false} NoBoxes(b: seq<byte>, p: nat, end: nat)
    requires p <= end <= |b| && b[p..end] == Concat([])
    ensures Children(b, p, end) == Ok(BoxesAt([], p))
  {
    assert |b[p..end]| == end - p;
  }

  lemma {:induction false} FirstOfBoxes(b: seq<byte>, p: nat, end: nat, xs: seq<Node>)
    requires p <= end <= |b| && b[p..end] == Concat(xs) && xs != []
    ensures var q := p + |NodeBytes(xs[0])|;
      && q <= end && b[p..q] == NodeBytes(xs[0]) && b[q..end] == Concat(xs[1..])
  {
    hide NodeBytes;
    TwoParts(b, p, end, NodeBytes(xs[0]), Concat(xs[1..]));
  }

  lemma {:induction false} BoxesApart(xs: seq<Node>, p: nat)
    requires xs != []
    ensures BoxesAt(xs, p) == [BoxOf(xs[0], p)] + BoxesAt(xs[1..], p + |NodeBytes(xs[0])|)
    ensures End(BoxOf(xs[0], p)) == p + |NodeBytes(xs[0])|
  {
    hide NodeBytes, HeadBytes;
  }

  lemma {:induction false} NextBox(b: seq<byte>, p: nat, end: nat, x: Box, rest: seq<Box>)
    requires p < end <= |b| && HeaderAt(b, p, end) == Ok(x) && Children(b, End(x), end) == Ok(rest)
    ensures Children(b, p, end) == Ok([x] + rest)
  {
    hide HeaderAt;
  }

  lemma {:induction false} LastReaches(b: seq<byte>, p: nat, end: nat, xs: seq<Node>)
    requires p <= end <= |b| && b[p..end] == Concat(xs) && Listed(xs) && xs != []
    ensures xs[0].form.ToEnd? ==> p + |NodeBytes(xs[0])| == end
  {
    if |xs| == 1 { assert Concat(xs[1..]) == []; }
  }

  lemma {:induction false} RestIsListed(xs: seq<Node>)
    requires Listed(xs) && xs != []
    ensures Listed(xs[1..]) && Sized(xs[0])
  {
  }

  /** A box with its body in the bytes. */
  predicate Located(b: seq<byte>, k: Box, x: Node) {
    Body(k) <= End(k) <= |b| && k.typ == x.typ && b[Body(k)..End(k)] == x.body
  }

  lemma {:induction false} BoxesAreLocated(b: seq<byte>, p: nat, end: nat, xs: seq<Node>, i: nat)
    requires p <= end <= |b| && b[p..end] == Concat(xs) && i < |xs|
    ensures Located(b, BoxesAt(xs, p)[i], xs[i]) && End(BoxesAt(xs, p)[i]) <= end
    decreases |xs|
  {
    hide NodeBytes, HeadBytes, Located, Concat, BoxesAt;
    FirstOfBoxes(b, p, end, xs);
    BoxesApart(xs, p);
    if i == 0 {
      BoxIsLocated(b, p, xs[0]);
    } else {
      BoxesAreLocated(b, p + |NodeBytes(xs[0])|, end, xs[1..], i - 1);
    }
  }

  lemma {:induction false} BoxIsLocated(b: seq<byte>, p: nat, x: Node)
    requires p + |NodeBytes(x)| <= |b| && b[p..p + |NodeBytes(x)|] == NodeBytes(x)
    ensures Located(b, BoxOf(x, p), x)
  {
    hide HeadBytes;
    TwoParts(b, p, p + |NodeBytes(x)|, HeadBytes(x), x.body);
  }

  lemma {:induction false} HeadKeeps(x: Node, y: Node)
    requires x.typ == y.typ && x.form == y.form && |x.body| == |y.body|
    ensures HeadBytes(x) == HeadBytes(y) && |NodeBytes(x)| == |NodeBytes(y)|
  {
  }

  // ----- whatever the walker finds was written -----

  /** The node of a box, by the form of its size. */
  function NodeAt(b: seq<byte>, x: Box): Node
    requires x.start + 8 <= Body(x) <= End(x) <= |b|
  {
    var size := U32(b, x.start);
    var form := if size == 1 then Large else if size == 0 then ToEnd else Plain;
    Node(b[x.start + 4..x.start + 8], form, b[Body(x)..End(x)])
  }

  lemma {:induction false} WordIs(b: seq<byte>, p: nat)
    requires p + 4 <= |b|
    ensures Digits(U32(b, p), 4) == b[p..p + 4] && U32(b, p) < 0x1_0000_0000
  {
    Powers();
    DigitsOfNumber(b[p..p + 4]);
  }

  lemma {:induction false} LongIs(b: seq<byte>, p: nat)
    requires p + 8 <= |b|
    ensures Digits(U64(b, p), 8) == b[p..p + 8]
  {
    DigitsOfNumber(b[p..p + 8]);
  }

  lemma {:induction false} HeaderIsHead(b: seq<byte>, p: nat, end: nat)
    requires p < end <= |b| && HeaderAt(b, p, end).Ok?
    ensures var x := HeaderAt(b, p, end).value;
      && x.start + 8 <= Body(x) <= End(x) <= |b| && x.start == p
      && var n := NodeAt(b, x);
         && Sized(n) && |HeadBytes(n)| == x.hdr && HeadBytes(n) == b[p..p + x.hdr] && n.typ == x.typ
         && (n.form.ToEnd? ==> End(x) == end)
  {
    WordIs(b, p);
    hide Digits, U32, U64;
    var x := HeaderAt(b, p, end).value;
    if x.hdr == 16 {
      LongIs(b, p + 8);
      assert b[p..p + 16] == b[p..p + 4] + b[p + 4..p + 8] + b[p + 8..p + 16];
    } else {
      assert b[p..p + 8] == b[p..p + 4] + b[p + 4..p + 8];
    }
  }

  lemma {:induction false} HeaderIsWritten(b: seq<byte>, p: nat, end: nat)
    requires p < end <= |b| && HeaderAt(b, p, end).Ok?
    ensures var x := HeaderAt(b, p, end).value;
      && p < End(x) <= end && x.start + 8 <= Body(x) <= End(x) <= |b|
      && var n := NodeAt(b, x);
         && Sized(n) && BoxOf(n, p) == x && b[p..End(x)] == NodeBytes(n) && (n.form.ToEnd? ==> End(x) == end)
  {
    HeaderIsHead(b, p, end);
    var x := HeaderAt(b, p, end).value;
    hide HeadBytes, Digits, U32, U64, HeaderAt, Sized;
    assert b[p..End(x)] == b[p..Body(x)] + b[Body(x)..End(x)];
  }

  lemma {:induction false} ParsedIsWritten(b: seq<byte>, p: nat, end: nat) returns (xs: seq<Node>)
    requires p <= end <= |b| && Children(b, p, end).Ok?
    ensures Listed(xs) && b[p..end] == Concat(xs)
    decreases end - p
  {
    if p == end {
      xs := [];
    } else {
      HeaderIsWritten(b, p, end);
      var x := HeaderAt(b, p, end).value;
      assert Children(b, End(x), end).Ok?;
      hide Children, HeaderAt, NodeBytes, HeadBytes, Sized;
      var rest := ParsedIsWritten(b, End(x), end);
      xs := [NodeAt(b, x)] + rest;
      OneMore(b, p, End(x), end, NodeAt(b, x), rest);
    }
  }

  lemma {:induction false} OneMore(b: seq<byte>, p: nat, q: nat, end: nat, x: Node, rest: seq<Node>)
    requires p <= q <= end <= |b| && b[p..q] == NodeBytes(x) && Sized(x) && (x.form.ToEnd? ==> q == end)
    requires b[q..end] == Concat(rest) && Listed(rest)
    ensures Listed([x] + rest) && b[p..end] == Concat([x] + rest)
  {
    assert rest != [] ==> q < end by {
      if rest != [] { assert |b[q..end]| == |Concat(rest)| > 0; }
    }
    hide NodeBytes, Sized;
    assert b[p..end] == b[p..q] + b[q..end];
    assert ([x] + rest)[1..] == rest;
    assert Concat([x] + rest) == NodeBytes(x) + Concat(rest);
    hide Concat;
    ListedBehind(x, rest);
  }

  lemma {:induction false} ListedBehind(x: Node, rest: seq<Node>)
    requires Sized(x) && Listed(rest) && (x.form.ToEnd? ==> rest == [])
    ensures Listed([x] + rest)
  {
    hide Sized;
  }

  /** The walker accepts exactly the bytes that are boxes one behind the other. */
  lemma {:induction false} BoxesIff(b: seq<byte>, p: nat, end: nat)
    requires p <= end <= |b|
    ensures Children(b, p, end).Ok? <==> exists xs: seq<Node> :: Listed(xs) && b[p..end] == Concat(xs)
  {
    hide Children, Concat, Listed;
    if Children(b, p, end).Ok? { var xs := ParsedIsWritten(b, p, end); }
    forall xs: seq<Node> | Listed(xs) && b[p..end] == Concat(xs) ensures Children(b, p, end).Ok? {
      ChildrenOf(b, p, end, xs);
    }
  }

  // ----- types -----

  function Ascii(text: string): (r: seq<byte>)
    requires forall i :: 0 <= i < |text| ==> text[i] < '\U{0080}'
    ensures |r| == |text|
  {
    seq(|text|, i requires 0 <= i < |text| => Code(text[i]))
  }

  function Code(c: char): byte
    requires c < '\U{0080}'
  {
    c as int
  }

  lemma {:induction false} TypesAre()
    ensures MOOF == Ascii("moof") && TRAF == Ascii("traf") && TFHD == Ascii("tfhd") && TFDT == Ascii("tfdt")
    ensures TRUN == Ascii("trun") && MDAT == Ascii("mdat")
  {
  }
}
