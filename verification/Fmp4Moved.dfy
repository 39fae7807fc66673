/**
 The move of a written segment, told by its record: which segments are refused and why, and
 that an accepted one becomes the bytes of the record with its decode times moved.
 */
module Fmp4Moved {
  import opened Common
  import opened Bytes
  import opened Fmp4
  import opened Fmp4Boxes
  import opened Fmp4Fields
  import opened Fmp4Written

  // ----- the moved record -----

  /** How far a decode time is from its whole second in ticks, in the program's 64 bits. */
  function Off(s: Said, nominal: int): int { Wrap64(s.tfdt.time - nominal * s.track.timescale) }

  /**
   The new decode time of a track fragment: the old one and whole seconds. It must have 64 bits, be within
   a quarter of a second of its place, and not fall before the start of the timeline.
   */
  function MovedTime(s: Said, anchor: int, nominal: int): Result<uint64, Error> {
    var moved := s.tfdt.time + (anchor - nominal) * s.track.timescale;
    if s.tfdt.version != 1 then Err(TfdtVersion)
    else if 4 * Off(s, nominal) > s.track.timescale || -4 * Off(s, nominal) > s.track.timescale then Err(OffGrid)
    else if Wrap64(moved) < 0 then Err(BeforeStart)
    else Ok(moved % B64)
  }

  function WithTime(x: Part, time: uint64): Part
    requires x.leaf.Time?
  {
    x.(leaf := Time(x.leaf.d.(time := time)))
  }

  function MovedParts(parts: seq<Part>, time: uint64): (r: seq<Part>)
    requires FirstTime(parts) < |parts|
    ensures |r| == |parts|
  {
    parts[FirstTime(parts) := WithTime(parts[FirstTime(parts)], time)]
  }

  function MovedMid(m: Mid, tracks: Tracks, anchor: int, nominal: int): Result<Mid, Error> {
    if !m.TrafBox? || SaysTraf(m.parts, tracks).Err? then Ok(m)
    else match MovedTime(SaysTraf(m.parts, tracks).value, anchor, nominal)
         case Err(e) => Err(e)
         case Ok(time) => Ok(TrafBox(m.form, MovedParts(m.parts, time)))
  }

  function MovedMids(mids: seq<Mid>, tracks: Tracks, anchor: int, nominal: int): Result<seq<Mid>, Error> {
    if mids == [] then Ok([])
    else match MovedMid(mids[0], tracks, anchor, nominal)
         case Err(e) => Err(e)
         case Ok(m) => Behind([m], MovedMids(mids[1..], tracks, anchor, nominal))
  }

  function MovedTop(x: Top, tracks: Tracks, anchor: int, nominal: int): Result<Top, Error> {
    if !x.MoofBox? then Ok(x)
    else match MovedMids(x.mids, tracks, anchor, nominal)
         case Err(e) => Err(e)
         case Ok(mids) => Ok(MoofBox(x.form, mids))
  }

  function MovedTops(tops: seq<Top>, tracks: Tracks, anchor: int, nominal: int): Result<seq<Top>, Error> {
    if tops == [] then Ok([])
    else match MovedTop(tops[0], tracks, anchor, nominal)
         case Err(e) => Err(e)
         case Ok(x) => Behind([x], MovedTops(tops[1..], tracks, anchor, nominal))
  }

  // ----- arithmetic -----

  lemma {:induction false} WrapOfDifference(x: int, y: int)
    ensures Wrap64(Wrap64(x) - Wrap64(y)) == Wrap64(x - y)
  {
    hide Wrap64;
    var p := WrapTurns(x);
    var q := WrapTurns(y);
    var r := WrapTurns(x - y);
    WrapIsUnique(Wrap64(x) - Wrap64(y), Wrap64(x - y), r - p + q);
  }

  lemma {:induction false} WrapOfSum(x: int, y: int)
    ensures Wrap64(Wrap64(x) + Wrap64(y)) == Wrap64(x + y)
  {
    hide Wrap64;
    var p := WrapTurns(x);
    var q := WrapTurns(y);
    var r := WrapTurns(x + y);
    WrapIsUnique(Wrap64(x) + Wrap64(y), Wrap64(x + y), r - p - q);
  }

  lemma {:induction false} SecondsBetween(anchor: int, nominal: int, scale: int)
    ensures anchor * scale - nominal * scale == (anchor - nominal) * scale
  {
  }

  /** The program's arithmetic in 64 bits gives the moved time. */
  lemma {:induction false} NewTimeIsMoved(s: Said, anchor: int, nominal: int)
    requires s.tfdt.version == 1
    ensures NewTime(s.tfdt.time, s.track.timescale, anchor, nominal) == MovedTime(s, anchor, nominal)
  {
    var time, scale := s.tfdt.time, s.track.timescale;
    var moved := time + (anchor - nominal) * scale;
    WrapOfDifference(time, nominal * scale);
    var diff := Drift(time, scale, nominal);
    assert diff == Off(s, nominal);
    WrapOfSum(anchor * scale, time - nominal * scale);
    SecondsBetween(anchor, nominal, scale);
    assert Wrap64(Wrap64(Ticks(anchor, scale)) + diff) == Wrap64(moved);
    UnsignedOfWrap(moved);
    hide Wrap64, Drift, Off, Unsigned64;
  }

  // ----- bytes in place -----

  lemma {:induction false} PutMiddle(a: seq<byte>, m: seq<byte>, c: seq<byte>, v: nat)
    requires |m| == 8
    ensures Put64(a + m + c, |a|, v) == a + Digits(v, 8) + c
  {
    hide Digits;
    var b := a + m + c;
    assert b[..|a|] == a && b[|a| + 8..] == c;
  }

  lemma {:induction false} ReadMiddle(a: seq<byte>, c: seq<byte>, v: nat)
    requires v < B64
    ensures U64(a + Digits(v, 8) + c, |a|) == v
  {
    var b := a + Digits(v, 8) + c;
    assert b[|a|..|a| + 8] == Digits(v, 8);
    hide Digits, U64;
    ReadLong(b, |a|, v);
  }

  lemma {:induction false} ConcatFirst(xs: seq<Node>)
    requires xs != []
    ensures Concat(xs) == NodeBytes(xs[0]) + Concat(xs[1..])
  {
  }

  lemma {:induction false} RestOfParts(parts: seq<Part>)
    requires parts != []
    ensures PartNodes(parts)[1..] == PartNodes(parts[1..]) && PartNodes(parts)[0] == PartNode(parts[0])
  {
    hide PartNode;
  }

  /** The bytes around the decode time of a version 1 tfdt. */
  lemma {:induction false} TimeInBox(x: Part, pre: seq<byte>, post: seq<byte>, time: uint64)
    requires x.leaf.Time? && x.leaf.d.version == 1
    ensures var n, b := PartNode(x), pre + NodeBytes(PartNode(x)) + post;
      var f := |pre| + |HeadBytes(n)| + 4;
      && f + 8 <= |b| && U64(b, f) == x.leaf.d.time
      && Put64(b, f, time) == pre + NodeBytes(PartNode(WithTime(x, time))) + post
      && |NodeBytes(PartNode(WithTime(x, time)))| == |NodeBytes(n)|
  {
    var d := x.leaf.d;
    var n, n' := PartNode(x), PartNode(WithTime(x, time));
    var front := [d.version] + Digits(d.flags, 3);
    assert n.body == front + Digits(d.time, 8) && n'.body == front + Digits(time, 8);
    HeadKeeps(n, n');
    hide Digits, HeadBytes, U64, Put64;
    var a := pre + HeadBytes(n) + front;
    Around(pre, HeadBytes(n), front, Digits(d.time, 8), post);
    Around(pre, HeadBytes(n), front, Digits(time, 8), post);
    ReadMiddle(a, post, d.time);
    PutMiddle(a, Digits(d.time, 8), post, time);
  }

  lemma {:induction false} Around(pre: seq<byte>, h: seq<byte>, front: seq<byte>, m: seq<byte>, post: seq<byte>)
    ensures pre + (h + (front + m)) + post == pre + h + front + m + post
  {
  }

  lemma {:induction false} Shifted(pre: seq<byte>, n: seq<byte>, rest: seq<byte>, post: seq<byte>)
    ensures pre + (n + rest) + post == (pre + n) + rest + post && pre + (n + rest) + post == pre + n + (rest + post)
  {
  }

  lemma {:induction false} MovedFirst(parts: seq<Part>, time: uint64)
    requires FirstTime(parts) < |parts|
    ensures parts[0].leaf.Time? ==> MovedParts(parts, time) == [WithTime(parts[0], time)] + parts[1..]
    ensures !parts[0].leaf.Time? ==>
      FirstTime(parts[1..]) < |parts[1..]| && MovedParts(parts, time) == [parts[0]] + MovedParts(parts[1..], time)
  {
    hide WithTime;
  }

  lemma {:induction false} FirstTimeBox(parts: seq<Part>, p: nat)
    requires FirstTime(parts) < |parts|
    ensures parts[0].leaf.Time? ==> TimeBox(parts, p) == BoxOf(PartNode(parts[0]), p)
    ensures !parts[0].leaf.Time? ==>
      && FirstTime(parts[1..]) < |parts[1..]|
      && parts[1..][FirstTime(parts[1..])] == parts[FirstTime(parts)]
      && TimeBox(parts, p) == TimeBox(parts[1..], p + |NodeBytes(PartNode(parts[0]))|)
  {
    RestOfParts(parts);
    hide PartNode, NodeBytes, HeadBytes;
  }

  /** The decode time in these bytes, read at its place and written there. */
  predicate InPlace(b: seq<byte>, f: nat, was: uint64, time: uint64, out: seq<byte>) {
    f + 8 <= |b| && U64(b, f) == was && Put64(b, f, time) == out
  }

  /** The first decode time of these parts is read and written in its place. */
  predicate TimeMoves(parts: seq<Part>, pre: seq<byte>, post: seq<byte>, time: uint64) {
    && FirstTime(parts) < |parts|
    && InPlace(pre + Concat(PartNodes(parts)) + post, Body(TimeBox(parts, |pre|)) + 4,
         parts[FirstTime(parts)].leaf.d.time, time, pre + Concat(PartNodes(MovedParts(parts, time))) + post)
    && |Concat(PartNodes(MovedParts(parts, time)))| == |Concat(PartNodes(parts))|
  }

  lemma {:induction false} TimeIsFirst(parts: seq<Part>, pre: seq<byte>, post: seq<byte>, time: uint64)
    requires FirstTime(parts) < |parts| && parts[FirstTime(parts)].leaf.d.version == 1 && parts[0].leaf.Time?
    ensures TimeMoves(parts, pre, post, time)
  {
    assert FirstTime(parts) == 0;
    var n, n', moved := PartNode(parts[0]), PartNode(WithTime(parts[0], time)), MovedParts(parts, time);
    MovedFirst(parts, time);
    RestOfParts(parts);
    RestOfParts(moved);
    ConcatFirst(PartNodes(parts));
    ConcatFirst(PartNodes(moved));
    FirstTimeBox(parts, |pre|);
    var rest := Concat(PartNodes(parts[1..]));
    TimeInBox(parts[0], pre, rest + post, time);
    assert moved[1..] == parts[1..] && moved[0] == WithTime(parts[0], time);
    hide PartNode, NodeBytes, HeadBytes, Concat, U64, Put64, MovedParts, PartNodes, WithTime, TimeBox;
    Shifted(pre, NodeBytes(n), rest, post);
    Shifted(pre, NodeBytes(n'), rest, post);
  }

  /** What comes before the decode time of a traf, told apart from the rest. */
  lemma {:induction false} PartsApart(parts: seq<Part>, p: nat, time: uint64)
    requires FirstTime(parts) < |parts| && !parts[0].leaf.Time?
    ensures FirstTime(parts[1..]) < |parts[1..]| && parts[1..][FirstTime(parts[1..])] == parts[FirstTime(parts)]
    ensures Concat(PartNodes(parts)) == NodeBytes(PartNode(parts[0])) + Concat(PartNodes(parts[1..]))
    ensures Concat(PartNodes(MovedParts(parts, time)))
         == NodeBytes(PartNode(parts[0])) + Concat(PartNodes(MovedParts(parts[1..], time)))
    ensures TimeBox(parts, p) == TimeBox(parts[1..], p + |NodeBytes(PartNode(parts[0]))|)
  {
    var moved := MovedParts(parts, time);
    MovedFirst(parts, time);
    assert moved[1..] == MovedParts(parts[1..], time) && moved[0] == parts[0];
    hide *;
    RestOfParts(parts);
    RestOfParts(moved);
    ConcatFirst(PartNodes(parts));
    ConcatFirst(PartNodes(moved));
    FirstTimeBox(parts, p);
  }

  lemma {:induction false} TimeIsLater(parts: seq<Part>, pre: seq<byte>, post: seq<byte>, time: uint64)
    requires FirstTime(parts) < |parts| && !parts[0].leaf.Time?
    requires TimeMoves(parts[1..], pre + NodeBytes(PartNode(parts[0])), post, time)
    ensures TimeMoves(parts, pre, post, time)
  {
    hide FirstTime, PartNode, NodeBytes, HeadBytes, Concat, InPlace, MovedParts, PartNodes, WithTime, TimeBox;
    PartsApart(parts, |pre|, time);
    var n := NodeBytes(PartNode(parts[0]));
    Shifted(pre, n, Concat(PartNodes(parts[1..])), post);
    Shifted(pre, n, Concat(PartNodes(MovedParts(parts[1..], time))), post);
    assert |pre + n| == |pre| + |n|;
  }

  /** The decode time of a traf in its place, and what writing another one there makes of the bytes. */
  lemma {:induction false} TimeInParts(parts: seq<Part>, pre: seq<byte>, post: seq<byte>, time: uint64)
    requires FirstTime(parts) < |parts| && parts[FirstTime(parts)].leaf.d.version == 1
    ensures TimeMoves(parts, pre, post, time)
    decreases |parts|
  {
    if parts[0].leaf.Time? {
      TimeIsFirst(parts, pre, post, time);
    } else {
      LaterTime(parts);
      hide *;
      TimeInParts(parts[1..], pre + NodeBytes(PartNode(parts[0])), post, time);
      TimeIsLater(parts, pre, post, time);
    }
  }

  lemma {:induction false} LaterTime(parts: seq<Part>)
    requires FirstTime(parts) < |parts| && !parts[0].leaf.Time?
    ensures FirstTime(parts[1..]) < |parts[1..]| && parts[1..][FirstTime(parts[1..])] == parts[FirstTime(parts)]
  {
  }

  // ----- the decode times of a record, one after the other -----

  /** Bytes in the middle of others. */
  function Among(pre: seq<byte>, r: Result<seq<byte>, Error>, post: seq<byte>): Result<seq<byte>, Error> {
    match r
    case Err(e) => Err(e)
    case Ok(x) => Ok(pre + x + post)
  }

  function Then(r: Result<seq<byte>, Error>, t: Result<seq<byte>, Error>): Result<seq<byte>, Error> {
    match (r, t)
    case (Err(e), _) => Err(e)
    case (_, Err(e)) => Err(e)
    case (Ok(x), Ok(y)) => Ok(x + y)
  }

  /** Patching x between pre and post makes r of it, as long as x. */
  predicate Becomes(x: seq<byte>, pre: seq<byte>, post: seq<byte>, plan: seq<Traf>, anchor: int, nominal: int,
      r: Result<seq<byte>, Error>) {
    (r.Ok? ==> |r.value| == |x|) && Patch(pre + x + post, plan, anchor, nominal) == Among(pre, r, post)
  }

  lemma {:induction false} PatchBoth(b: seq<byte>, x: seq<Traf>, y: seq<Traf>, anchor: int, nominal: int)
    ensures Patch(b, x + y, anchor, nominal) ==
      match Patch(b, x, anchor, nominal)
      case Err(e) => Err(e)
      case Ok(c) => Patch(c, y, anchor, nominal)
    decreases |x|
  {
    hide NewTime, Put64;
    if x == [] {
      assert x + y == y;
    } else {
      assert (x + y)[0] == x[0] && (x + y)[1..] == x[1..] + y;
      if Fmp4.Field(x[0]) + 8 <= |b| {
        var v := NewTime(U64(b, Fmp4.Field(x[0])), x[0].track.timescale, anchor, nominal);
        if v.Ok? {
          PatchBoth(Put64(b, Fmp4.Field(x[0]), v.value), x[1..], y, anchor, nominal);
        }
      }
    }
  }

  lemma {:induction false} BecomesBoth(x: seq<byte>, y: seq<byte>, pre: seq<byte>, post: seq<byte>, plan: seq<Traf>,
      more: seq<Traf>, anchor: int, nominal: int, r: Result<seq<byte>, Error>, t: Result<seq<byte>, Error>)
    requires Becomes(x, pre, y + post, plan, anchor, nominal, r)
    requires r.Ok? ==> Becomes(y, pre + r.value, post, more, anchor, nominal, t)
    ensures Becomes(x + y, pre, post, plan + more, anchor, nominal, Then(r, t))
  {
    hide Patch;
    Shifted(pre, x, y, post);
    PatchBoth(pre + x + (y + post), plan, more, anchor, nominal);
    if r.Ok? {
      Shifted(pre, r.value, y, post);
      if t.Ok? { Shifted(pre, r.value, t.value, post); }
    }
  }

  lemma {:induction false} BecomesBehind(h: seq<byte>, x: seq<byte>, pre: seq<byte>, post: seq<byte>, plan: seq<Traf>,
      anchor: int, nominal: int, r: Result<seq<byte>, Error>)
    requires Becomes(x, pre + h, post, plan, anchor, nominal, r)
    ensures Becomes(h + x, pre, post, plan, anchor, nominal, Then(Ok(h), r))
  {
    hide Patch;
    Shifted(pre, h, x, post);
    if r.Ok? { Shifted(pre, h, r.value, post); }
  }

  lemma {:induction false} BecomesItself(x: seq<byte>, pre: seq<byte>, post: seq<byte>, anchor: int, nominal: int)
    ensures Becomes(x, pre, post, [], anchor, nominal, Ok(x))
  {
  }

  // ----- one traf -----

  lemma {:induction false} PatchOne(b: seq<byte>, tf: Traf, anchor: int, nominal: int)
    ensures Patch(b, [tf], anchor, nominal) ==
      if tf.version != 1 then Err(TfdtVersion)
      else if Fmp4.Field(tf) + 8 > |b| then Err(ShortTfdt)
      else match NewTime(U64(b, Fmp4.Field(tf)), tf.track.timescale, anchor, nominal)
           case Err(e) => Err(e)
           case Ok(v) => Ok(Put64(b, Fmp4.Field(tf), v))
  {
    hide NewTime, Put64;
  }

  /** What holds the parts of a traf, with its decode time moved. */
  function PartsMoved(parts: seq<Part>, s: Said, anchor: int, nominal: int): Result<seq<byte>, Error>
    requires FirstTime(parts) < |parts|
  {
    match MovedTime(s, anchor, nominal)
    case Err(e) => Err(e)
    case Ok(time) => Ok(Concat(PartNodes(MovedParts(parts, time))))
  }

  lemma {:induction false} PatchInPlace(b: seq<byte>, s: Said, x: Box, anchor: int, nominal: int, time: uint64,
      out: seq<byte>)
    requires s.tfdt.version == 1 && InPlace(b, Body(x) + 4, s.tfdt.time, time, out)
    requires var v := MovedTime(s, anchor, nominal); v.Ok? ==> v.value == time
    ensures Patch(b, [TrafOf(s, x)], anchor, nominal) ==
      match MovedTime(s, anchor, nominal)
      case Err(e) => Err(e)
      case Ok(_) => Ok(out)
  {
    PatchOne(b, TrafOf(s, x), anchor, nominal);
    NewTimeIsMoved(s, anchor, nominal);
    hide Patch, NewTime, U64, Put64, MovedTime;
  }

  lemma {:induction false} WrongVersion(b: seq<byte>, s: Said, x: Box, anchor: int, nominal: int)
    requires s.tfdt.version != 1
    ensures Patch(b, [TrafOf(s, x)], anchor, nominal) == Err(TfdtVersion)
    ensures MovedTime(s, anchor, nominal) == Err(TfdtVersion)
  {
  }

  lemma {:induction false} PartsBecome(parts: seq<Part>, s: Said, pre: seq<byte>, post: seq<byte>, anchor: int,
      nominal: int)
    requires FirstTime(parts) < |parts| && s.tfdt == parts[FirstTime(parts)].leaf.d
    ensures Becomes(Concat(PartNodes(parts)), pre, post, [TrafOf(s, TimeBox(parts, |pre|))], anchor, nominal,
      PartsMoved(parts, s, anchor, nominal))
  {
    var b := pre + Concat(PartNodes(parts)) + post;
    var box := TimeBox(parts, |pre|);
    hide Patch, Concat, PartNodes, MovedParts, TimeBox, FirstTime, MovedTime, InPlace;
    if s.tfdt.version == 1 {
      var v := MovedTime(s, anchor, nominal);
      var time: uint64 := if v.Ok? then v.value else 0;
      TimeInParts(parts, pre, post, time);
      PatchInPlace(b, s, box, anchor, nominal, time, pre + Concat(PartNodes(MovedParts(parts, time))) + post);
    } else {
      WrongVersion(b, s, box, anchor, nominal);
    }
  }

  function MidMoved(m: Mid, tracks: Tracks, anchor: int, nominal: int): Result<seq<byte>, Error> {
    match MovedMid(m, tracks, anchor, nominal)
    case Err(e) => Err(e)
    case Ok(m) => Ok(NodeBytes(MidNode(m)))
  }

  function MidsMoved(mids: seq<Mid>, tracks: Tracks, anchor: int, nominal: int): Result<seq<byte>, Error> {
    match MovedMids(mids, tracks, anchor, nominal)
    case Err(e) => Err(e)
    case Ok(mids) => Ok(Concat(MidNodes(mids)))
  }

  function PlanMid(m: Mid, p: nat, tracks: Tracks): seq<Traf> {
    if m.TrafBox? && SaysTraf(m.parts, tracks).Ok?
    then [TrafOf(SaysTraf(m.parts, tracks).value, TimeBox(m.parts, BodyAt(MidNode(m), p)))]
    else []
  }

  lemma {:induction false} SaysItsTime(parts: seq<Part>, tracks: Tracks)
    requires SaysTraf(parts, tracks).Ok?
    ensures FirstTime(parts) < |parts| && SaysTraf(parts, tracks).value.tfdt == parts[FirstTime(parts)].leaf.d
  {
    hide Length, NeedsDefault;
  }

  lemma {:induction false} MidBecomes(m: Mid, pre: seq<byte>, post: seq<byte>, tracks: Tracks, anchor: int,
      nominal: int)
    ensures Becomes(NodeBytes(MidNode(m)), pre, post, PlanMid(m, |pre|, tracks), anchor, nominal,
      MidMoved(m, tracks, anchor, nominal))
  {
    if m.TrafBox? && SaysTraf(m.parts, tracks).Ok? {
      hide *;
      TrafBecomes(m, pre, post, tracks, anchor, nominal);
    } else {
      BecomesItself(NodeBytes(MidNode(m)), pre, post, anchor, nominal);
      hide Becomes, NodeBytes, MidNode, SaysTraf;
    }
  }

  lemma {:induction false} TrafBecomes(m: Mid, pre: seq<byte>, post: seq<byte>, tracks: Tracks, anchor: int,
      nominal: int)
    requires m.TrafBox? && SaysTraf(m.parts, tracks).Ok?
    ensures Becomes(NodeBytes(MidNode(m)), pre, post, PlanMid(m, |pre|, tracks), anchor, nominal,
      MidMoved(m, tracks, anchor, nominal))
  {
    hide *;
    SaysItsTime(m.parts, tracks);
    var s, h := SaysTraf(m.parts, tracks).value, HeadBytes(MidNode(m));
    var x, r := Concat(PartNodes(m.parts)), PartsMoved(m.parts, s, anchor, nominal);
    PartsBecome(m.parts, s, pre + h, post, anchor, nominal);
    BecomesBehind(h, x, pre, post, [TrafOf(s, TimeBox(m.parts, |pre + h|))], anchor, nominal, r);
    BecomesAsLong(x, pre + h, post, [TrafOf(s, TimeBox(m.parts, |pre + h|))], anchor, nominal, r);
    MovedAround(m, tracks, anchor, nominal);
    PlannedAround(m, |pre|, tracks);
    assert |pre + h| == |pre| + |h|;
  }

  lemma {:induction false} BecomesAsLong(x: seq<byte>, pre: seq<byte>, post: seq<byte>, plan: seq<Traf>, anchor: int,
      nominal: int, r: Result<seq<byte>, Error>)
    requires Becomes(x, pre, post, plan, anchor, nominal, r)
    ensures r.Ok? ==> |r.value| == |x|
  {
    hide Patch;
  }

  /** The box around the parts of a traf stays the same as they move. */
  lemma {:induction false} MovedAround(m: Mid, tracks: Tracks, anchor: int, nominal: int)
    requires m.TrafBox? && SaysTraf(m.parts, tracks).Ok? && FirstTime(m.parts) < |m.parts|
    requires var r := PartsMoved(m.parts, SaysTraf(m.parts, tracks).value, anchor, nominal);
      r.Ok? ==> |r.value| == |Concat(PartNodes(m.parts))|
    ensures MidMoved(m, tracks, anchor, nominal) ==
      Then(Ok(HeadBytes(MidNode(m))), PartsMoved(m.parts, SaysTraf(m.parts, tracks).value, anchor, nominal))
  {
    var t := MovedTime(SaysTraf(m.parts, tracks).value, anchor, nominal);
    hide SaysTraf, MovedTime, Concat, PartNodes, MovedParts, TRAF, FirstTime;
    if t.Ok? {
      var moved := TrafBox(m.form, MovedParts(m.parts, t.value));
      SameHead(m, moved);
      assert MovedMid(m, tracks, anchor, nominal) == Ok(moved);
      hide NodeBytes, HeadBytes, MovedMid, MidNode;
    } else {
      hide HeadBytes;
    }
  }

  lemma {:induction false} SameHead(m: Mid, t: Mid)
    requires m.TrafBox? && t.TrafBox? && m.form == t.form
    requires |Concat(PartNodes(m.parts))| == |Concat(PartNodes(t.parts))|
    ensures NodeBytes(MidNode(t)) == HeadBytes(MidNode(m)) + Concat(PartNodes(t.parts))
  {
    hide Concat, PartNodes, HeadBytes, TRAF;
    HeadKeeps(MidNode(m), MidNode(t));
  }

  lemma {:induction false} PlannedAround(m: Mid, p: nat, tracks: Tracks)
    requires m.TrafBox? && SaysTraf(m.parts, tracks).Ok? && FirstTime(m.parts) < |m.parts|
    ensures var s, h := SaysTraf(m.parts, tracks).value, HeadBytes(MidNode(m));
      && NodeBytes(MidNode(m)) == h + Concat(PartNodes(m.parts))
      && PlanMid(m, p, tracks) == [TrafOf(s, TimeBox(m.parts, p + |h|))]
  {
    hide SaysTraf, Concat, PartNodes, TimeBox, HeadBytes, TRAF, FirstTime;
  }

  // ----- whole segments -----

  lemma {:induction false} MidsApart(mids: seq<Mid>, p: nat, tracks: Tracks, anchor: int, nominal: int)
    requires mids != []
    ensures Concat(MidNodes(mids)) == NodeBytes(MidNode(mids[0])) + Concat(MidNodes(mids[1..]))
    ensures PlanMids(mids, p, tracks)
         == PlanMid(mids[0], p, tracks) + PlanMids(mids[1..], p + |NodeBytes(MidNode(mids[0]))|, tracks)
    ensures MidsMoved(mids, tracks, anchor, nominal)
         == Then(MidMoved(mids[0], tracks, anchor, nominal), MidsMoved(mids[1..], tracks, anchor, nominal))
  {
    MidsConcat(mids);
    MidsMovedApart(mids, tracks, anchor, nominal);
    hide NodeBytes, MidNode, MidNodes, Concat, TimeBox, HeadBytes, MovedMids, MovedMid, MidMoved, SaysTraf, MidsMoved;
  }

  lemma {:induction false} MidsConcat(mids: seq<Mid>)
    requires mids != []
    ensures Concat(MidNodes(mids)) == NodeBytes(MidNode(mids[0])) + Concat(MidNodes(mids[1..]))
  {
    hide NodeBytes, MidNode;
    assert MidNodes(mids)[1..] == MidNodes(mids[1..]);
  }

  lemma {:induction false} MidsMovedApart(mids: seq<Mid>, tracks: Tracks, anchor: int, nominal: int)
    requires mids != []
    ensures MidsMoved(mids, tracks, anchor, nominal)
         == Then(MidMoved(mids[0], tracks, anchor, nominal), MidsMoved(mids[1..], tracks, anchor, nominal))
  {
    var r, t := MovedMid(mids[0], tracks, anchor, nominal), MovedMids(mids[1..], tracks, anchor, nominal);
    if r.Ok? && t.Ok? {
      var moved := [r.value] + t.value;
      assert MovedMids(mids, tracks, anchor, nominal) == Ok(moved);
      assert moved[1..] == t.value;
      MidsConcat(moved);
    }
    hide MovedMid, MidNode, NodeBytes, Concat, MidNodes;
  }

  lemma {:induction false} NoMidsBecome(pre: seq<byte>, post: seq<byte>, tracks: Tracks, anchor: int, nominal: int)
    ensures Becomes(Concat(MidNodes([])), pre, post, PlanMids([], |pre|, tracks), anchor, nominal,
      MidsMoved([], tracks, anchor, nominal))
  {
    assert Concat(MidNodes([])) == [] && PlanMids([], |pre|, tracks) == [];
    assert MidsMoved([], tracks, anchor, nominal) == Ok([]);
    hide *;
    BecomesItself([], pre, post, anchor, nominal);
  }

  lemma {:induction false} MidsBecome(mids: seq<Mid>, pre: seq<byte>, post: seq<byte>, tracks: Tracks, anchor: int,
      nominal: int)
    ensures Becomes(Concat(MidNodes(mids)), pre, post, PlanMids(mids, |pre|, tracks), anchor, nominal,
      MidsMoved(mids, tracks, anchor, nominal))
    decreases |mids|
  {
    hide *;
    if mids == [] {
      NoMidsBecome(pre, post, tracks, anchor, nominal);
    } else {
      var x, y := NodeBytes(MidNode(mids[0])), Concat(MidNodes(mids[1..]));
      var r, t := MidMoved(mids[0], tracks, anchor, nominal), MidsMoved(mids[1..], tracks, anchor, nominal);
      var plan, more := PlanMid(mids[0], |pre|, tracks), PlanMids(mids[1..], |pre| + |x|, tracks);
      MidsApart(mids, |pre|, tracks, anchor, nominal);
      MidBecomes(mids[0], pre, y + post, tracks, anchor, nominal);
      BecomesAsLong(x, pre, y + post, plan, anchor, nominal, r);
      if r.Ok? {
        assert |pre + r.value| == |pre| + |x|;
        MidsBecome(mids[1..], pre + r.value, post, tracks, anchor, nominal);
      }
      BecomesBoth(x, y, pre, post, plan, more, anchor, nominal, r, t);
    }
  }

  function TopMoved(x: Top, tracks: Tracks, anchor: int, nominal: int): Result<seq<byte>, Error> {
    match MovedTop(x, tracks, anchor, nominal)
    case Err(e) => Err(e)
    case Ok(x) => Ok(NodeBytes(TopNode(x)))
  }

  function TopsMoved(tops: seq<Top>, tracks: Tracks, anchor: int, nominal: int): Result<seq<byte>, Error> {
    match MovedTops(tops, tracks, anchor, nominal)
    case Err(e) => Err(e)
    case Ok(tops) => Ok(Written(tops))
  }

  function PlanTop(x: Top, p: nat, tracks: Tracks): seq<Traf> {
    if x.MoofBox? then PlanMids(x.mids, BodyAt(TopNode(x), p), tracks) else []
  }

  lemma {:induction false} SameMoof(x: Top, t: Top)
    requires x.MoofBox? && t.MoofBox? && x.form == t.form
    requires |Concat(MidNodes(x.mids))| == |Concat(MidNodes(t.mids))|
    ensures NodeBytes(TopNode(t)) == HeadBytes(TopNode(x)) + Concat(MidNodes(t.mids))
  {
    hide Concat, MidNodes, HeadBytes, MOOF;
    HeadKeeps(TopNode(x), TopNode(t));
  }

  lemma {:induction false} MoofAround(x: Top, p: nat, tracks: Tracks, anchor: int, nominal: int)
    requires x.MoofBox?
    requires var r := MidsMoved(x.mids, tracks, anchor, nominal); r.Ok? ==> |r.value| == |Concat(MidNodes(x.mids))|
    ensures NodeBytes(TopNode(x)) == HeadBytes(TopNode(x)) + Concat(MidNodes(x.mids))
    ensures PlanTop(x, p, tracks) == PlanMids(x.mids, p + |HeadBytes(TopNode(x))|, tracks)
    ensures TopMoved(x, tracks, anchor, nominal)
         == Then(Ok(HeadBytes(TopNode(x))), MidsMoved(x.mids, tracks, anchor, nominal))
  {
    var r := MovedMids(x.mids, tracks, anchor, nominal);
    hide MovedMids, Concat, MidNodes, HeadBytes, MOOF, PlanMids;
    if r.Ok? {
      SameMoof(x, MoofBox(x.form, r.value));
      assert MovedTop(x, tracks, anchor, nominal) == Ok(MoofBox(x.form, r.value));
    }
  }

  lemma {:induction false} TopBecomes(x: Top, pre: seq<byte>, post: seq<byte>, tracks: Tracks, anchor: int,
      nominal: int)
    ensures Becomes(NodeBytes(TopNode(x)), pre, post, PlanTop(x, |pre|, tracks), anchor, nominal,
      TopMoved(x, tracks, anchor, nominal))
  {
    if x.MoofBox? {
      hide *;
      var h, y := HeadBytes(TopNode(x)), Concat(MidNodes(x.mids));
      var r, plan := MidsMoved(x.mids, tracks, anchor, nominal), PlanMids(x.mids, |pre + h|, tracks);
      MidsBecome(x.mids, pre + h, post, tracks, anchor, nominal);
      BecomesBehind(h, y, pre, post, plan, anchor, nominal, r);
      BecomesAsLong(y, pre + h, post, plan, anchor, nominal, r);
      MoofAround(x, |pre|, tracks, anchor, nominal);
      assert |pre + h| == |pre| + |h|;
    } else {
      BecomesItself(NodeBytes(TopNode(x)), pre, post, anchor, nominal);
      hide Becomes, NodeBytes, TopNode;
    }
  }

  lemma {:induction false} TopsConcat(tops: seq<Top>)
    requires tops != []
    ensures Written(tops) == NodeBytes(TopNode(tops[0])) + Written(tops[1..])
  {
    hide NodeBytes, TopNode;
    assert TopNodes(tops)[1..] == TopNodes(tops[1..]);
  }

  lemma {:induction false} TopsMovedApart(tops: seq<Top>, tracks: Tracks, anchor: int, nominal: int)
    requires tops != []
    ensures TopsMoved(tops, tracks, anchor, nominal)
         == Then(TopMoved(tops[0], tracks, anchor, nominal), TopsMoved(tops[1..], tracks, anchor, nominal))
  {
    var r, t := MovedTop(tops[0], tracks, anchor, nominal), MovedTops(tops[1..], tracks, anchor, nominal);
    if r.Ok? && t.Ok? {
      var moved := [r.value] + t.value;
      assert MovedTops(tops, tracks, anchor, nominal) == Ok(moved);
      assert moved[1..] == t.value;
      TopsConcat(moved);
    }
    hide MovedTop, TopNode, NodeBytes, Written;
  }

  lemma {:induction false} TopsApart(tops: seq<Top>, p: nat, tracks: Tracks)
    requires tops != []
    ensures PlanTops(tops, p, tracks)
         == PlanTop(tops[0], p, tracks) + PlanTops(tops[1..], p + |NodeBytes(TopNode(tops[0]))|, tracks)
  {
    hide NodeBytes, TopNode, PlanMids, HeadBytes;
  }

  lemma {:induction false} NoTopsBecome(pre: seq<byte>, post: seq<byte>, tracks: Tracks, anchor: int, nominal: int)
    ensures Becomes(Written([]), pre, post, PlanTops([], |pre|, tracks), anchor, nominal,
      TopsMoved([], tracks, anchor, nominal))
  {
    assert Written([]) == [] && PlanTops([], |pre|, tracks) == [];
    assert TopsMoved([], tracks, anchor, nominal) == Ok([]);
    hide *;
    BecomesItself([], pre, post, anchor, nominal);
  }

  lemma {:induction false} TopsBecome(tops: seq<Top>, pre: seq<byte>, post: seq<byte>, tracks: Tracks, anchor: int,
      nominal: int)
    ensures Becomes(Written(tops), pre, post, PlanTops(tops, |pre|, tracks), anchor, nominal,
      TopsMoved(tops, tracks, anchor, nominal))
    decreases |tops|
  {
    hide *;
    if tops == [] {
      NoTopsBecome(pre, post, tracks, anchor, nominal);
    } else {
      var x, y := NodeBytes(TopNode(tops[0])), Written(tops[1..]);
      var r, t := TopMoved(tops[0], tracks, anchor, nominal), TopsMoved(tops[1..], tracks, anchor, nominal);
      var plan, more := PlanTop(tops[0], |pre|, tracks), PlanTops(tops[1..], |pre| + |x|, tracks);
      TopsConcat(tops);
      TopsApart(tops, |pre|, tracks);
      TopsMovedApart(tops, tracks, anchor, nominal);
      TopBecomes(tops[0], pre, y + post, tracks, anchor, nominal);
      BecomesAsLong(x, pre, y + post, plan, anchor, nominal, r);
      if r.Ok? {
        assert |pre + r.value| == |pre| + |x|;
        TopsBecome(tops[1..], pre + r.value, post, tracks, anchor, nominal);
      }
      BecomesBoth(x, y, pre, post, plan, more, anchor, nominal, r, t);
    }
  }

  /**
   The move of a written segment: refused for the reason that its record shows, or the bytes of the record
   with every decode time moved and nothing else.
   */
  lemma {:induction false} SegmentIsRetimed(tops: seq<Top>, tracks: Tracks, anchor: int, nominal: int)
    requires GoodSegment(tops)
    ensures Retime(Written(tops), tracks, anchor, nominal) ==
      match (Says(tops, tracks), MovedTops(tops, tracks, anchor, nominal))
      case (Err(e), _) => Err(e)
      case (_, Err(e)) => Err(e)
      case (_, Ok(moved)) => Ok(Written(moved))
  {
    hide Walk, Patch, Written, Says, MovedTops, PlanTops, GoodSegment;
    SegmentIsWalked(tops, tracks);
    TopsBecome(tops, [], [], tracks, anchor, nominal);
    var b := Written(tops);
    assert [] + b + [] == b;
    var t := MovedTops(tops, tracks, anchor, nominal);
    if t.Ok? { assert [] + Written(t.value) + [] == Written(t.value); }
  }

  /** All of them can be moved. */
  predicate Movable(said: seq<Said>, anchor: int, nominal: int) {
    forall s <- said :: MovedTime(s, anchor, nominal).Ok?
  }

  lemma {:induction false} MovableBoth(x: seq<Said>, y: seq<Said>, anchor: int, nominal: int)
    ensures Movable(x + y, anchor, nominal) <==> Movable(x, anchor, nominal) && Movable(y, anchor, nominal)
  {
    hide MovedTime;
    if Movable(x + y, anchor, nominal) {
      forall s | s in x ensures MovedTime(s, anchor, nominal).Ok? { assert s in x + y; }
      forall s | s in y ensures MovedTime(s, anchor, nominal).Ok? { assert s in x + y; }
    }
  }

  lemma {:induction false} MidsMovableIff(mids: seq<Mid>, tracks: Tracks, anchor: int, nominal: int)
    requires SaysMids(mids, tracks).Ok?
    ensures MovedMids(mids, tracks, anchor, nominal).Ok? <==> Movable(SaysMids(mids, tracks).value, anchor, nominal)
  {
    hide MovedTime, SaysTraf, Movable, MovedParts;
    if mids == [] {
      assert Movable([], anchor, nominal) by { NothingMovable(anchor, nominal); }
    } else {
      MidsMovableIff(mids[1..], tracks, anchor, nominal);
      if mids[0].TrafBox? {
        var s := SaysTraf(mids[0].parts, tracks).value;
        OneMovable(s, anchor, nominal);
        MovableBoth([s], SaysMids(mids[1..], tracks).value, anchor, nominal);
      }
    }
  }

  lemma {:induction false} NothingMovable(anchor: int, nominal: int)
    ensures Movable([], anchor, nominal)
  {
  }

  lemma {:induction false} OneMovable(s: Said, anchor: int, nominal: int)
    ensures Movable([s], anchor, nominal) <==> MovedTime(s, anchor, nominal).Ok?
  {
    hide MovedTime;
    assert s in [s];
  }

  lemma {:induction false} TopsMovableIff(tops: seq<Top>, tracks: Tracks, anchor: int, nominal: int)
    requires SaysTops(tops, tracks).Ok?
    ensures MovedTops(tops, tracks, anchor, nominal).Ok? <==> Movable(SaysTops(tops, tracks).value, anchor, nominal)
  {
    hide SaysMids, Movable, MovedMids;
    if tops == [] {
      NothingMovable(anchor, nominal);
    } else {
      TopsMovableIff(tops[1..], tracks, anchor, nominal);
      if tops[0].MoofBox? {
        MidsMovableIff(tops[0].mids, tracks, anchor, nominal);
        MovableBoth(SaysMids(tops[0].mids, tracks).value, SaysTops(tops[1..], tracks).value, anchor, nominal);
      }
    }
  }

  /** A written segment is moved exactly when its record says something and each of its decode times can be moved. */
  lemma {:induction false} SegmentIsAcceptedIff(tops: seq<Top>, tracks: Tracks, anchor: int, nominal: int)
    requires GoodSegment(tops)
    ensures Retime(Written(tops), tracks, anchor, nominal).Ok? <==>
      Says(tops, tracks).Ok? && Movable(Says(tops, tracks).value, anchor, nominal)
  {
    SegmentIsRetimed(tops, tracks, anchor, nominal);
    hide Retime, Written, MovedTops, Movable, SaysTops, GoodSegment;
    if SaysTops(tops, tracks).Ok? { TopsMovableIff(tops, tracks, anchor, nominal); }
  }
}
