/** What the program tells of a written segment: for each track fragment its track, decode time and duration. */
module Fmp4Told {
  import opened Common
  import opened Bytes
  import opened Fmp4
  import opened Fmp4Boxes
  import opened Fmp4Fields
  import opened Fmp4Written

  /** The fragments of a record. */
  function Told(said: seq<Said>): seq<Fragment> {
    if said == [] then [] else [Fragment(said[0].track, said[0].tfdt.time, said[0].duration)] + Told(said[1..])
  }

  lemma {:induction false} ToldBoth(x: seq<Said>, y: seq<Said>)
    ensures Told(x + y) == Told(x) + Told(y)
  {
    if x == [] {
      assert x + y == y;
    } else {
      assert (x + y)[0] == x[0] && (x + y)[1..] == x[1..] + y;
      ToldBoth(x[1..], y);
    }
  }

  /** The decode times of tfs in the bytes are those of the record. */
  predicate Tells(b: seq<byte>, tfs: seq<Traf>, said: seq<Said>) { FragmentsOf(b, tfs) == Ok(Told(said)) }

  lemma {:induction false} FragmentsBoth(b: seq<byte>, x: seq<Traf>, y: seq<Traf>, xs: seq<Said>, ys: seq<Said>)
    requires Tells(b, x, xs) && Tells(b, y, ys)
    ensures Tells(b, x + y, xs + ys)
  {
    FragmentsOfBoth(b, x, y);
    ToldBoth(xs, ys);
    hide FragmentsOf, Told;
  }

  lemma {:induction false} FragmentsOfBoth(b: seq<byte>, x: seq<Traf>, y: seq<Traf>)
    requires FragmentsOf(b, x).Ok? && FragmentsOf(b, y).Ok?
    ensures FragmentsOf(b, x + y) == Ok(FragmentsOf(b, x).value + FragmentsOf(b, y).value)
  {
    hide DecodeTime;
    if x == [] {
      assert x + y == y;
      assert [] + FragmentsOf(b, y).value == FragmentsOf(b, y).value;
    } else {
      assert (x + y)[0] == x[0] && (x + y)[1..] == x[1..] + y;
      FragmentsOfBoth(b, x[1..], y);
      var r := FragmentsOf(b, x).value;
      assert r[..1] + (r[1..] + FragmentsOf(b, y).value) == r + FragmentsOf(b, y).value;
    }
  }

  /** The decode time in a written tfdt. */
  lemma {:induction false} TimeIsRead(b: seq<byte>, k: Box, d: Tfdt, track: Track, duration: nat)
    requires GoodTfdt(d) && Body(k) <= End(k) <= |b| && b[Body(k)..End(k)] == TfdtBody(d)
    ensures DecodeTime(b, Traf(track, k, d.version, duration)) == Ok(d.time)
  {
    var n := if d.version == 1 then 8 else 4;
    TimeField(d);
    LocatedPrefix(b, k, TfdtBody(d));
    hide TfdtBody, Digits, U32, U64;
    Within(b, Body(k), TfdtBody(d), 4, Digits(d.time, n));
    if d.version == 1 {
      ReadLong(b, Body(k) + 4, d.time);
    } else {
      ReadWord(b, Body(k) + 4, d.time);
    }
  }

  lemma {:induction false} TimeField(d: Tfdt)
    ensures var n := if d.version == 1 then 8 else 4;
      |TfdtBody(d)| == 4 + n && TfdtBody(d)[4..4 + n] == Digits(d.time, n)
  {
    hide Digits;
  }

  lemma {:induction false} TrafTells(b: seq<byte>, p: nat, end: nat, parts: seq<Part>, tracks: Tracks)
    requires p <= end <= |b| && b[p..end] == Concat(PartNodes(parts)) && GoodParts(parts)
    requires SaysTraf(parts, tracks).Ok?
    ensures FirstTime(parts) < |parts|
    ensures var s := SaysTraf(parts, tracks).value; Tells(b, [TrafOf(s, TimeBox(parts, p))], [s])
  {
    hide *;
    SaysGoodTime(parts, tracks);
    var i, s := FirstTime(parts), SaysTraf(parts, tracks).value;
    TimeIsThere(b, p, end, parts);
    TimeIsRead(b, TimeBox(parts, p), s.tfdt, s.track, s.duration);
    OneTold(b, s, TimeBox(parts, p));
  }

  lemma {:induction false} SaysGoodTime(parts: seq<Part>, tracks: Tracks)
    requires GoodParts(parts) && SaysTraf(parts, tracks).Ok?
    ensures FirstTime(parts) < |parts|
    ensures SaysTraf(parts, tracks).value.tfdt == parts[FirstTime(parts)].leaf.d
    ensures GoodTfdt(SaysTraf(parts, tracks).value.tfdt)
  {
    var i := FirstTime(parts);
    assert i < |parts| && SaysTraf(parts, tracks).value.tfdt == parts[i].leaf.d by { hide Length, NeedsDefault; }
    assert GoodLeaf(parts[i].leaf) by { assert parts[i] in parts; }
    hide SaysTraf, GoodParts;
  }

  lemma {:induction false} TimeIsThere(b: seq<byte>, p: nat, end: nat, parts: seq<Part>)
    requires p <= end <= |b| && b[p..end] == Concat(PartNodes(parts)) && FirstTime(parts) < |parts|
    ensures var k := TimeBox(parts, p);
      Body(k) <= End(k) <= |b| && b[Body(k)..End(k)] == TfdtBody(parts[FirstTime(parts)].leaf.d)
  {
    var i := FirstTime(parts);
    BoxesAreLocated(b, p, end, PartNodes(parts), i);
    assert PartNode(parts[i]).body == TfdtBody(parts[i].leaf.d) by { hide TfdtBody; }
    hide FirstTime, BoxesAt, Concat, TfdtBody, PartNode;
  }

  lemma {:induction false} OneTold(b: seq<byte>, s: Said, k: Box)
    requires DecodeTime(b, Traf(s.track, k, s.tfdt.version, s.duration)) == Ok(s.tfdt.time)
    ensures Tells(b, [TrafOf(s, k)], [s])
  {
    hide DecodeTime;
    var f := Fragment(s.track, s.tfdt.time, s.duration);
    assert [TrafOf(s, k)][1..] == [] && [s][1..] == [];
    assert FragmentsOf(b, [TrafOf(s, k)]) == Ok([f] + []) && Told([s]) == [f] + [];
  }

  lemma {:induction false} NoMidsTold(b: seq<byte>, p: nat, tracks: Tracks)
    ensures SaysMids([], tracks) == Ok([]) && Tells(b, PlanMids([], p, tracks), [])
  {
  }

  lemma {:induction false} NoTopsTold(b: seq<byte>, p: nat, tracks: Tracks)
    ensures SaysTops([], tracks) == Ok([]) && Tells(b, PlanTops([], p, tracks), [])
  {
  }

  lemma {:induction false} MidsTell(b: seq<byte>, p: nat, end: nat, mids: seq<Mid>, tracks: Tracks)
    requires p <= end <= |b| && b[p..end] == Concat(MidNodes(mids)) && GoodMids(mids) && SaysMids(mids, tracks).Ok?
    ensures Tells(b, PlanMids(mids, p, tracks), SaysMids(mids, tracks).value)
    decreases |mids|
  {
    hide *;
    if mids == [] {
      NoMidsTold(b, p, tracks);
    } else {
      var x := MidNode(mids[0]);
      SaysRest(mids, p, tracks);
      FirstMid(b, p, end, mids);
      RestOfMids(mids);
      MidsTell(b, p + |NodeBytes(x)|, end, mids[1..], tracks);
      if mids[0].TrafBox? {
        var s := SaysTraf(mids[0].parts, tracks).value;
        TrafInBox(b, p, mids[0]);
        TrafTells(b, BodyAt(x, p), p + |NodeBytes(x)|, mids[0].parts, tracks);
        FragmentsBoth(b, [TrafOf(s, TimeBox(mids[0].parts, BodyAt(x, p)))],
          PlanMids(mids[1..], p + |NodeBytes(x)|, tracks), [s], SaysMids(mids[1..], tracks).value);
      }
    }
  }

  lemma {:induction false} TrafInBox(b: seq<byte>, p: nat, m: Mid)
    requires m.TrafBox? && GoodMid(m) && Located(b, BoxOf(MidNode(m), p), MidNode(m))
    ensures GoodParts(m.parts) && BodyAt(MidNode(m), p) <= p + |NodeBytes(MidNode(m))| <= |b|
    ensures b[BodyAt(MidNode(m), p)..p + |NodeBytes(MidNode(m))|] == Concat(PartNodes(m.parts))
  {
    hide Concat, HeadBytes, GoodParts;
  }

  lemma {:induction false} SaysRest(mids: seq<Mid>, p: nat, tracks: Tracks)
    requires mids != [] && SaysMids(mids, tracks).Ok?
    ensures SaysMids(mids[1..], tracks).Ok?
    ensures var x := MidNode(mids[0]);
      var q := p + |NodeBytes(x)|;
      if !mids[0].TrafBox? then
        && SaysMids(mids, tracks) == SaysMids(mids[1..], tracks)
        && PlanMids(mids, p, tracks) == PlanMids(mids[1..], q, tracks)
      else
        && SaysTraf(mids[0].parts, tracks).Ok? && FirstTime(mids[0].parts) < |mids[0].parts|
        && SaysMids(mids, tracks).value == [SaysTraf(mids[0].parts, tracks).value] + SaysMids(mids[1..], tracks).value
        && PlanMids(mids, p, tracks)
           == [TrafOf(SaysTraf(mids[0].parts, tracks).value, TimeBox(mids[0].parts, BodyAt(x, p)))]
              + PlanMids(mids[1..], q, tracks)
  {
    if mids[0].TrafBox? { assert FirstTime(mids[0].parts) < |mids[0].parts|; }
    hide NodeBytes, HeadBytes, MidNode, SaysTraf, TimeBox, FirstTime;
    if !mids[0].TrafBox? {
      var tail := PlanMids(mids[1..], p + |NodeBytes(MidNode(mids[0]))|, tracks);
      assert [] + tail == tail;
    }
  }

  lemma {:induction false} SaysRestTops(tops: seq<Top>, p: nat, tracks: Tracks)
    requires tops != [] && SaysTops(tops, tracks).Ok?
    ensures SaysTops(tops[1..], tracks).Ok?
    ensures var x := TopNode(tops[0]);
      var q := p + |NodeBytes(x)|;
      if !tops[0].MoofBox? then
        && SaysTops(tops, tracks) == SaysTops(tops[1..], tracks)
        && PlanTops(tops, p, tracks) == PlanTops(tops[1..], q, tracks)
      else
        && SaysMids(tops[0].mids, tracks).Ok?
        && SaysTops(tops, tracks).value == SaysMids(tops[0].mids, tracks).value + SaysTops(tops[1..], tracks).value
        && PlanTops(tops, p, tracks) == PlanMids(tops[0].mids, BodyAt(x, p), tracks) + PlanTops(tops[1..], q, tracks)
  {
    hide NodeBytes, HeadBytes, TopNode, SaysMids, PlanMids;
    if !tops[0].MoofBox? {
      var tail := PlanTops(tops[1..], p + |NodeBytes(TopNode(tops[0]))|, tracks);
      assert [] + tail == tail;
    }
  }

  lemma {:induction false} MoofInBox(b: seq<byte>, p: nat, x: Top)
    requires x.MoofBox? && GoodTop(x) && Located(b, BoxOf(TopNode(x), p), TopNode(x))
    ensures GoodMids(x.mids) && BodyAt(TopNode(x), p) <= p + |NodeBytes(TopNode(x))| <= |b|
    ensures b[BodyAt(TopNode(x), p)..p + |NodeBytes(TopNode(x))|] == Concat(MidNodes(x.mids))
  {
    hide Concat, HeadBytes, GoodMids;
  }

  lemma {:induction false} TopsTell(b: seq<byte>, p: nat, end: nat, tops: seq<Top>, tracks: Tracks)
    requires p <= end <= |b| && b[p..end] == Concat(TopNodes(tops)) && GoodSegment(tops) && SaysTops(tops, tracks).Ok?
    ensures Tells(b, PlanTops(tops, p, tracks), SaysTops(tops, tracks).value)
    decreases |tops|
  {
    hide *;
    if tops == [] {
      NoTopsTold(b, p, tracks);
    } else {
      var x := TopNode(tops[0]);
      SaysRestTops(tops, p, tracks);
      FirstTop(b, p, end, tops);
      RestOfTops(tops);
      TopsTell(b, p + |NodeBytes(x)|, end, tops[1..], tracks);
      if tops[0].MoofBox? {
        MoofInBox(b, p, tops[0]);
        MidsTell(b, BodyAt(x, p), p + |NodeBytes(x)|, tops[0].mids, tracks);
        FragmentsBoth(b, PlanMids(tops[0].mids, BodyAt(x, p), tracks), PlanTops(tops[1..], p + |NodeBytes(x)|, tracks),
          SaysMids(tops[0].mids, tracks).value, SaysTops(tops[1..], tracks).value);
      }
    }
  }

  /** What is read of a written segment is what its record says, decode times of 32 and of 64 bits alike. */
  lemma {:induction false} SegmentIsTold(tops: seq<Top>, tracks: Tracks)
    requires GoodSegment(tops)
    ensures Fragments(Written(tops), tracks) ==
      match Says(tops, tracks)
      case Err(e) => Err(e)
      case Ok(said) => Ok(Told(said))
  {
    var b := Written(tops);
    assert b[0..|b|] == b;
    assert b == Concat(TopNodes(tops)) by { hide TopNodes, Concat; }
    hide Walk, SaysTops, PlanTops, Written, TopNodes, Concat, GoodSegment, Told, FragmentsOf;
    SegmentIsWalked(tops, tracks);
    if Says(tops, tracks).Ok? { TopsTell(b, 0, |b|, tops, tracks); }
  }

  // ----- media data -----

  /** What the mdat boxes of a record hold. */
  function MediaIn(tops: seq<Top>): seq<byte> {
    if tops == [] then [] else
      (if tops[0].OtherTop? && tops[0].typ == Ascii("mdat") then tops[0].body else []) + MediaIn(tops[1..])
  }

  lemma {:induction false} TopHolds(b: seq<byte>, p: nat, x: Top)
    requires Located(b, BoxOf(TopNode(x), p), TopNode(x))
    ensures var k := BoxOf(TopNode(x), p);
      && Body(k) <= End(k) <= |b|
      && (if k.typ == MDAT then b[Body(k)..End(k)] else [])
         == if x.OtherTop? && x.typ == Ascii("mdat") then x.body else []
  {
    TypesAre();
    assert MOOF[1] != MDAT[1];
    hide HeadBytes, MOOF, MDAT, Concat, Ascii;
  }

  lemma {:induction false} MediaStep(b: seq<byte>, x: Box, rest: seq<Box>)
    requires Fit(b, [x] + rest)
    ensures Fit(b, rest) && Body(x) <= End(x) <= |b|
    ensures MediaOf(b, [x] + rest) == (if x.typ == MDAT then b[Body(x)..End(x)] else []) + MediaOf(b, rest)
  {
    FitsRest(b, x, rest);
    hide MDAT;
  }

  lemma {:induction false} TopsHoldMedia(b: seq<byte>, p: nat, end: nat, tops: seq<Top>)
    requires p <= end <= |b| && b[p..end] == Concat(TopNodes(tops)) && GoodSegment(tops)
    ensures Fit(b, BoxesAt(TopNodes(tops), p)) && MediaOf(b, BoxesAt(TopNodes(tops), p)) == MediaIn(tops)
    decreases |tops|
  {
    hide TopNode, NodeBytes, HeadBytes, Concat, Fit, MediaOf, Located, TopNodes, BoxesAt, GoodSegment;
    BoxesFit(b, p, end, TopNodes(tops));
    if tops == [] {
      NoMedia(b, p);
    } else {
      var x := TopNode(tops[0]);
      var q := p + |NodeBytes(x)|;
      FirstTop(b, p, end, tops);
      RestOfTops(tops);
      TopsHoldMedia(b, q, end, tops[1..]);
      TopHolds(b, p, tops[0]);
      MediaStep(b, BoxOf(x, p), BoxesAt(TopNodes(tops[1..]), q));
    }
  }

  lemma {:induction false} NoMedia(b: seq<byte>, p: nat)
    ensures BoxesAt(TopNodes([]), p) == [] && Fit(b, []) && MediaOf(b, []) == []
  {
  }

  /** The media data of a written segment is what its mdat boxes hold, in order. */
  lemma {:induction false} MediaIsTold(tops: seq<Top>)
    requires GoodSegment(tops)
    ensures MediaData(Written(tops)) == Ok(MediaIn(tops))
  {
    var b := Written(tops);
    assert b[0..|b|] == b;
    assert b == Concat(TopNodes(tops)) by { hide TopNodes, Concat; }
    assert Listed(TopNodes(tops)) by { hide TopNodes, Listed; }
    hide TopNodes, Concat, Written, GoodSegment, Children, MediaOf, MediaIn, Listed, BoxesAt;
    ChildrenOf(b, 0, |b|, TopNodes(tops));
    TopsHoldMedia(b, 0, |b|, tops);
  }
}
