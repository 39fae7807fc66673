/**
 Whole segments written from records: moof boxes with their track fragments, among any other
 boxes. The program walks a written segment to exactly what its record says, or refuses it for
 a reason that the record shows.
 */
module Fmp4Written {
  import opened Common
  import opened Bytes
  import opened Fmp4
  import opened Fmp4Boxes
  import opened Fmp4Fields

  // ----- the record of a segment -----

  datatype Leaf = Head(h: Tfhd) | Time(d: Tfdt) | Run(t: Trun) | OtherLeaf(typ: seq<byte>, body: seq<byte>)

  /** A box inside a traf. */
  datatype Part = Part(form: Form, leaf: Leaf)

  /** A box inside a moof. */
  datatype Mid = TrafBox(form: Form, parts: seq<Part>) | OtherMid(form: Form, typ: seq<byte>, body: seq<byte>)

  /** A box of the segment. */
  datatype Top = MoofBox(form: Form, mids: seq<Mid>) | OtherTop(form: Form, typ: seq<byte>, body: seq<byte>)

  function PartNode(x: Part): Node {
    match x.leaf
    case Head(h) => Node(TFHD, x.form, TfhdBody(h))
    case Time(d) => Node(TFDT, x.form, TfdtBody(d))
    case Run(t) => Node(TRUN, x.form, TrunBody(t))
    case OtherLeaf(typ, body) => Node(typ, x.form, body)
  }

  function PartNodes(parts: seq<Part>): (r: seq<Node>)
    ensures |r| == |parts| && forall i :: 0 <= i < |r| ==> r[i] == PartNode(parts[i])
  {
    seq(|parts|, i requires 0 <= i < |parts| => PartNode(parts[i]))
  }

  function MidNode(m: Mid): Node {
    match m
    case TrafBox(form, parts) => Node(TRAF, form, Concat(PartNodes(parts)))
    case OtherMid(form, typ, body) => Node(typ, form, body)
  }

  function MidNodes(mids: seq<Mid>): (r: seq<Node>)
    ensures |r| == |mids| && forall i :: 0 <= i < |r| ==> r[i] == MidNode(mids[i])
  {
    seq(|mids|, i requires 0 <= i < |mids| => MidNode(mids[i]))
  }

  function TopNode(x: Top): Node {
    match x
    case MoofBox(form, mids) => Node(MOOF, form, Concat(MidNodes(mids)))
    case OtherTop(form, typ, body) => Node(typ, form, body)
  }

  function TopNodes(tops: seq<Top>): (r: seq<Node>)
    ensures |r| == |tops| && forall i :: 0 <= i < |r| ==> r[i] == TopNode(tops[i])
  {
    seq(|tops|, i requires 0 <= i < |tops| => TopNode(tops[i]))
  }

  /** The bytes of a segment. */
  function Written(tops: seq<Top>): seq<byte> { Concat(TopNodes(tops)) }

  // ----- records that can be written -----

  predicate GoodLeaf(x: Leaf) {
    match x
    case Head(h) => GoodTfhd(h)
    case Time(d) => GoodTfdt(d)
    case Run(t) => GoodTrun(t)
    case OtherLeaf(typ, _) => typ != TFHD && typ != TFDT && typ != TRUN
  }

  predicate GoodLeaves(parts: seq<Part>) { forall x <- parts :: GoodLeaf(x.leaf) }

  predicate GoodParts(parts: seq<Part>) {
    GoodLeaves(parts) && Listed(PartNodes(parts))
  }

  predicate GoodMid(m: Mid) {
    match m
    case TrafBox(_, parts) => GoodParts(parts)
    case OtherMid(_, typ, _) => typ != TRAF
  }

  predicate GoodMids(mids: seq<Mid>) { (forall m <- mids :: GoodMid(m)) && Listed(MidNodes(mids)) }

  predicate GoodTop(x: Top) {
    match x
    case MoofBox(_, mids) => GoodMids(mids)
    case OtherTop(_, typ, _) => typ != MOOF
  }

  predicate GoodSegment(tops: seq<Top>) { (forall x <- tops :: GoodTop(x)) && Listed(TopNodes(tops)) }

  // ----- what a record says -----

  function FirstHead(parts: seq<Part>): (i: nat)
    ensures i <= |parts| && (i < |parts| ==> parts[i].leaf.Head?)
  {
    if parts == [] || parts[0].leaf.Head? then 0 else 1 + FirstHead(parts[1..])
  }

  function FirstTime(parts: seq<Part>): (i: nat)
    ensures i <= |parts| && (i < |parts| ==> parts[i].leaf.Time?)
  {
    if parts == [] || parts[0].leaf.Time? then 0 else 1 + FirstTime(parts[1..])
  }

  /** A trun that gives no durations needs a default. */
  predicate NeedsDefault(parts: seq<Part>) { exists x <- parts :: x.leaf.Run? && !x.leaf.t.durations }

  function RunLength(t: Trun, default: nat): nat {
    if t.durations then Durations(t.samples) else |t.samples| * default
  }

  /** The duration of all samples. */
  function Length(parts: seq<Part>, default: nat): nat {
    if parts == [] then 0
    else
      var x := parts[|parts| - 1].leaf;
      Length(parts[..|parts| - 1], default) + if x.Run? then RunLength(x.t, default) else 0
  }

  /** What a traf says: its track, its decode time and its duration. */
  datatype Said = Said(track: Track, tfdt: Tfdt, duration: nat)

  function DefaultOf(h: Tfhd, track: Track): nat {
    if h.duration.Some? then h.duration.value else track.defaultSampleDuration
  }

  function SaysTraf(parts: seq<Part>, tracks: Tracks): Result<Said, Error> {
    if FirstHead(parts) == |parts| then Err(NoTfhd) else
      var h := parts[FirstHead(parts)].leaf.h;
      if h.trackId !in tracks then Err(UnknownTrack)
      else if FirstTime(parts) == |parts| then Err(NoTfdt)
      else
        var track := tracks[h.trackId];
        var default := DefaultOf(h, track);
        if default == 0 && NeedsDefault(parts) then Err(NoDuration)
        else Ok(Said(track, parts[FirstTime(parts)].leaf.d, Length(parts, default) % B64))
  }

  function SaysMids(mids: seq<Mid>, tracks: Tracks): Result<seq<Said>, Error> {
    if mids == [] then Ok([])
    else if !mids[0].TrafBox? then SaysMids(mids[1..], tracks)
    else
      match SaysTraf(mids[0].parts, tracks)
      case Err(e) => Err(e)
      case Ok(s) => Behind([s], SaysMids(mids[1..], tracks))
  }

  function SaysTops(tops: seq<Top>, tracks: Tracks): Result<seq<Said>, Error> {
    if tops == [] then Ok([])
    else if !tops[0].MoofBox? then SaysTops(tops[1..], tracks)
    else
      match SaysMids(tops[0].mids, tracks)
      case Err(e) => Err(e)
      case Ok(s) => Behind(s, SaysTops(tops[1..], tracks))
  }

  /** What a segment says, in order; it must say something. */
  function Says(tops: seq<Top>, tracks: Tracks): Result<seq<Said>, Error> {
    match SaysTops(tops, tracks)
    case Err(e) => Err(e)
    case Ok(s) => if s == [] then Err(NoFragments) else Ok(s)
  }

  // ----- where it is written -----

  function TimeBox(parts: seq<Part>, p: nat): Box
    requires FirstTime(parts) < |parts|
  {
    BoxesAt(PartNodes(parts), p)[FirstTime(parts)]
  }

  function TrafOf(s: Said, x: Box): Traf { Traf(s.track, x, s.tfdt.version, s.duration) }

  function BodyAt(x: Node, p: nat): nat { p + |HeadBytes(x)| }

  function PlanMids(mids: seq<Mid>, p: nat, tracks: Tracks): seq<Traf> {
    if mids == [] then [] else
      var x := MidNode(mids[0]);
      (if mids[0].TrafBox? && SaysTraf(mids[0].parts, tracks).Ok?
       then [TrafOf(SaysTraf(mids[0].parts, tracks).value, TimeBox(mids[0].parts, BodyAt(x, p)))] else [])
      + PlanMids(mids[1..], p + |NodeBytes(x)|, tracks)
  }

  function PlanTops(tops: seq<Top>, p: nat, tracks: Tracks): seq<Traf> {
    if tops == [] then [] else
      var x := TopNode(tops[0]);
      (if tops[0].MoofBox? then PlanMids(tops[0].mids, BodyAt(x, p), tracks) else [])
      + PlanTops(tops[1..], p + |NodeBytes(x)|, tracks)
  }

  // ----- one traf -----

  lemma {:induction false} TypesDiffer()
    ensures TFHD != TFDT && TFHD != TRUN && TFDT != TRUN
  {
    assert TFHD[2] != TFDT[2] && TFHD[1] != TRUN[1] && TFDT[1] != TRUN[1];
  }

  lemma {:induction false} HeadIsFound(kids: seq<Box>, parts: seq<Part>)
    requires |kids| == |parts| && GoodLeaves(parts)
    requires forall i :: 0 <= i < |kids| ==> kids[i].typ == PartNode(parts[i]).typ
    ensures Find(kids, TFHD) == if FirstHead(parts) == |parts| then None else Some(kids[FirstHead(parts)])
    decreases |kids|
  {
    TypesDiffer();
    hide TFHD, TFDT, TRUN, TfhdBody, TfdtBody, TrunBody;
    if kids != [] && !parts[0].leaf.Head? {
      assert parts[0] in parts;
      HeadIsFound(kids[1..], parts[1..]);
    }
  }

  lemma {:induction false} TimeIsFound(kids: seq<Box>, parts: seq<Part>)
    requires |kids| == |parts| && GoodLeaves(parts)
    requires forall i :: 0 <= i < |kids| ==> kids[i].typ == PartNode(parts[i]).typ
    ensures Find(kids, TFDT) == if FirstTime(parts) == |parts| then None else Some(kids[FirstTime(parts)])
    decreases |kids|
  {
    TypesDiffer();
    hide TFHD, TFDT, TRUN, TfhdBody, TfdtBody, TrunBody;
    if kids != [] && !parts[0].leaf.Time? {
      assert parts[0] in parts;
      TimeIsFound(kids[1..], parts[1..]);
    }
  }

  predicate AllLocated(b: seq<byte>, kids: seq<Box>, parts: seq<Part>) {
    |kids| == |parts| && forall i :: 0 <= i < |kids| ==> Located(b, kids[i], PartNode(parts[i]))
  }

  lemma {:induction false} LocatedFit(b: seq<byte>, kids: seq<Box>, parts: seq<Part>)
    requires AllLocated(b, kids, parts)
    ensures Fit(b, kids) && forall i :: 0 <= i < |kids| ==> kids[i].typ == PartNode(parts[i]).typ
  {
    hide PartNode;
  }

  function RunsSay(parts: seq<Part>, default: nat): Result<nat, Error> {
    if default == 0 && NeedsDefault(parts) then Err(NoDuration) else Ok(Length(parts, default) % B64)
  }

  /** One more part. */
  lemma {:induction false} RunsSayMore(parts: seq<Part>, default: nat)
    requires parts != []
    ensures var r, x := RunsSay(parts[..|parts| - 1], default), parts[|parts| - 1].leaf;
      RunsSay(parts, default) ==
        if r.Err? then r else if !x.Run? then r else if RunSays(x, default).Err? then Err(NoDuration)
        else Ok((r.value + RunSays(x, default).value) % B64)
  {
    NeedsMore(parts);
    hide NeedsDefault, RunLength;
    var k := |parts| - 1;
    var x := parts[k].leaf;
    if x.Run? { AddsUpBoth(Length(parts[..k], default), RunLength(x.t, default)); }
  }

  lemma {:induction false} FrontIsLocated(b: seq<byte>, kids: seq<Box>, parts: seq<Part>)
    requires AllLocated(b, kids, parts) && Fit(b, kids) && GoodLeaves(parts) && kids != []
    ensures var k := |kids| - 1;
      && |parts| == |kids| && AllLocated(b, kids[..k], parts[..k]) && Fit(b, kids[..k]) && GoodLeaves(parts[..k])
      && Located(b, kids[k], PartNode(parts[k])) && GoodLeaf(parts[k].leaf)
  {
    hide Located, GoodLeaf, PartNode;
  }

  /** The loop over the truns adds up the durations, unless one of them needs a default that there is not. */
  lemma {:induction false} RunsAreSummed(b: seq<byte>, kids: seq<Box>, parts: seq<Part>, default: nat)
    requires AllLocated(b, kids, parts) && Fit(b, kids) && GoodLeaves(parts)
    ensures TrunsDuration(b, kids, default) == RunsSay(parts, default)
    decreases |kids|
  {
    if kids == [] {
      assert parts == [];
    } else {
      hide *;
      FrontIsLocated(b, kids, parts);
      RunsAreSummed(b, kids[..|kids| - 1], parts[..|kids| - 1], default);
      LastIsSummed(b, kids, parts, default);
    }
  }

  lemma {:induction false} LastIsSummed(b: seq<byte>, kids: seq<Box>, parts: seq<Part>, default: nat)
    requires AllLocated(b, kids, parts) && Fit(b, kids) && GoodLeaves(parts) && kids != []
    requires Fit(b, kids[..|kids| - 1])
    requires TrunsDuration(b, kids[..|kids| - 1], default) == RunsSay(parts[..|kids| - 1], default)
    ensures TrunsDuration(b, kids, default) == RunsSay(parts, default)
  {
    hide *;
    FrontIsLocated(b, kids, parts);
    var k := |kids| - 1;
    RunIsLocated(b, kids[k], parts[k], default);
    TrunsStep(b, kids, default, parts[k].leaf);
    RunsSayMore(parts, default);
  }

  lemma {:induction false} NeedsMore(parts: seq<Part>)
    requires parts != []
    ensures var k := |parts| - 1;
      NeedsDefault(parts) <==> NeedsDefault(parts[..k]) || (parts[k].leaf.Run? && !parts[k].leaf.t.durations)
  {
    var k := |parts| - 1;
    if NeedsDefault(parts[..k]) {
      var x :| x in parts[..k] && x.leaf.Run? && !x.leaf.t.durations;
      assert x in parts;
    } else if parts[k].leaf.Run? && !parts[k].leaf.t.durations {
      assert parts[k] in parts;
    }
  }

  lemma {:induction false} AddsUpBoth(x: nat, y: nat)
    ensures (x % B64 + y % B64) % B64 == (x + y) % B64
  {
  }

  /** What one trun adds. */
  function RunSays(x: Leaf, default: nat): Result<nat, Error> {
    if !x.Run? then Ok(0)
    else if default == 0 && !x.t.durations then Err(NoDuration) else Ok(RunLength(x.t, default) % B64)
  }

  lemma {:induction false} RunIsLocated(b: seq<byte>, k: Box, x: Part, default: nat)
    requires Located(b, k, PartNode(x)) && GoodLeaf(x.leaf)
    ensures k.typ == TRUN <==> x.leaf.Run?
    ensures x.leaf.Run? ==> TrunDuration(b, k, default) == RunSays(x.leaf, default)
  {
    TypesDiffer();
    hide TFHD, TFDT, TRUN, TfhdBody, TfdtBody, TrunBody, TrunDuration, Durations;
    if x.leaf.Run? {
      LocatedPrefix(b, k, TrunBody(x.leaf.t));
      TrunIsRead(b, k, x.leaf.t, default);
    }
  }

  lemma {:induction false} TrunsStep(b: seq<byte>, kids: seq<Box>, default: nat, x: Leaf)
    requires kids != [] && Fit(b, kids) && (kids[|kids| - 1].typ == TRUN <==> x.Run?)
    requires x.Run? ==> TrunDuration(b, kids[|kids| - 1], default) == RunSays(x, default)
    ensures Fit(b, kids[..|kids| - 1])
    ensures var r := TrunsDuration(b, kids[..|kids| - 1], default);
      TrunsDuration(b, kids, default) ==
        if r.Err? then r else if !x.Run? then r else if RunSays(x, default).Err? then Err(NoDuration)
        else Ok((r.value + RunSays(x, default).value) % B64)
  {
    hide TrunDuration, TRUN, RunLength;
  }

  lemma {:induction false} LocatedPrefix(b: seq<byte>, k: Box, body: seq<byte>)
    requires Body(k) <= End(k) <= |b| && b[Body(k)..End(k)] == body
    ensures Body(k) + |body| == End(k) && b[Body(k)..Body(k) + |body|] == body
  {
  }

  lemma {:induction false} HeadIsLocated(b: seq<byte>, k: Box, x: Part, tracks: Tracks)
    requires Located(b, k, PartNode(x)) && GoodLeaf(x.leaf) && x.leaf.Head?
    ensures ReadTfhd(b, k, tracks) ==
      if x.leaf.h.trackId !in tracks then Err(UnknownTrack)
      else Ok((tracks[x.leaf.h.trackId], DefaultOf(x.leaf.h, tracks[x.leaf.h.trackId])))
  {
    hide TfhdBody, ReadTfhd;
    LocatedPrefix(b, k, TfhdBody(x.leaf.h));
    TfhdIsRead(b, k, x.leaf.h, tracks);
  }

  lemma {:induction false} TimeIsLocated(b: seq<byte>, k: Box, x: Part)
    requires Located(b, k, PartNode(x)) && x.leaf.Time?
    ensures Body(k) < |b| && b[Body(k)] == x.leaf.d.version
  {
    hide Digits;
    assert b[Body(k)] == b[Body(k)..End(k)][0];
  }

  /** How ParseTraf puts together what it finds. */
  lemma {:induction false} ParsesAs(b: seq<byte>, k: Box, tracks: Tracks, kids: seq<Box>, tfhd: Box, tfdt: Box,
      r: Result<(Track, nat), Error>, d: Result<nat, Error>)
    requires Body(k) <= End(k) <= |b| && Children(b, Body(k), End(k)) == Ok(kids) && Fit(b, kids)
    requires Find(kids, TFHD) == Some(tfhd) && ReadTfhd(b, tfhd, tracks) == r
    requires Find(kids, TFDT) == Some(tfdt) ==>
      Body(tfdt) < |b| && (r.Ok? ==> TrunsDuration(b, kids, r.value.1) == d)
    ensures r.Err? ==> ParseTraf(b, k, tracks) == Err(r.error)
    ensures r.Ok? && Find(kids, TFDT) == None ==> ParseTraf(b, k, tracks) == Err(NoTfdt)
    ensures r.Ok? && Find(kids, TFDT) == Some(tfdt) && d.Err? ==> ParseTraf(b, k, tracks) == Err(d.error)
    ensures r.Ok? && Find(kids, TFDT) == Some(tfdt) && d.Ok? ==>
      ParseTraf(b, k, tracks) == Ok(Traf(r.value.0, tfdt, b[Body(tfdt)], d.value))
  {
    hide Children, Find, TrunsDuration, ReadTfhd, TFHD, TFDT;
  }

  lemma {:induction false} PartsAreLocated(b: seq<byte>, k: Box, parts: seq<Part>)
    requires Listed(PartNodes(parts)) && Body(k) <= End(k) <= |b| && b[Body(k)..End(k)] == Concat(PartNodes(parts))
    ensures var kids := BoxesAt(PartNodes(parts), Body(k));
      Children(b, Body(k), End(k)) == Ok(kids) && AllLocated(b, kids, parts)
  {
    var xs := PartNodes(parts);
    ChildrenOf(b, Body(k), End(k), xs);
    hide Children, Located, Concat, Listed, PartNode, BoxesAt;
    forall i | 0 <= i < |xs| ensures Located(b, BoxesAt(xs, Body(k))[i], xs[i]) {
      BoxesAreLocated(b, Body(k), End(k), xs, i);
    }
  }

  /** A written traf is parsed to what its record says. */
  lemma {:induction false} TrafIsParsed(b: seq<byte>, k: Box, parts: seq<Part>, tracks: Tracks)
    requires GoodParts(parts) && Body(k) <= End(k) <= |b| && b[Body(k)..End(k)] == Concat(PartNodes(parts))
    ensures ParseTraf(b, k, tracks) ==
      match SaysTraf(parts, tracks)
      case Err(e) => Err(e)
      case Ok(s) => Ok(TrafOf(s, TimeBox(parts, Body(k))))
  {
    PartsAreLocated(b, k, parts);
    var kids := BoxesAt(PartNodes(parts), Body(k));
    LocatedFit(b, kids, parts);
    HeadIsFound(kids, parts);
    hide Children, AllLocated, Concat, Listed, BoxesAt, ParseTraf, Find, GoodLeaves, NeedsDefault, Length, TFHD, Fit;
    if FirstHead(parts) == |parts| {
      NoHead(b, k, tracks, kids);
    } else {
      TrafWithHead(b, k, parts, tracks, kids);
    }
  }

  lemma {:induction false} TrafWithHead(b: seq<byte>, k: Box, parts: seq<Part>, tracks: Tracks, kids: seq<Box>)
    requires Body(k) <= End(k) <= |b| && Children(b, Body(k), End(k)) == Ok(kids) && FirstHead(parts) < |parts|
    requires kids == BoxesAt(PartNodes(parts), Body(k)) && AllLocated(b, kids, parts) && GoodLeaves(parts)
    requires Find(kids, TFHD) == Some(kids[FirstHead(parts)]) && Fit(b, kids)
    ensures ParseTraf(b, k, tracks) ==
      match SaysTraf(parts, tracks)
      case Err(e) => Err(e)
      case Ok(s) => Ok(TrafOf(s, TimeBox(parts, Body(k))))
  {
    var i, j := FirstHead(parts), FirstTime(parts);
    LocatedFit(b, kids, parts);
    TimeIsFound(kids, parts);
    assert parts[i] in parts;
    HeadIsLocated(b, kids[i], parts[i], tracks);
    if j < |parts| { TimeIsLocated(b, kids[j], parts[j]); }
    var r := ReadTfhd(b, kids[i], tracks);
    if r.Ok? { RunsAreSummed(b, kids, parts, r.value.1); }
    var d := if r.Ok? then TrunsDuration(b, kids, r.value.1) else Ok(0);
    ParsesAs(b, k, tracks, kids, kids[i], if j < |parts| then kids[j] else kids[i], r, d);
    assert TimeBox.requires(parts, Body(k)) ==> TimeBox(parts, Body(k)) == kids[j];
    Combined(parts, tracks, ParseTraf(b, k, tracks), Body(k), r, d) by {
      hide *;
    }
  }

  /** What a traf says, put together from what is read. */
  lemma {:induction false} Combined(parts: seq<Part>, tracks: Tracks, parsed: Result<Traf, Error>, p: nat,
      r: Result<(Track, nat), Error>, d: Result<nat, Error>)
    requires FirstHead(parts) < |parts|
    requires var h := parts[FirstHead(parts)].leaf.h;
      r == if h.trackId !in tracks then Err(UnknownTrack)
           else Ok((tracks[h.trackId], DefaultOf(h, tracks[h.trackId])))
    requires r.Ok? ==> d == RunsSay(parts, r.value.1)
    requires r.Err? ==> parsed == Err(r.error)
    requires r.Ok? && FirstTime(parts) == |parts| ==> parsed == Err(NoTfdt)
    requires r.Ok? && FirstTime(parts) < |parts| && d.Err? ==> parsed == Err(d.error)
    requires r.Ok? && FirstTime(parts) < |parts| && d.Ok? ==>
      parsed == Ok(Traf(r.value.0, TimeBox(parts, p), parts[FirstTime(parts)].leaf.d.version, d.value))
    ensures parsed ==
      match SaysTraf(parts, tracks)
      case Err(e) => Err(e)
      case Ok(s) => Ok(TrafOf(s, TimeBox(parts, p)))
  {
    hide NeedsDefault, Length, TimeBox, DefaultOf;
  }

  lemma {:induction false} NoHead(b: seq<byte>, k: Box, tracks: Tracks, kids: seq<Box>)
    requires Body(k) <= End(k) <= |b| && Children(b, Body(k), End(k)) == Ok(kids) && Find(kids, TFHD) == None
    ensures ParseTraf(b, k, tracks) == Err(NoTfhd)
  {
    hide Children, Find, TFHD;
  }

  // ----- the walk -----

  lemma {:induction false} RestOfMids(mids: seq<Mid>)
    requires GoodMids(mids) && mids != []
    ensures GoodMids(mids[1..]) && GoodMid(mids[0])
    ensures MidNodes(mids)[1..] == MidNodes(mids[1..])
  {
    hide MidNode, GoodMid;
    RestIsListed(MidNodes(mids));
    assert MidNodes(mids)[1..] == MidNodes(mids[1..]);
    assert mids[0] in mids;
  }

  /** The first of the boxes of a moof, and the rest. */
  lemma {:induction false} FirstMid(b: seq<byte>, p: nat, end: nat, mids: seq<Mid>)
    requires p <= end <= |b| && b[p..end] == Concat(MidNodes(mids)) && GoodMids(mids) && mids != []
    ensures var x := MidNode(mids[0]);
      && p + |NodeBytes(x)| <= end && b[p + |NodeBytes(x)|..end] == Concat(MidNodes(mids[1..]))
      && Located(b, BoxOf(x, p), x)
      && BoxesAt(MidNodes(mids), p) == [BoxOf(x, p)] + BoxesAt(MidNodes(mids[1..]), p + |NodeBytes(x)|)
  {
    RestOfMids(mids);
    var xs := MidNodes(mids);
    BoxesAreLocated(b, p, end, xs, 0);
    TwoParts(b, p, end, NodeBytes(xs[0]), Concat(xs[1..]));
    hide MidNode, NodeBytes, HeadBytes, Located, GoodMids;
  }

  lemma {:induction false} FitsRest(b: seq<byte>, x: Box, kids: seq<Box>)
    requires Fit(b, [x] + kids)
    ensures Fit(b, kids) && Body(x) <= End(x) <= |b| && ([x] + kids)[1..] == kids
  {
    forall i | 0 <= i < |kids| ensures Body(kids[i]) <= End(kids[i]) <= |b| {
      assert ([x] + kids)[i + 1] == kids[i];
    }
    assert ([x] + kids)[0] == x;
  }

  lemma {:induction false} BoxesFit(b: seq<byte>, p: nat, end: nat, xs: seq<Node>)
    requires p <= end <= |b| && b[p..end] == Concat(xs)
    ensures Fit(b, BoxesAt(xs, p))
  {
    forall i | 0 <= i < |xs| ensures Body(BoxesAt(xs, p)[i]) <= End(BoxesAt(xs, p)[i]) <= |b| {
      BoxesAreLocated(b, p, end, xs, i);
    }
  }

  lemma {:induction false} TrafStep(b: seq<byte>, x: Box, kids: seq<Box>, tracks: Tracks)
    requires Fit(b, [x] + kids)
    ensures Fit(b, kids) && Body(x) <= End(x) <= |b|
    ensures WalkTrafs(b, [x] + kids, tracks) ==
      if x.typ != TRAF then WalkTrafs(b, kids, tracks)
      else match ParseTraf(b, x, tracks)
           case Err(e) => Err(e)
           case Ok(tf) => Behind([tf], WalkTrafs(b, kids, tracks))
  {
    FitsRest(b, x, kids);
    hide ParseTraf, TRAF;
  }

  /** The result of the walk over records, with the places of their decode times. */
  function Planned(said: Result<seq<Said>, Error>, tfs: seq<Traf>): Result<seq<Traf>, Error> {
    match said
    case Err(e) => Err(e)
    case Ok(_) => Ok(tfs)
  }

  /** The box of a record has its type, and what it holds is where it says. */
  lemma {:induction false} MidIsParsed(b: seq<byte>, p: nat, m: Mid, tracks: Tracks)
    requires GoodMid(m) && Located(b, BoxOf(MidNode(m), p), MidNode(m))
    ensures BoxOf(MidNode(m), p).typ == TRAF <==> m.TrafBox?
    ensures m.TrafBox? ==>
      var k := BoxOf(MidNode(m), p);
      && Body(k) == BodyAt(MidNode(m), p) && Body(k) <= End(k) <= |b|
      && ParseTraf(b, k, tracks) ==
           (match SaysTraf(m.parts, tracks)
            case Err(e) => Err(e)
            case Ok(s) => Ok(TrafOf(s, TimeBox(m.parts, Body(k)))))
  {
    hide ParseTraf, SaysTraf, TimeBox, Concat, HeadBytes, TRAF, GoodParts;
    if m.TrafBox? {
      TrafIsParsed(b, BoxOf(MidNode(m), p), m.parts, tracks);
    }
  }

  lemma {:induction false} MidsAreWalked(b: seq<byte>, p: nat, end: nat, mids: seq<Mid>, tracks: Tracks)
    requires p <= end <= |b| && b[p..end] == Concat(MidNodes(mids)) && GoodMids(mids)
    ensures Fit(b, BoxesAt(MidNodes(mids), p))
    ensures WalkTrafs(b, BoxesAt(MidNodes(mids), p), tracks)
         == Planned(SaysMids(mids, tracks), PlanMids(mids, p, tracks))
    decreases |mids|
  {
    hide *;
    BoxesFit(b, p, end, MidNodes(mids));
    if mids == [] {
      NoMids(b, p, tracks);
    } else {
      var x := MidNode(mids[0]);
      var q := p + |NodeBytes(x)|;
      FirstMid(b, p, end, mids);
      RestOfMids(mids);
      MidsAreWalked(b, q, end, mids[1..], tracks);
      MidIsParsed(b, p, mids[0], tracks);
      TrafStep(b, BoxOf(x, p), BoxesAt(MidNodes(mids[1..]), q), tracks);
      MidsStep(mids, p, tracks, WalkTrafs(b, BoxesAt(MidNodes(mids[1..]), q), tracks));
    }
  }

  lemma {:induction false} NoMids(b: seq<byte>, p: nat, tracks: Tracks)
    ensures MidNodes([]) == [] && BoxesAt([], p) == [] && WalkTrafs(b, [], tracks) == Ok([])
    ensures Planned(SaysMids([], tracks), PlanMids([], p, tracks)) == Ok([])
  {
  }

  /** One box of a moof in the record. */
  lemma {:induction false} MidsStep(mids: seq<Mid>, p: nat, tracks: Tracks, rest: Result<seq<Traf>, Error>)
    requires mids != []
    requires var q := p + |NodeBytes(MidNode(mids[0]))|;
      rest == Planned(SaysMids(mids[1..], tracks), PlanMids(mids[1..], q, tracks))
    ensures var x := MidNode(mids[0]);
      Planned(SaysMids(mids, tracks), PlanMids(mids, p, tracks)) ==
      if !mids[0].TrafBox? then rest
      else match SaysTraf(mids[0].parts, tracks)
           case Err(e) => Err(e)
           case Ok(s) => Behind([TrafOf(s, TimeBox(mids[0].parts, BodyAt(x, p)))], rest)
  {
    hide NodeBytes, HeadBytes, MidNode, SaysTraf, TimeBox, TrafOf;
    var tail := PlanMids(mids[1..], p + |NodeBytes(MidNode(mids[0]))|, tracks);
    assert [] + tail == tail;
  }

  lemma {:induction false} RestOfTops(tops: seq<Top>)
    requires GoodSegment(tops) && tops != []
    ensures GoodSegment(tops[1..]) && GoodTop(tops[0])
    ensures TopNodes(tops)[1..] == TopNodes(tops[1..])
  {
    hide TopNode, GoodTop;
    RestIsListed(TopNodes(tops));
    assert TopNodes(tops)[1..] == TopNodes(tops[1..]);
    assert tops[0] in tops;
  }

  lemma {:induction false} FirstTop(b: seq<byte>, p: nat, end: nat, tops: seq<Top>)
    requires p <= end <= |b| && b[p..end] == Concat(TopNodes(tops)) && GoodSegment(tops) && tops != []
    ensures var x := TopNode(tops[0]);
      && p + |NodeBytes(x)| <= end && b[p + |NodeBytes(x)|..end] == Concat(TopNodes(tops[1..]))
      && Located(b, BoxOf(x, p), x)
      && BoxesAt(TopNodes(tops), p) == [BoxOf(x, p)] + BoxesAt(TopNodes(tops[1..]), p + |NodeBytes(x)|)
  {
    RestOfTops(tops);
    var xs := TopNodes(tops);
    BoxesAreLocated(b, p, end, xs, 0);
    TwoParts(b, p, end, NodeBytes(xs[0]), Concat(xs[1..]));
    hide TopNode, NodeBytes, HeadBytes, Located, GoodSegment;
  }

  lemma {:induction false} MoofStep(b: seq<byte>, x: Box, top: seq<Box>, tracks: Tracks)
    requires Fit(b, [x] + top)
    ensures Fit(b, top) && Body(x) <= End(x) <= |b|
    ensures WalkMoofs(b, [x] + top, tracks) ==
      if x.typ != MOOF then WalkMoofs(b, top, tracks)
      else match WalkMoof(b, x, tracks)
           case Err(e) => Err(e)
           case Ok(tfs) => Behind(tfs, WalkMoofs(b, top, tracks))
  {
    FitsRest(b, x, top);
    hide WalkMoof, MOOF;
  }

  lemma {:induction false} TopIsWalked(b: seq<byte>, p: nat, x: Top, tracks: Tracks)
    requires GoodTop(x) && Located(b, BoxOf(TopNode(x), p), TopNode(x))
    ensures BoxOf(TopNode(x), p).typ == MOOF <==> x.MoofBox?
    ensures x.MoofBox? ==>
      var k := BoxOf(TopNode(x), p);
      && Body(k) == BodyAt(TopNode(x), p) && Body(k) <= End(k) <= |b|
      && WalkMoof(b, k, tracks) == Planned(SaysMids(x.mids, tracks), PlanMids(x.mids, Body(k), tracks))
  {
    hide SaysMids, PlanMids, Concat, HeadBytes, MOOF, Planned, Children, WalkTrafs, MidNodes;
    if x.MoofBox? {
      var k := BoxOf(TopNode(x), p);
      ChildrenOf(b, Body(k), End(k), MidNodes(x.mids));
      MidsAreWalked(b, Body(k), End(k), x.mids, tracks);
    }
  }

  lemma {:induction false} TopsAreWalked(b: seq<byte>, p: nat, end: nat, tops: seq<Top>, tracks: Tracks)
    requires p <= end <= |b| && b[p..end] == Concat(TopNodes(tops)) && GoodSegment(tops)
    ensures Fit(b, BoxesAt(TopNodes(tops), p))
    ensures WalkMoofs(b, BoxesAt(TopNodes(tops), p), tracks)
         == Planned(SaysTops(tops, tracks), PlanTops(tops, p, tracks))
    decreases |tops|
  {
    hide *;
    BoxesFit(b, p, end, TopNodes(tops));
    if tops == [] {
      NoTops(b, p, tracks);
    } else {
      var x := TopNode(tops[0]);
      var q := p + |NodeBytes(x)|;
      FirstTop(b, p, end, tops);
      RestOfTops(tops);
      TopsAreWalked(b, q, end, tops[1..], tracks);
      TopIsWalked(b, p, tops[0], tracks);
      MoofStep(b, BoxOf(x, p), BoxesAt(TopNodes(tops[1..]), q), tracks);
      TopsStep(tops, p, tracks, WalkMoofs(b, BoxesAt(TopNodes(tops[1..]), q), tracks));
    }
  }

  lemma {:induction false} NoTops(b: seq<byte>, p: nat, tracks: Tracks)
    ensures TopNodes([]) == [] && BoxesAt([], p) == [] && WalkMoofs(b, [], tracks) == Ok([])
    ensures Planned(SaysTops([], tracks), PlanTops([], p, tracks)) == Ok([])
  {
  }

  /** One box of a segment in the record. */
  lemma {:induction false} TopsStep(tops: seq<Top>, p: nat, tracks: Tracks, rest: Result<seq<Traf>, Error>)
    requires tops != []
    requires var q := p + |NodeBytes(TopNode(tops[0]))|;
      rest == Planned(SaysTops(tops[1..], tracks), PlanTops(tops[1..], q, tracks))
    ensures var x := TopNode(tops[0]);
      Planned(SaysTops(tops, tracks), PlanTops(tops, p, tracks)) ==
      if !tops[0].MoofBox? then rest
      else match Planned(SaysMids(tops[0].mids, tracks), PlanMids(tops[0].mids, BodyAt(x, p), tracks))
           case Err(e) => Err(e)
           case Ok(tfs) => Behind(tfs, rest)
  {
    hide NodeBytes, HeadBytes, TopNode, SaysMids, PlanMids;
    var tail := PlanTops(tops[1..], p + |NodeBytes(TopNode(tops[0]))|, tracks);
    assert [] + tail == tail;
  }

  lemma {:induction false} AsManyMids(mids: seq<Mid>, p: nat, tracks: Tracks)
    requires SaysMids(mids, tracks).Ok?
    ensures |PlanMids(mids, p, tracks)| == |SaysMids(mids, tracks).value|
  {
    hide NodeBytes, HeadBytes, MidNode, TimeBox, SaysTraf;
    if mids != [] { AsManyMids(mids[1..], p + |NodeBytes(MidNode(mids[0]))|, tracks); }
  }

  lemma {:induction false} AsManyTops(tops: seq<Top>, p: nat, tracks: Tracks)
    requires SaysTops(tops, tracks).Ok?
    ensures |PlanTops(tops, p, tracks)| == |SaysTops(tops, tracks).value|
  {
    hide NodeBytes, HeadBytes, TopNode, SaysMids, PlanMids;
    if tops != [] {
      AsManyTops(tops[1..], p + |NodeBytes(TopNode(tops[0]))|, tracks);
      if tops[0].MoofBox? { AsManyMids(tops[0].mids, BodyAt(TopNode(tops[0]), p), tracks); }
    }
  }

  /** A written segment is walked to exactly what its record says, or refused for the reason that the record shows. */
  lemma {:induction false} SegmentIsWalked(tops: seq<Top>, tracks: Tracks)
    requires GoodSegment(tops)
    ensures Walk(Written(tops), tracks) == Planned(Says(tops, tracks), PlanTops(tops, 0, tracks))
  {
    var b := Written(tops);
    assert b[0..|b|] == b;
    ChildrenOf(b, 0, |b|, TopNodes(tops));
    TopsAreWalked(b, 0, |b|, tops, tracks);
    hide SaysTops, PlanTops, Children, WalkMoofs, TopNodes, Written, BoxesAt;
    if SaysTops(tops, tracks).Ok? { AsManyTops(tops, 0, tracks); }
  }
}
