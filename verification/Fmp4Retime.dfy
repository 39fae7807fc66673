/**
 What the move of a segment keeps. A parser that runs over the end of a short box meets
 the header of the next one, and no header is ever rewritten; only the default duration
 that a short tfhd announces can lie inside a decode time. So a segment is parsed the same
 way before and after, but for the durations that such a default decides.
 */
module Fmp4Retime {
  import opened Common
  import opened Bytes
  import opened Fmp4

  // ----- boxes stand one behind the other -----

  predicate Apart(xs: seq<Box>) {
    forall i, j :: 0 <= i < j < |xs| ==> End(xs[i]) <= xs[j].start
  }

  lemma {:induction false} ChildrenApart(b: seq<byte>, p: nat, end: nat)
    requires p <= end <= |b| && Children(b, p, end).Ok?
    ensures Apart(Children(b, p, end).value)
    decreases end - p
  {
    if p < end {
      var x := HeaderAt(b, p, end).value;
      ChildrenApart(b, End(x), end);
    }
  }

  /** Boxes fill the range they are parsed from, one right behind the other. */
  predicate Tiled(xs: seq<Box>, p: nat, end: nat) {
    if xs == [] then p == end
    else
      && xs[0].start == p && End(xs[|xs| - 1]) == end
      && forall i :: 0 <= i < |xs| - 1 ==> xs[i + 1].start == End(xs[i])
  }

  lemma {:induction false} ChildrenTiled(b: seq<byte>, p: nat, end: nat)
    requires p <= end <= |b| && Children(b, p, end).Ok?
    ensures Tiled(Children(b, p, end).value, p, end)
    decreases end - p
  {
    if p < end {
      var x := HeaderAt(b, p, end).value;
      ChildrenTiled(b, End(x), end);
      var rest := Children(b, End(x), end).value;
      assert Children(b, p, end).value == [x] + rest;
      hide Children, HeaderAt;
    }
  }

  // ----- the parser sees only the bytes it reads -----

  /** a and b agree from lo to hi. */
  predicate Same(a: seq<byte>, b: seq<byte>, lo: nat, hi: nat) {
    |a| == |b| && forall i :: lo <= i < hi && i < |a| ==> a[i] == b[i]
  }

  predicate SameHeaders(a: seq<byte>, b: seq<byte>, xs: seq<Box>) {
    |a| == |b| && forall k :: 0 <= k < |xs| ==> Same(a, b, xs[k].start, Body(xs[k]))
  }

  lemma {:induction false} SameSlice(a: seq<byte>, b: seq<byte>, lo: nat, hi: nat, p: nat, n: nat)
    requires Same(a, b, lo, hi) && lo <= p && p + n <= hi && p + n <= |a|
    ensures a[p..p + n] == b[p..p + n]
  {
  }

  lemma {:induction false} HeaderSame(a: seq<byte>, b: seq<byte>, p: nat, end: nat)
    requires p < end <= |a| && HeaderAt(a, p, end).Ok?
    requires Same(a, b, p, Body(HeaderAt(a, p, end).value))
    ensures HeaderAt(b, p, end) == HeaderAt(a, p, end)
  {
    var x := HeaderAt(a, p, end).value;
    SameSlice(a, b, p, Body(x), p, 4);
    SameSlice(a, b, p, Body(x), p + 4, 4);
    if x.hdr == 16 {
      SameSlice(a, b, p, Body(x), p + 8, 8);
    }
  }

  lemma {:induction false} ChildrenSame(a: seq<byte>, b: seq<byte>, p: nat, end: nat)
    requires p <= end <= |a| && Children(a, p, end).Ok? && SameHeaders(a, b, Children(a, p, end).value)
    ensures Children(b, p, end) == Children(a, p, end)
    decreases end - p
  {
    if p < end {
      var xs := Children(a, p, end).value;
      var x := HeaderAt(a, p, end).value;
      var rest := Children(a, End(x), end).value;
      assert xs == [x] + rest && xs[0] == x;
      HeaderSame(a, b, p, end);
      assert SameHeaders(a, b, rest) by {
        forall k | 0 <= k < |rest|
          ensures Same(a, b, rest[k].start, Body(rest[k]))
        {
          assert xs[k + 1] == rest[k];
        }
      }
      ChildrenSame(a, b, End(x), end);
    }
  }

  // ----- the boxes of a traf -----

  lemma {:induction false} Read32Same(a: seq<byte>, b: seq<byte>, lo: nat, hi: nat, p: nat)
    requires Same(a, b, lo, hi) && lo <= p && p + 4 <= hi
    ensures Read32(a, p) == Read32(b, p)
  {
    if p + 4 <= |a| {
      SameSlice(a, b, lo, hi, p, 4);
    }
  }

  /** Where the tfhd announces its default duration to be, if it announces one. */
  function DefaultField(b: seq<byte>, x: Box): Option<nat> {
    match Read32(b, Body(x))
    case Err(_) => None
    case Ok(word) =>
      var flags := word % 0x100_0000;
      if Flag(flags, 0x8) then Some(DefaultDurationAt(x, flags)) else None
  }

  /** The track and the place of the default are read from the first eight bytes. */
  lemma {:induction false} TfhdSame(a: seq<byte>, b: seq<byte>, x: Box, tracks: Tracks)
    requires Same(a, b, Body(x), Body(x) + 8) && ReadTfhd(a, x, tracks).Ok?
    ensures DefaultField(b, x) == DefaultField(a, x)
    ensures ReadTfhd(b, x, tracks).Ok? && ReadTfhd(b, x, tracks).value.0 == ReadTfhd(a, x, tracks).value.0
    ensures match DefaultField(a, x)
      case None => ReadTfhd(b, x, tracks) == ReadTfhd(a, x, tracks)
      case Some(p) =>
        && p + 4 <= |a|
        && ReadTfhd(a, x, tracks).value.1 == U32(a, p) && ReadTfhd(b, x, tracks).value.1 == U32(b, p)
  {
    Read32Same(a, b, Body(x), Body(x) + 8, Body(x));
    Read32Same(a, b, Body(x), Body(x) + 8, Body(x) + 4);
    hide U32, Flag;
  }

  lemma {:induction false} SampleSumSame(a: seq<byte>, b: seq<byte>, lo: nat, hi: nat, p: nat, per: nat, n: nat)
    requires Same(a, b, lo, hi) && lo <= p && p + n * per <= hi && p + n * per <= |a| && 4 <= per
    ensures SampleSum(b, p, per, n) == SampleSum(a, p, per, n)
  {
    if n != 0 {
      MulStep(n, per);
      SampleSumSame(a, b, lo, hi, p, per, n - 1);
      SameSlice(a, b, lo, hi, p + (n - 1) * per, 4);
    }
  }

  lemma {:induction false} TrunSame(a: seq<byte>, b: seq<byte>, k: Box, defDur: nat)
    requires Body(k) <= End(k) <= |a| && Same(a, b, Body(k), Body(k) + 8) && Same(a, b, Body(k), End(k))
    ensures TrunDuration(b, k, defDur) == TrunDuration(a, k, defDur)
  {
    Read32Same(a, b, Body(k), Body(k) + 8, Body(k));
    Read32Same(a, b, Body(k), Body(k) + 8, Body(k) + 4);
    if Body(k) + 8 <= |a| {
      var flags, count := U32(a, Body(k)) % 0x100_0000, U32(a, Body(k) + 4);
      var p, per := SamplesAt(k, flags), SampleBytes(flags);
      if Flag(flags, 0x100) && p + count * per <= End(k) {
        SampleSumSame(a, b, Body(k), End(k), p, per, count);
      }
    }
  }

  /** What is read from a tfhd or a trun before its default or its samples is the same in a and b, and so are its
      samples. */
  predicate KidSame(a: seq<byte>, b: seq<byte>, x: Box) {
    x.typ == TFHD || x.typ == TRUN ==> Same(a, b, Body(x), Body(x) + 8) && Same(a, b, Body(x), End(x))
  }

  predicate KidsSame(a: seq<byte>, b: seq<byte>, kids: seq<Box>) {
    forall k :: 0 <= k < |kids| ==> KidSame(a, b, kids[k])
  }

  lemma {:induction false} TrunsSame(a: seq<byte>, b: seq<byte>, kids: seq<Box>, defDur: nat)
    requires |a| == |b| && Fit(a, kids) && KidsSame(a, b, kids)
    ensures TrunsDuration(b, kids, defDur) == TrunsDuration(a, kids, defDur)
  {
    hide TrunDuration;
    if kids != [] {
      var k := |kids| - 1;
      var rest := kids[..k];
      assert Fit(b, kids) && Fit(a, rest) && Fit(b, rest) && KidsSame(a, b, rest);
      TrunsSame(a, b, rest, defDur);
      assert KidSame(a, b, kids[k]);
      if kids[k].typ == TRUN { TrunSame(a, b, kids[k], defDur); }
    }
  }

  lemma {:induction false} FindIndex(xs: seq<Box>, typ: seq<byte>) returns (d: nat)
    requires Find(xs, typ).Some?
    ensures d < |xs| && xs[d] == Find(xs, typ).value
  {
    if xs[0].typ == typ {
      d := 0;
    } else {
      d := FindIndex(xs[1..], typ);
      d := d + 1;
    }
  }

  /** What the parser makes of the boxes of a traf. */
  lemma {:induction false} ParsedAs(b: seq<byte>, t: Box, tracks: Tracks, kids: seq<Box>)
    requires Body(t) <= End(t) <= |b| && Children(b, Body(t), End(t)) == Ok(kids) && Fit(b, kids)
    ensures ParseTraf(b, t, tracks).Ok? <==>
      && Find(kids, TFHD).Some? && ReadTfhd(b, Find(kids, TFHD).value, tracks).Ok?
      && Find(kids, TFDT).Some? && Body(Find(kids, TFDT).value) < |b|
      && TrunsDuration(b, kids, ReadTfhd(b, Find(kids, TFHD).value, tracks).value.1).Ok?
    ensures ParseTraf(b, t, tracks).Ok? ==>
      var tfdt, head := Find(kids, TFDT).value, ReadTfhd(b, Find(kids, TFHD).value, tracks).value;
      ParseTraf(b, t, tracks).value == Traf(head.0, tfdt, b[Body(tfdt)], TrunsDuration(b, kids, head.1).value)
  {
    hide Children, Find, ReadTfhd, TrunsDuration;
  }

  lemma {:induction false} KidsFit(b: seq<byte>, t: Box, kids: seq<Box>)
    requires Body(t) <= End(t) <= |b| && Children(b, Body(t), End(t)) == Ok(kids)
    ensures Fit(b, kids)
  {
    assert forall i :: 0 <= i < |kids| ==> kids[i] in kids;
  }

  // ----- what a default duration decides -----

  predicate HasOwnDurations(b: seq<byte>, k: Box) {
    Body(k) + 4 <= |b| && Flag(U32(b, Body(k)) % 0x100_0000, 0x100)
  }

  /** Some trun of the traf has no durations of its own. */
  predicate UsesDefault(b: seq<byte>, kids: seq<Box>) {
    exists k :: 0 <= k < |kids| && kids[k].typ == TRUN && !HasOwnDurations(b, kids[k])
  }

  function CountAt(b: seq<byte>, k: Box): nat { if Body(k) + 8 <= |b| then U32(b, Body(k) + 4) else 0 }

  /** The samples that last as long as the default. */
  function DefaultSamples(b: seq<byte>, kids: seq<Box>): nat {
    if kids == [] then 0
    else
      var k := kids[|kids| - 1];
      DefaultSamples(b, kids[..|kids| - 1]) + if k.typ == TRUN && !HasOwnDurations(b, k) then CountAt(b, k) else 0
  }

  lemma {:induction false} UsesDefaultStep(b: seq<byte>, kids: seq<Box>)
    requires kids != []
    ensures var k := kids[|kids| - 1];
      UsesDefault(b, kids) <==> UsesDefault(b, kids[..|kids| - 1]) || (k.typ == TRUN && !HasOwnDurations(b, k))
  {
    hide HasOwnDurations;
    var n := |kids| - 1;
    if UsesDefault(b, kids) {
      var i :| 0 <= i < |kids| && kids[i].typ == TRUN && !HasOwnDurations(b, kids[i]);
      if i < n { assert kids[..n][i] == kids[i]; }
    }
    if UsesDefault(b, kids[..n]) {
      var i :| 0 <= i < n && kids[..n][i].typ == TRUN && !HasOwnDurations(b, kids[..n][i]);
      assert kids[i] == kids[..n][i];
    }
  }

  function Times(n: nat, d: nat): nat { n * d }

  lemma {:induction false} TimesAdd(m: nat, n: nat, d: nat)
    ensures Times(m + n, d) == Times(m, d) + Times(n, d)
  {
  }

  /** One trun under two defaults. */
  lemma {:induction false} TrunOfDefault(b: seq<byte>, k: Box, d: nat, d': nat)
    requires Body(k) <= End(k) <= |b| && TrunDuration(b, k, d).Ok?
    ensures if HasOwnDurations(b, k) then TrunDuration(b, k, d') == TrunDuration(b, k, d)
      else d != 0 && TrunDuration(b, k, d) == Ok(Times(CountAt(b, k), d) % B64)
           && TrunDuration(b, k, d') == if d' == 0 then Err(NoDuration) else Ok(Times(CountAt(b, k), d') % B64)
  {
    hide U32, Flag, SampleSum;
  }

  /** The durations of all truns: a part of their own and the samples that last as long as the default. */
  lemma {:induction false} TrunsOfDefault(b: seq<byte>, kids: seq<Box>, d: nat, d': nat) returns (own: nat)
    requires Fit(b, kids) && TrunsDuration(b, kids, d).Ok?
    ensures TrunsDuration(b, kids, d) == Ok((own + Times(DefaultSamples(b, kids), d)) % B64)
    ensures UsesDefault(b, kids) ==> d != 0
    ensures TrunsDuration(b, kids, d')
         == if UsesDefault(b, kids) && d' == 0 then Err(NoDuration)
            else Ok((own + Times(DefaultSamples(b, kids), d')) % B64)
  {
    hide TrunDuration, Times, HasOwnDurations, CountAt, UsesDefault;
    if kids == [] {
      own := 0;
      NoSamples(b, d);
      NoSamples(b, d');
    } else {
      var n := |kids| - 1;
      var k, rest := kids[n], kids[..n];
      own := TrunsOfDefault(b, rest, d, d');
      UsesDefaultStep(b, kids);
      if k.typ == TRUN {
        TrunOfDefault(b, k, d, d');
        var m := DefaultSamples(b, rest);
        if HasOwnDurations(b, k) {
          var x := TrunDuration(b, k, d).value;
          OwnMore(own, Times(m, d), x);
          OwnMore(own, Times(m, d'), x);
          own := own + x;
        } else {
          TimesAdd(m, CountAt(b, k), d);
          TimesAdd(m, CountAt(b, k), d');
          DefaultMore(own, Times(m, d), Times(CountAt(b, k), d));
          DefaultMore(own, Times(m, d'), Times(CountAt(b, k), d'));
        }
      }
    }
  }

  lemma {:induction false} NoSamples(b: seq<byte>, d: nat)
    ensures Times(DefaultSamples(b, []), d) == 0 && !UsesDefault(b, [])
  {
  }

  lemma {:induction false} OwnMore(own: nat, x: nat, y: nat)
    ensures ((own + x) % B64 + y) % B64 == (own + y + x) % B64
  {
  }

  lemma {:induction false} DefaultMore(own: nat, x: nat, y: nat)
    ensures ((own + x) % B64 + y % B64) % B64 == (own + (x + y)) % B64
  {
  }

  /** Two defaults make the same durations exactly when no sample uses them, or their samples last as long modulo
      2^64. */
  predicate SameLength(n: nat, d: nat, d': nat) { d' != 0 && Times(n, d') % B64 == Times(n, d) % B64 }

  lemma {:induction false} SumSame(own: nat, x: nat, x': nat)
    ensures (own + x) % B64 == (own + x') % B64 <==> x % B64 == x' % B64
  {
  }

  lemma {:induction false} TrunsSameIff(b: seq<byte>, kids: seq<Box>, d: nat, d': nat)
    requires Fit(b, kids) && TrunsDuration(b, kids, d).Ok?
    ensures TrunsDuration(b, kids, d') == TrunsDuration(b, kids, d)
      <==> !UsesDefault(b, kids) || SameLength(DefaultSamples(b, kids), d, d')
  {
    hide TrunsDuration, UsesDefault, Times, DefaultSamples;
    var own := TrunsOfDefault(b, kids, d, d');
    var n := DefaultSamples(b, kids);
    SumSame(own, Times(n, d), Times(n, d'));
    if !UsesDefault(b, kids) { NoneUsesDefault(b, kids, d, d'); }
  }

  lemma {:induction false} NoneUsesDefault(b: seq<byte>, kids: seq<Box>, d: nat, d': nat)
    requires !UsesDefault(b, kids)
    ensures Times(DefaultSamples(b, kids), d) == Times(DefaultSamples(b, kids), d') == 0
  {
    NoneCounted(b, kids);
    hide UsesDefault, DefaultSamples;
  }

  lemma {:induction false} NoneCounted(b: seq<byte>, kids: seq<Box>)
    requires !UsesDefault(b, kids)
    ensures DefaultSamples(b, kids) == 0
  {
    hide HasOwnDurations, UsesDefault, CountAt;
    if kids != [] {
      UsesDefaultStep(b, kids);
      NoneCounted(b, kids[..|kids| - 1]);
    }
  }

  // ----- one track fragment -----

  /** The boxes inside a box, none when they cannot be parsed. */
  function Kids(b: seq<byte>, m: Box): (r: seq<Box>)
    requires Body(m) <= End(m) <= |b|
    ensures Fit(b, r) && forall i :: 0 <= i < |r| ==> Body(m) <= r[i].start && End(r[i]) <= End(m)
  {
    var r := Children(b, Body(m), End(m));
    if r.Err? then []
    else
      assert forall i :: 0 <= i < |r.value| ==> r.value[i] in r.value;
      r.value
  }

  /** The default duration as the parser reads it for a traf. */
  function TrafDefault(b: seq<byte>, t: Box, tracks: Tracks): Option<nat>
    requires Body(t) <= End(t) <= |b|
  {
    match Find(Kids(b, t), TFHD)
    case None => None
    case Some(x) =>
      match ReadTfhd(b, x, tracks)
      case Err(_) => None
      case Ok(r) => Some(r.1)
  }

  /** Where the default duration of a traf is announced to be. */
  function DefaultAt(b: seq<byte>, t: Box): Option<nat>
    requires Body(t) <= End(t) <= |b|
  {
    match Find(Kids(b, t), TFHD)
    case None => None
    case Some(x) => DefaultField(b, x)
  }

  /** The default of b makes the same durations as that of a. */
  predicate DurationKept(a: seq<byte>, b: seq<byte>, t: Box, tracks: Tracks)
    requires Body(t) <= End(t) <= |a| == |b|
  {
    var d, d' := TrafDefault(a, t, tracks), TrafDefault(b, t, tracks);
    !UsesDefault(a, Kids(a, t)) || (d.Some? && d'.Some? && SameLength(DefaultSamples(a, Kids(a, t)), d.value, d'.value))
  }

  /** All that is read from a traf is the same in a and b, but for its decode time and perhaps its default duration. */
  predicate Undisturbed(a: seq<byte>, b: seq<byte>, t: Box, tracks: Tracks)
    requires Body(t) <= End(t) <= |a|
  {
    && |a| == |b| && ParseTraf(a, t, tracks).Ok?
    && SameHeaders(a, b, Kids(a, t)) && KidsSame(a, b, Kids(a, t))
    && Same(a, b, Body(ParseTraf(a, t, tracks).value.tfdt), Body(ParseTraf(a, t, tracks).value.tfdt) + 1)
  }

  /** A traf is parsed the same way exactly when its default keeps its durations. */
  lemma {:induction false} TrafSameIff(a: seq<byte>, b: seq<byte>, t: Box, tracks: Tracks)
    requires Body(t) <= End(t) <= |a| && Undisturbed(a, b, t, tracks)
    ensures Kids(b, t) == Kids(a, t) && DefaultAt(b, t) == DefaultAt(a, t)
    ensures ParseTraf(b, t, tracks) == ParseTraf(a, t, tracks) <==> DurationKept(a, b, t, tracks)
    ensures match DefaultAt(a, t)
      case None => TrafDefault(b, t, tracks) == TrafDefault(a, t, tracks)
      case Some(p) =>
        && p + 4 <= |a|
        && TrafDefault(a, t, tracks) == Some(U32(a, p)) && TrafDefault(b, t, tracks) == Some(U32(b, p))
    ensures TrafDefault(a, t, tracks).Some? && (UsesDefault(a, Kids(a, t)) ==> TrafDefault(a, t, tracks).value != 0)
  {
    var kids := Kids(a, t);
    assert Children(a, Body(t), End(t)) == Ok(kids);
    ChildrenSame(a, b, Body(t), End(t));
    KidsFit(a, t, kids);
    KidsFit(b, t, kids);
    hide Children, Find, ReadTfhd, TrunsDuration, ParseTraf, Fit, UsesDefault, DefaultSamples, SameLength, KidSame,
         U32, DefaultField;
    ParsedAs(a, t, tracks, kids);
    ParsedAs(b, t, tracks, kids);
    var h := FindIndex(kids, TFHD);
    HeadSame(a, b, kids, h);
    TfhdSame(a, b, kids[h], tracks);
    var d, d' := ReadTfhd(a, kids[h], tracks).value.1, ReadTfhd(b, kids[h], tracks).value.1;
    TrunsSame(a, b, kids, d');
    TrunsSameIff(a, kids, d, d');
    var own := TrunsOfDefault(a, kids, d, d');
  }

  /** A default that is used must not be zero. */
  predicate DefaultUsable(a: seq<byte>, b: seq<byte>, t: Box, tracks: Tracks)
    requires Body(t) <= End(t) <= |a| == |b|
  {
    UsesDefault(a, Kids(a, t)) ==> TrafDefault(b, t, tracks) != Some(0)
  }

  predicate SameTime(x: Traf, y: Traf) { x.track == y.track && x.tfdt == y.tfdt && x.version == y.version }

  /** Whatever its durations become, a traf whose default is not zero keeps its track and decode time field. */
  lemma {:induction false} TrafStillParses(a: seq<byte>, b: seq<byte>, t: Box, tracks: Tracks)
    requires Body(t) <= End(t) <= |a| && Undisturbed(a, b, t, tracks)
    ensures ParseTraf(b, t, tracks).Ok? <==> DefaultUsable(a, b, t, tracks)
    ensures ParseTraf(b, t, tracks).Ok? ==> SameTime(ParseTraf(a, t, tracks).value, ParseTraf(b, t, tracks).value)
  {
    var kids := Kids(a, t);
    assert Children(a, Body(t), End(t)) == Ok(kids);
    ChildrenSame(a, b, Body(t), End(t));
    KidsFit(a, t, kids);
    KidsFit(b, t, kids);
    hide Children, Find, ReadTfhd, TrunsDuration, ParseTraf, Fit, UsesDefault, DefaultSamples, KidSame, U32,
         DefaultField;
    ParsedAs(a, t, tracks, kids);
    ParsedAs(b, t, tracks, kids);
    var h := FindIndex(kids, TFHD);
    HeadSame(a, b, kids, h);
    TfhdSame(a, b, kids[h], tracks);
    var d, d' := ReadTfhd(a, kids[h], tracks).value.1, ReadTfhd(b, kids[h], tracks).value.1;
    TrunsSame(a, b, kids, d');
    var own := TrunsOfDefault(a, kids, d, d');
  }

  lemma {:induction false} HeadSame(a: seq<byte>, b: seq<byte>, kids: seq<Box>, h: nat)
    requires KidsSame(a, b, kids) && h < |kids| && kids[h].typ == TFHD
    ensures Same(a, b, Body(kids[h]), Body(kids[h]) + 8)
  {
    assert KidSame(a, b, kids[h]);
  }

  // ----- the trafs of a segment -----

  /** The boxes of a segment, none when they cannot be parsed. */
  function Top(b: seq<byte>): (r: seq<Box>)
    ensures Fit(b, r)
  {
    var r := Children(b, 0, |b|);
    if r.Err? then []
    else
      assert forall i :: 0 <= i < |r.value| ==> r.value[i] in r.value;
      r.value
  }

  function TrafsOf(kids: seq<Box>): seq<Box> {
    if kids == [] then [] else (if kids[0].typ == TRAF then [kids[0]] else []) + TrafsOf(kids[1..])
  }

  /** The traf boxes of all moofs, in order. */
  function TrafBoxes(b: seq<byte>, top: seq<Box>): seq<Box>
    requires Fit(b, top)
  {
    if top == [] then []
    else (if top[0].typ == MOOF then TrafsOf(Kids(b, top[0])) else []) + TrafBoxes(b, top[1..])
  }

  function ParseAll(b: seq<byte>, ts: seq<Box>, tracks: Tracks): Result<seq<Traf>, Error>
    requires Fit(b, ts)
  {
    if ts == [] then Ok([])
    else
      match ParseTraf(b, ts[0], tracks)
      case Err(e) => Err(e)
      case Ok(tf) => Behind([tf], ParseAll(b, ts[1..], tracks))
  }

  lemma {:induction false} TrafsOfMember(kids: seq<Box>, t: Box) returns (k: nat)
    requires t in TrafsOf(kids)
    ensures k < |kids| && kids[k] == t && t.typ == TRAF
  {
    if kids[0].typ == TRAF && kids[0] == t {
      k := 0;
    } else {
      k := TrafsOfMember(kids[1..], t);
      k := k + 1;
    }
  }

  lemma {:induction false} TrafsOfHas(kids: seq<Box>, k: nat)
    requires k < |kids| && kids[k].typ == TRAF
    ensures kids[k] in TrafsOf(kids)
  {
    if k > 0 { TrafsOfHas(kids[1..], k - 1); }
  }

  /** The moof and the place of a traf in it. */
  lemma {:induction false} TrafBoxMember(b: seq<byte>, top: seq<Box>, t: Box) returns (m: nat, k: nat)
    requires Fit(b, top) && t in TrafBoxes(b, top)
    ensures m < |top| && top[m].typ == MOOF && k < |Kids(b, top[m])| && Kids(b, top[m])[k] == t && t.typ == TRAF
  {
    hide Kids;
    if top[0].typ == MOOF && t in TrafsOf(Kids(b, top[0])) {
      m := 0;
      k := TrafsOfMember(Kids(b, top[0]), t);
    } else {
      m, k := TrafBoxMember(b, top[1..], t);
      m := m + 1;
    }
  }

  lemma {:induction false} TrafBoxesFit(b: seq<byte>, top: seq<Box>)
    requires Fit(b, top)
    ensures Fit(b, TrafBoxes(b, top))
  {
    var ts := TrafBoxes(b, top);
    forall i | 0 <= i < |ts| ensures Body(ts[i]) <= End(ts[i]) <= |b| {
      var m, k := TrafBoxMember(b, top, ts[i]);
    }
  }

  lemma {:induction false} TrafsOfFit(b: seq<byte>, kids: seq<Box>)
    requires Fit(b, kids)
    ensures Fit(b, TrafsOf(kids))
  {
    var ts := TrafsOf(kids);
    forall i | 0 <= i < |ts| ensures Body(ts[i]) <= End(ts[i]) <= |b| {
      var k := TrafsOfMember(kids, ts[i]);
    }
  }

  function Trafs(b: seq<byte>): (ts: seq<Box>)
    ensures Fit(b, ts)
  {
    TrafBoxesFit(b, Top(b));
    TrafBoxes(b, Top(b))
  }

  // ----- the walk parses them one by one -----

  lemma {:induction false} BehindOk<T>(r: Result<seq<T>, Error>)
    ensures Behind([], r) == r
  {
    if r.Ok? { assert [] + r.value == r.value; }
  }

  lemma {:induction false} ParseConcat(b: seq<byte>, x: seq<Box>, y: seq<Box>, tracks: Tracks)
    requires Fit(b, x) && Fit(b, y) && Fit(b, x + y)
    ensures ParseAll(b, x + y, tracks) ==
      match ParseAll(b, x, tracks)
      case Err(e) => Err(e)
      case Ok(p) => Behind(p, ParseAll(b, y, tracks))
  {
    hide ParseTraf;
    if x == [] {
      assert x + y == y;
      BehindOk(ParseAll(b, y, tracks));
    } else {
      assert (x + y)[1..] == x[1..] + y;
      assert Fit(b, x[1..]) && Fit(b, x[1..] + y);
      ParseConcat(b, x[1..], y, tracks);
      if ParseTraf(b, x[0], tracks).Ok? && ParseAll(b, x[1..], tracks).Ok? {
        var tf, p, r := ParseTraf(b, x[0], tracks).value, ParseAll(b, x[1..], tracks).value, ParseAll(b, y, tracks);
        if r.Ok? { assert [tf] + (p + r.value) == [tf] + p + r.value; }
      }
    }
  }

  lemma {:induction false} WalkTrafsParses(b: seq<byte>, kids: seq<Box>, tracks: Tracks)
    requires Fit(b, kids) && Fit(b, TrafsOf(kids))
    ensures WalkTrafs(b, kids, tracks) == ParseAll(b, TrafsOf(kids), tracks)
  {
    hide ParseTraf;
    if kids != [] {
      var rest := TrafsOf(kids[1..]);
      TrafsOfFit(b, kids[1..]);
      WalkTrafsParses(b, kids[1..], tracks);
      if kids[0].typ == TRAF {
        assert TrafsOf(kids)[1..] == rest;
      } else {
        assert TrafsOf(kids) == rest;
      }
    }
  }

  predicate MoofsParse(b: seq<byte>, top: seq<Box>)
    requires Fit(b, top)
  {
    forall m :: 0 <= m < |top| && top[m].typ == MOOF ==> Children(b, Body(top[m]), End(top[m])).Ok?
  }

  lemma {:induction false} WalkedMoofsParse(b: seq<byte>, top: seq<Box>, tracks: Tracks)
    requires Fit(b, top) && WalkMoofs(b, top, tracks).Ok?
    ensures MoofsParse(b, top)
  {
    hide Children, WalkTrafs;
    if top != [] {
      WalkedMoofsParse(b, top[1..], tracks);
      forall m | 0 <= m < |top| && top[m].typ == MOOF ensures Children(b, Body(top[m]), End(top[m])).Ok? {
        if m > 0 { assert top[1..][m - 1] == top[m]; }
      }
    }
  }

  lemma {:induction false} WalkMoofsParses(b: seq<byte>, top: seq<Box>, tracks: Tracks)
    requires Fit(b, top) && MoofsParse(b, top) && Fit(b, TrafBoxes(b, top))
    ensures WalkMoofs(b, top, tracks) == ParseAll(b, TrafBoxes(b, top), tracks)
  {
    hide ParseTraf, Children, WalkTrafs, ParseAll;
    if top == [] {
      assert ParseAll(b, [], tracks) == Ok([]) by { NothingParsed(b, tracks); }
    } else {
      var rest := TrafBoxes(b, top[1..]);
      assert MoofsParse(b, top[1..]) by {
        forall m | 0 <= m < |top[1..]| && top[1..][m].typ == MOOF
          ensures Children(b, Body(top[1..][m]), End(top[1..][m])).Ok?
        {
          assert top[m + 1] == top[1..][m];
        }
      }
      TrafBoxesFit(b, top[1..]);
      WalkMoofsParses(b, top[1..], tracks);
      if top[0].typ == MOOF {
        var kids := Kids(b, top[0]);
        TrafsOfFit(b, kids);
        WalkTrafsParses(b, kids, tracks);
        ParseConcat(b, TrafsOf(kids), rest, tracks);
      } else {
        assert TrafBoxes(b, top) == rest;
      }
    }
  }

  lemma {:induction false} NothingParsed(b: seq<byte>, tracks: Tracks)
    ensures ParseAll(b, [], tracks) == Ok([])
  {
  }

  lemma {:induction false} ParsedAt(b: seq<byte>, ts: seq<Box>, tracks: Tracks, tfs: seq<Traf>)
    requires Fit(b, ts)
    ensures ParseAll(b, ts, tracks) == Ok(tfs) <==>
      |tfs| == |ts| && forall j :: 0 <= j < |ts| ==> ParseTraf(b, ts[j], tracks) == Ok(tfs[j])
  {
    hide ParseTraf;
    if ts != [] {
      var tfs' := if tfs == [] then [] else tfs[1..];
      ParsedAt(b, ts[1..], tracks, tfs');
      if ParseAll(b, ts, tracks) == Ok(tfs) {
        assert tfs == [tfs[0]] + tfs';
        forall j | 0 <= j < |ts| ensures ParseTraf(b, ts[j], tracks) == Ok(tfs[j]) {
          if j > 0 { assert ts[1..][j - 1] == ts[j] && tfs'[j - 1] == tfs[j]; }
        }
      }
      if |tfs| == |ts| && forall j :: 0 <= j < |ts| ==> ParseTraf(b, ts[j], tracks) == Ok(tfs[j]) {
        assert tfs == [tfs[0]] + tfs';
        forall j | 0 <= j < |ts[1..]| ensures ParseTraf(b, ts[1..][j], tracks) == Ok(tfs'[j]) {
          assert ts[1..][j] == ts[j + 1] && tfs'[j] == tfs[j + 1];
        }
      }
    }
  }

  /** The walk succeeds exactly when the boxes do and every traf is parsed, and then tells what each says. */
  lemma {:induction false} WalkIffParsed(b: seq<byte>, tracks: Tracks, tfs: seq<Traf>)
    ensures Walk(b, tracks) == Ok(tfs) <==>
      && Children(b, 0, |b|).Ok? && MoofsParse(b, Top(b)) && tfs != [] && |tfs| == |Trafs(b)|
      && forall j :: 0 <= j < |tfs| ==> ParseTraf(b, Trafs(b)[j], tracks) == Ok(tfs[j])
  {
    hide ParseTraf, TrafBoxes, WalkMoofs, MoofsParse;
    if Children(b, 0, |b|).Ok? {
      hide Children;
      if WalkMoofs(b, Top(b), tracks).Ok? { WalkedMoofsParse(b, Top(b), tracks); }
      if MoofsParse(b, Top(b)) {
        TrafBoxesFit(b, Top(b));
        WalkMoofsParses(b, Top(b), tracks);
        ParsedAt(b, Trafs(b), tracks, tfs);
      }
    }
  }
}
