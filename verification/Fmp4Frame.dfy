/**
 Which bytes of a segment are rewritten and what else the parser reads from them: the
 walk over a rewritten segment sees the same track fragments exactly when the default
 durations keep their lengths, whatever is short but the tfdt boxes.
 */
module Fmp4Frame {
  import opened Common
  import opened Bytes
  import opened Fmp4
  import opened Fmp4Retime

  /** Every decode time has its eight bytes inside its own tfdt box. */
  predicate Roomy(tfs: seq<Traf>) {
    forall j :: 0 <= j < |tfs| ==> Field(tfs[j]) + 8 <= End(tfs[j].tfdt)
  }

  /** The byte at i is part of a decode time. */
  predicate Patched(tfs: seq<Traf>, i: int) {
    exists k :: 0 <= k < |tfs| && Field(tfs[k]) <= i < Field(tfs[k]) + 8
  }

  /** a and b are equal outside the decode times. */
  predicate SameUnpatched(a: seq<byte>, b: seq<byte>, tfs: seq<Traf>) {
    |a| == |b| && forall i :: 0 <= i < |a| && !Patched(tfs, i) ==> a[i] == b[i]
  }

  // ----- where the decode times are -----

  /** The traf t is box k of the moof m. */
  predicate At(b: seq<byte>, t: Box, m: nat, k: nat) {
    m < |Top(b)| && Top(b)[m].typ == MOOF && k < |Kids(b, Top(b)[m])| && Kids(b, Top(b)[m])[k] == t && t.typ == TRAF
  }

  lemma {:induction false} TrafAt(b: seq<byte>, j: nat) returns (m: nat, k: nat)
    requires j < |Trafs(b)|
    ensures At(b, Trafs(b)[j], m, k)
  {
    m, k := TrafBoxMember(b, Top(b), Trafs(b)[j]);
  }

  lemma {:induction false} TopApart(b: seq<byte>)
    ensures Apart(Top(b)) && Tiled(Top(b), 0, if Top(b) == [] then 0 else |b|)
  {
    if Children(b, 0, |b|).Ok? {
      ChildrenApart(b, 0, |b|);
      ChildrenTiled(b, 0, |b|);
    }
  }

  lemma {:induction false} KidsApart(b: seq<byte>, m: Box)
    requires Body(m) <= End(m) <= |b|
    ensures Apart(Kids(b, m)) && (Kids(b, m) != [] ==> Tiled(Kids(b, m), Body(m), End(m)))
  {
    if Children(b, Body(m), End(m)).Ok? {
      ChildrenApart(b, Body(m), End(m));
      ChildrenTiled(b, Body(m), End(m));
    }
  }

  lemma {:induction false} HeadersAreLong(b: seq<byte>, m: Box, k: nat)
    requires Body(m) <= End(m) <= |b| && k < |Kids(b, m)|
    ensures Kids(b, m)[k].start + 8 <= Body(Kids(b, m)[k])
  {
    assert Kids(b, m)[k] in Kids(b, m);
  }

  lemma {:induction false} TopHeadersAreLong(b: seq<byte>, m: nat)
    requires m < |Top(b)|
    ensures Top(b)[m].start + 8 <= Body(Top(b)[m])
  {
    assert Top(b)[m] in Top(b);
  }

  /** The tfdt of a traf is one of its boxes. */
  lemma {:induction false} TfdtIsKid(b: seq<byte>, t: Box, tracks: Tracks) returns (d: nat)
    requires Body(t) <= End(t) <= |b| && ParseTraf(b, t, tracks).Ok?
    ensures d < |Kids(b, t)| && Kids(b, t)[d] == ParseTraf(b, t, tracks).value.tfdt && Kids(b, t)[d].typ == TFDT
  {
    hide ReadTfhd, TrunsDuration;
    d := FindIndex(Kids(b, t), TFDT);
  }

  /** A walked segment, with the decode time of each traf inside its tfdt box. */
  predicate Walked(b: seq<byte>, tracks: Tracks, tfs: seq<Traf>) { Walk(b, tracks) == Ok(tfs) && Roomy(tfs) }

  lemma {:induction false} WalkedAt(b: seq<byte>, tracks: Tracks, tfs: seq<Traf>)
    requires Walk(b, tracks) == Ok(tfs)
    ensures Children(b, 0, |b|).Ok? && MoofsParse(b, Top(b)) && |tfs| == |Trafs(b)|
    ensures forall j :: 0 <= j < |tfs| ==> ParseTraf(b, Trafs(b)[j], tracks) == Ok(tfs[j])
  {
    hide Walk, ParseTraf, Trafs, MoofsParse, Children;
    WalkIffParsed(b, tracks, tfs);
  }

  /** The field of a decode time, inside its tfdt, its traf and its moof. */
  lemma {:induction false} FieldInside(b: seq<byte>, tracks: Tracks, tf: Traf, t: Box, m: nat, k: nat)
    requires At(b, t, m, k) && ParseTraf(b, t, tracks) == Ok(tf) && Field(tf) + 8 <= End(tf.tfdt)
    ensures Body(Top(b)[m]) <= t.start && End(t) <= End(Top(b)[m])
    ensures Body(t) <= tf.tfdt.start && tf.tfdt.start + 8 <= Body(tf.tfdt) && End(tf.tfdt) <= End(t)
  {
    hide ParseTraf;
    var d := TfdtIsKid(b, t, tracks);
    HeadersAreLong(b, t, d);
  }

  // ----- bytes that are not part of a decode time -----

  lemma {:induction false} OutsideTop(b: seq<byte>, i: nat, m: nat, m': nat, lo: nat, hi: nat)
    requires m < |Top(b)| && m' < |Top(b)| && m != m' && Top(b)[m].start <= i < End(Top(b)[m])
    requires Top(b)[m'].start <= lo && hi <= End(Top(b)[m'])
    ensures !(lo <= i < hi)
  {
    TopApart(b);
    hide Top;
  }

  lemma {:induction false} OutsideKid(b: seq<byte>, p: Box, i: nat, k: nat, k': nat, lo: nat, hi: nat)
    requires Body(p) <= End(p) <= |b| && k < |Kids(b, p)| && k' < |Kids(b, p)| && k != k'
    requires Kids(b, p)[k].start <= i < End(Kids(b, p)[k])
    requires Kids(b, p)[k'].start <= lo && hi <= End(Kids(b, p)[k'])
    ensures !(lo <= i < hi)
  {
    KidsApart(b, p);
    hide Kids;
  }

  /** No byte of a header, and no byte of a top-level box other than a moof, is patched. */
  lemma {:induction false} TopIsUnpatched(b: seq<byte>, tracks: Tracks, tfs: seq<Traf>, i: nat, m: nat)
    requires Walked(b, tracks, tfs) && m < |Top(b)| && Top(b)[m].start <= i < End(Top(b)[m])
    requires i < Body(Top(b)[m]) || Top(b)[m].typ != MOOF
    ensures !Patched(tfs, i)
  {
    hide Walk, ParseTraf, Trafs, Top, Kids;
    WalkedAt(b, tracks, tfs);
    forall j | 0 <= j < |tfs| ensures !(Field(tfs[j]) <= i < Field(tfs[j]) + 8) {
      var m', k' := TrafAt(b, j);
      FieldInside(b, tracks, tfs[j], Trafs(b)[j], m', k');
      if m' != m { OutsideTop(b, i, m, m', Field(tfs[j]), Field(tfs[j]) + 8); }
    }
  }

  /** The byte at i is not in the decode time of the traf. */
  predicate NotOwn(b: seq<byte>, t: Box, tracks: Tracks, i: nat)
    requires Body(t) <= End(t) <= |b|
  {
    ParseTraf(b, t, tracks).Ok? && (var f := Field(ParseTraf(b, t, tracks).value); !(f <= i < f + 8))
  }

  /** No byte of the header of a box in a moof is patched, and in a traf only its own decode time. */
  lemma {:induction false} KidIsUnpatched(b: seq<byte>, tracks: Tracks, tfs: seq<Traf>, i: nat, m: nat, k: nat)
    requires Walked(b, tracks, tfs) && m < |Top(b)| && Top(b)[m].typ == MOOF && k < |Kids(b, Top(b)[m])|
    requires var kid := Kids(b, Top(b)[m])[k]; kid.start <= i < End(kid) && (i < Body(kid) || NotOwn(b, kid, tracks, i))
    ensures !Patched(tfs, i)
  {
    hide Walk, ParseTraf, Trafs, Top, Kids;
    WalkedAt(b, tracks, tfs);
    var moof := Top(b)[m];
    var kid := Kids(b, moof)[k];
    forall j | 0 <= j < |tfs| ensures !(Field(tfs[j]) <= i < Field(tfs[j]) + 8) {
      var m', k' := TrafAt(b, j);
      FieldInside(b, tracks, tfs[j], Trafs(b)[j], m', k');
      if m' != m {
        OutsideTop(b, i, m, m', Field(tfs[j]), Field(tfs[j]) + 8);
      } else if k' != k {
        OutsideKid(b, moof, i, k, k', Field(tfs[j]), Field(tfs[j]) + 8);
      }
    }
  }

  /** The eight bytes behind a top-level box are the header of the next one. */
  lemma {:induction false} BehindTop(b: seq<byte>, tracks: Tracks, tfs: seq<Traf>, i: nat, m: nat)
    requires Walked(b, tracks, tfs) && m < |Top(b)| && End(Top(b)[m]) <= i < End(Top(b)[m]) + 8 && i < |b|
    ensures !Patched(tfs, i)
  {
    hide Walk;
    TopApart(b);
    if m + 1 < |Top(b)| {
      TopHeadersAreLong(b, m + 1);
      TopIsUnpatched(b, tracks, tfs, i, m + 1);
    }
  }

  /** So are those behind a box of a moof. */
  lemma {:induction false} BehindKid(b: seq<byte>, tracks: Tracks, tfs: seq<Traf>, i: nat, m: nat, k: nat)
    requires Walked(b, tracks, tfs) && m < |Top(b)| && Top(b)[m].typ == MOOF && k < |Kids(b, Top(b)[m])|
    requires var kid := Kids(b, Top(b)[m])[k]; End(kid) <= i < End(kid) + 8 && i < |b|
    ensures !Patched(tfs, i)
  {
    hide Walk, Top;
    var moof := Top(b)[m];
    KidsApart(b, moof);
    if k + 1 < |Kids(b, moof)| {
      HeadersAreLong(b, moof, k + 1);
      KidIsUnpatched(b, tracks, tfs, i, m, k + 1);
    } else {
      BehindTop(b, tracks, tfs, i, m);
    }
  }

  /** Inside a traf, only the decode time in its tfdt is patched. */
  lemma {:induction false} InnerIsUnpatched(b: seq<byte>, tracks: Tracks, tfs: seq<Traf>, i: nat, m: nat, k: nat,
      c: nat)
    requires Walked(b, tracks, tfs) && m < |Top(b)| && Top(b)[m].typ == MOOF && k < |Kids(b, Top(b)[m])|
    requires var t := Kids(b, Top(b)[m])[k];
      && ParseTraf(b, t, tracks).Ok? &&
          Field(ParseTraf(b, t, tracks).value) + 8 <= End(ParseTraf(b, t, tracks).value.tfdt)
      && c < |Kids(b, t)|
      && var x := Kids(b, t)[c]; x.start <= i < End(x) && (i < Body(x) + 4 || x.typ != TFDT)
    ensures !Patched(tfs, i)
  {
    hide Walk, Top, ParseTraf;
    var t := Kids(b, Top(b)[m])[k];
    var tf := ParseTraf(b, t, tracks).value;
    var d := TfdtIsKid(b, t, tracks);
    if c != d { OutsideKid(b, t, i, c, d, Field(tf), Field(tf) + 8); }
    KidIsUnpatched(b, tracks, tfs, i, m, k);
  }

  /** The eight bytes behind a box of a traf are the header of whatever comes next. */
  lemma {:induction false} BehindInner(b: seq<byte>, tracks: Tracks, tfs: seq<Traf>, i: nat, m: nat, k: nat, c: nat)
    requires Walked(b, tracks, tfs) && m < |Top(b)| && Top(b)[m].typ == MOOF && k < |Kids(b, Top(b)[m])|
    requires var t := Kids(b, Top(b)[m])[k];
      && ParseTraf(b, t, tracks).Ok? &&
          Field(ParseTraf(b, t, tracks).value) + 8 <= End(ParseTraf(b, t, tracks).value.tfdt)
      && c < |Kids(b, t)| && End(Kids(b, t)[c]) <= i < End(Kids(b, t)[c]) + 8 && i < |b|
    ensures !Patched(tfs, i)
  {
    hide Walk, Top, ParseTraf;
    var t := Kids(b, Top(b)[m])[k];
    KidsApart(b, t);
    if c + 1 < |Kids(b, t)| {
      HeadersAreLong(b, t, c + 1);
      InnerIsUnpatched(b, tracks, tfs, i, m, k, c + 1);
    } else {
      BehindKid(b, tracks, tfs, i, m, k);
    }
  }

  // ----- the parser reads the same -----

  lemma {:induction false} KidIsSame(a: seq<byte>, b: seq<byte>, tracks: Tracks, tfs: seq<Traf>, m: nat, k: nat, c: nat)
    requires Walked(a, tracks, tfs) && SameUnpatched(a, b, tfs)
    requires m < |Top(a)| && Top(a)[m].typ == MOOF && k < |Kids(a, Top(a)[m])|
    requires var t := Kids(a, Top(a)[m])[k];
      && ParseTraf(a, t, tracks).Ok? &&
          Field(ParseTraf(a, t, tracks).value) + 8 <= End(ParseTraf(a, t, tracks).value.tfdt)
      && c < |Kids(a, t)|
    ensures var x := Kids(a, Kids(a, Top(a)[m])[k])[c]; KidSame(a, b, x) && Same(a, b, x.start, Body(x))
  {
    hide Walk, Top, ParseTraf, Kids;
    var x := Kids(a, Kids(a, Top(a)[m])[k])[c];
    TypesDiffer();
    forall i | x.start <= i < |a| &&
        (i < Body(x) || ((x.typ == TFHD || x.typ == TRUN) && (i < End(x) || i < Body(x) + 8)))
      ensures a[i] == b[i]
    {
      if i < End(x) {
        InnerIsUnpatched(a, tracks, tfs, i, m, k, c);
      } else {
        BehindInner(a, tracks, tfs, i, m, k, c);
      }
    }
  }

  lemma {:induction false} TypesDiffer()
    ensures TFHD != TFDT && TRUN != TFDT
  {
    assert TFHD[2] != TFDT[2] && TRUN[1] != TFDT[1];
  }

  lemma {:induction false} TrafIsUndisturbed(a: seq<byte>, b: seq<byte>, tracks: Tracks, tfs: seq<Traf>, j: nat)
    requires Walked(a, tracks, tfs) && SameUnpatched(a, b, tfs) && j < |tfs| == |Trafs(a)|
    ensures Undisturbed(a, b, Trafs(a)[j], tracks)
  {
    hide Walk, ParseTraf, Kids, Trafs, Top, KidSame;
    WalkedAt(a, tracks, tfs);
    var t := Trafs(a)[j];
    var m, k := TrafAt(a, j);
    forall c | 0 <= c < |Kids(a, t)|
      ensures KidSame(a, b, Kids(a, t)[c]) && Same(a, b, Kids(a, t)[c].start, Body(Kids(a, t)[c]))
    {
      KidIsSame(a, b, tracks, tfs, m, k, c);
    }
    var d := TfdtIsKid(a, t, tracks);
    InnerIsUnpatched(a, tracks, tfs, Body(Kids(a, t)[d]), m, k, d);
  }

  lemma {:induction false} TopIsSame(a: seq<byte>, b: seq<byte>, tracks: Tracks, tfs: seq<Traf>)
    requires Walked(a, tracks, tfs) && SameUnpatched(a, b, tfs)
    ensures Children(a, 0, |a|).Ok? && Children(b, 0, |b|) == Children(a, 0, |a|) && Top(b) == Top(a)
  {
    WalkedAt(a, tracks, tfs);
    hide Walk;
    var top := Top(a);
    forall m, i | 0 <= m < |top| && top[m].start <= i < Body(top[m]) ensures a[i] == b[i] {
      TopIsUnpatched(a, tracks, tfs, i, m);
    }
    ChildrenSame(a, b, 0, |a|);
  }

  lemma {:induction false} MoofIsSame(a: seq<byte>, b: seq<byte>, tracks: Tracks, tfs: seq<Traf>, m: nat)
    requires Walked(a, tracks, tfs) && SameUnpatched(a, b, tfs) && m < |Top(a)| && Top(a)[m].typ == MOOF
    ensures var x := Top(a)[m];
      Children(b, Body(x), End(x)) == Children(a, Body(x), End(x)) && Children(a, Body(x), End(x)).Ok? &&
          Kids(b, x) == Kids(a, x)
  {
    WalkedAt(a, tracks, tfs);
    hide Walk, Top;
    var x := Top(a)[m];
    var kids := Kids(a, x);
    forall k, i | 0 <= k < |kids| && kids[k].start <= i < Body(kids[k]) ensures a[i] == b[i] {
      KidIsUnpatched(a, tracks, tfs, i, m, k);
    }
    ChildrenSame(a, b, Body(x), End(x));
  }

  lemma {:induction false} TrafBoxesSame(a: seq<byte>, b: seq<byte>, top: seq<Box>)
    requires |a| == |b| && Fit(a, top)
    requires forall m :: 0 <= m < |top| && top[m].typ == MOOF ==> Kids(b, top[m]) == Kids(a, top[m])
    ensures TrafBoxes(b, top) == TrafBoxes(a, top)
  {
    hide Kids;
    if top != [] {
      assert forall m :: 0 <= m < |top[1..]| ==> top[1..][m] == top[m + 1];
      TrafBoxesSame(a, b, top[1..]);
    }
  }

  /** A rewritten segment has the same boxes. */
  lemma {:induction false} BoxesSame(a: seq<byte>, b: seq<byte>, tracks: Tracks, tfs: seq<Traf>)
    requires Walked(a, tracks, tfs) && SameUnpatched(a, b, tfs)
    ensures Children(a, 0, |a|).Ok? && Children(b, 0, |b|) == Children(a, 0, |a|) && Top(b) == Top(a)
    ensures MoofsParse(b, Top(b)) && Trafs(b) == Trafs(a)
  {
    TopIsSame(a, b, tracks, tfs);
    hide Walk, Top, Children, Kids;
    forall m | 0 <= m < |Top(a)| && Top(a)[m].typ == MOOF
      ensures Children(b, Body(Top(a)[m]), End(Top(a)[m])).Ok? && Kids(b, Top(a)[m]) == Kids(a, Top(a)[m])
    {
      MoofIsSame(a, b, tracks, tfs, m);
    }
    TrafBoxesSame(a, b, Top(a));
  }

  /** Every default duration of b makes the durations it made in a. */
  predicate DurationsKept(a: seq<byte>, b: seq<byte>, tracks: Tracks)
    requires |a| == |b|
  {
    forall j :: 0 <= j < |Trafs(a)| ==> DurationKept(a, b, Trafs(a)[j], tracks)
  }

  /** A segment that differs only in its decode times is parsed into the same fragments exactly when the durations
      are kept. */
  lemma {:induction false} WalkSameIff(a: seq<byte>, b: seq<byte>, tracks: Tracks, tfs: seq<Traf>)
    requires Walked(a, tracks, tfs) && SameUnpatched(a, b, tfs)
    ensures Walk(b, tracks) == Ok(tfs) <==> DurationsKept(a, b, tracks)
  {
    hide Walk, Top, Trafs, ParseTraf, DurationKept, Undisturbed, MoofsParse, Children;
    WalkedAt(a, tracks, tfs);
    BoxesSame(a, b, tracks, tfs);
    WalkIffParsed(a, tracks, tfs);
    WalkIffParsed(b, tracks, tfs);
    forall j | 0 <= j < |tfs|
      ensures ParseTraf(b, Trafs(a)[j], tracks) == Ok(tfs[j]) <==> DurationKept(a, b, Trafs(a)[j], tracks)
    {
      TrafIsUndisturbed(a, b, tracks, tfs, j);
      TrafSameIff(a, b, Trafs(a)[j], tracks);
    }
  }

  /** No traf is left with a default duration of zero that it needs. */
  predicate DefaultsUsable(a: seq<byte>, b: seq<byte>, tracks: Tracks)
    requires |a| == |b|
  {
    forall j :: 0 <= j < |Trafs(a)| ==> DefaultUsable(a, b, Trafs(a)[j], tracks)
  }

  predicate SameTimes(x: seq<Traf>, y: seq<Traf>) { |x| == |y| && forall j :: 0 <= j < |x| ==> SameTime(x[j], y[j]) }

  /** Whatever its durations become, a rewritten segment is walked to the same decode time fields unless a default
      became zero. */
  lemma {:induction false} WalkStillIff(a: seq<byte>, b: seq<byte>, tracks: Tracks, tfs: seq<Traf>)
    requires Walked(a, tracks, tfs) && SameUnpatched(a, b, tfs)
    ensures Walk(b, tracks).Ok? <==> DefaultsUsable(a, b, tracks)
    ensures Walk(b, tracks).Ok? ==> SameTimes(tfs, Walk(b, tracks).value)
  {
    assert |a| == |b|;
    assert tfs != [];
    hide Walk, Top, Trafs, ParseTraf, DefaultUsable, Undisturbed, MoofsParse, Children, SameTime, SameUnpatched;
    WalkedAt(a, tracks, tfs);
    BoxesSame(a, b, tracks, tfs);
    var ts := Trafs(a);
    forall j | 0 <= j < |tfs|
      ensures ParseTraf(b, ts[j], tracks).Ok? <==> DefaultUsable(a, b, ts[j], tracks)
      ensures ParseTraf(b, ts[j], tracks).Ok? ==> SameTime(tfs[j], ParseTraf(b, ts[j], tracks).value)
    {
      TrafIsUndisturbed(a, b, tracks, tfs, j);
      TrafStillParses(a, b, ts[j], tracks);
    }
    if DefaultsUsable(a, b, tracks) {
      var tfs' := seq(|ts|, j requires 0 <= j < |ts| &&
          ParseTraf(b, ts[j], tracks).Ok? => ParseTraf(b, ts[j], tracks).value);
      WalkIffParsed(b, tracks, tfs');
    }
    if Walk(b, tracks).Ok? { WalkIffParsed(b, tracks, Walk(b, tracks).value); }
  }

  // ----- segments whose durations no move can change -----

  /** No announced default duration lies in a decode time. */
  predicate DefaultsClear(b: seq<byte>, tfs: seq<Traf>) {
    forall j :: 0 <= j < |Trafs(b)| ==> DefaultClear(b, Trafs(b)[j], tfs)
  }

  predicate DefaultClear(b: seq<byte>, t: Box, tfs: seq<Traf>)
    requires Body(t) <= End(t) <= |b|
  {
    match DefaultAt(b, t)
    case None => true
    case Some(p) => forall i :: p <= i < p + 4 ==> !Patched(tfs, i)
  }

  /** The tfdt boxes hold their decode times, and no tfhd takes its default duration out of one. */
  predicate WellFormed(b: seq<byte>, tracks: Tracks) {
    Walk(b, tracks).Ok? ==> Roomy(Walk(b, tracks).value) && DefaultsClear(b, Walk(b, tracks).value)
  }

  lemma {:induction false} ClearIsKept(a: seq<byte>, b: seq<byte>, t: Box, tracks: Tracks, tfs: seq<Traf>)
    requires Body(t) <= End(t) <= |a| && Undisturbed(a, b, t, tracks)
    requires SameUnpatched(a, b, tfs) && DefaultClear(a, t, tfs)
    ensures DurationKept(a, b, t, tracks) && DefaultClear(b, t, tfs)
  {
    hide Undisturbed, UsesDefault, DefaultSamples, Kids, ParseTraf, TrafDefault, DefaultAt, Patched, U32;
    TrafSameIff(a, b, t, tracks);
    match DefaultAt(a, t) {
      case None =>
      case Some(p) => WordSame(a, b, p);
    }
  }

  lemma {:induction false} WordSame(a: seq<byte>, b: seq<byte>, p: nat)
    requires |a| == |b| && p + 4 <= |a| && forall i :: p <= i < p + 4 ==> a[i] == b[i]
    ensures U32(a, p) == U32(b, p)
  {
    assert a[p..p + 4] == b[p..p + 4];
  }

  /** Such a segment is parsed the same way after every rewriting of its decode times. */
  lemma {:induction false} WalkSame(a: seq<byte>, b: seq<byte>, tracks: Tracks, tfs: seq<Traf>)
    requires WellFormed(a, tracks) && Walk(a, tracks) == Ok(tfs) && SameUnpatched(a, b, tfs)
    ensures Walk(b, tracks) == Ok(tfs) && WellFormed(b, tracks)
  {
    assert |a| == |b|;
    hide Walk, Top, Trafs, ParseTraf, DurationKept, Undisturbed, DefaultClear, SameUnpatched, MoofsParse;
    WalkedAt(a, tracks, tfs);
    BoxesSame(a, b, tracks, tfs);
    forall j | 0 <= j < |Trafs(a)|
      ensures DurationKept(a, b, Trafs(a)[j], tracks) && DefaultClear(b, Trafs(a)[j], tfs)
    {
      TrafIsUndisturbed(a, b, tracks, tfs, j);
      ClearIsKept(a, b, Trafs(a)[j], tracks, tfs);
    }
    WalkSameIff(a, b, tracks, tfs);
  }

  lemma {:induction false} MediaSame(a: seq<byte>, b: seq<byte>, top: seq<Box>)
    requires |a| == |b| && Fit(a, top)
    requires forall m :: 0 <= m < |top| && top[m].typ == MDAT ==> Same(a, b, Body(top[m]), End(top[m]))
    ensures MediaOf(b, top) == MediaOf(a, top)
  {
    if top != [] {
      assert top == [top[0]] + top[1..];
      MediaSame(a, b, top[1..]);
      if top[0].typ == MDAT {
        SameSlice(a, b, Body(top[0]), End(top[0]), Body(top[0]), End(top[0]) - Body(top[0]));
      }
    }
  }

  /** The media data of a rewritten segment is untouched, whatever its durations become. */
  lemma {:induction false} MediaDataSame(a: seq<byte>, b: seq<byte>, tracks: Tracks, tfs: seq<Traf>)
    requires Walked(a, tracks, tfs) && SameUnpatched(a, b, tfs)
    ensures MediaData(b) == MediaData(a)
  {
    TopIsSame(a, b, tracks, tfs);
    hide Walk, Children;
    var top := Top(a);
    assert MDAT[0] == 109 && MDAT[1] == 100 && MOOF[1] == 111;
    forall m | 0 <= m < |top| && top[m].typ == MDAT ensures Same(a, b, Body(top[m]), End(top[m])) {
      forall i | Body(top[m]) <= i < End(top[m]) ensures a[i] == b[i] {
        TopIsUnpatched(a, tracks, tfs, i, m);
      }
    }
    MediaSame(a, b, top);
  }
}
