/**
 The move of a segment onto the timeline, as a whole: which bytes it changes, what the
 segment says afterwards, when it can be undone, and why two segments that follow each
 other in a file follow each other on the timeline.
 */
module Fmp4Timeline {
  import opened Common
  import opened Bytes
  import opened Fmp4
  import opened Fmp4Retime
  import opened Fmp4Frame

  // ----- decode times stand one behind the other -----

  predicate InOrder(tfs: seq<Traf>) {
    forall i, j :: 0 <= i < j < |tfs| ==> End(tfs[i].tfdt) <= tfs[j].tfdt.start
  }

  predicate Between(tfs: seq<Traf>, lo: nat, hi: nat) {
    forall j :: 0 <= j < |tfs| ==> lo <= tfs[j].tfdt.start && End(tfs[j].tfdt) <= hi
  }

  lemma {:induction false} TfdtInside(b: seq<byte>, t: Box, tracks: Tracks)
    requires Body(t) <= End(t) <= |b| && ParseTraf(b, t, tracks).Ok?
    ensures t.start <= ParseTraf(b, t, tracks).value.tfdt.start && End(ParseTraf(b, t, tracks).value.tfdt) <= End(t)
  {
  }

  lemma {:induction false} TrafsInOrder(b: seq<byte>, kids: seq<Box>, tracks: Tracks, lo: nat, hi: nat)
    requires Fit(b, kids) && Apart(kids) && WalkTrafs(b, kids, tracks).Ok?
    requires forall k :: 0 <= k < |kids| ==> lo <= kids[k].start && End(kids[k]) <= hi
    ensures InOrder(WalkTrafs(b, kids, tracks).value) && Between(WalkTrafs(b, kids, tracks).value, lo, hi)
  {
    if kids != [] {
      var rest := kids[1..];
      if kids[0].typ == TRAF {
        var tf := ParseTraf(b, kids[0], tracks).value;
        TfdtInside(b, kids[0], tracks);
        TrafsInOrder(b, rest, tracks, End(kids[0]), hi);
        hide ParseTraf;
        JoinInOrder([tf], WalkTrafs(b, rest, tracks).value, kids[0].start, End(kids[0]), hi);
      } else {
        TrafsInOrder(b, rest, tracks, lo, hi);
      }
    }
  }

  lemma {:induction false} MoofsInOrder(b: seq<byte>, top: seq<Box>, tracks: Tracks, lo: nat)
    requires Fit(b, top) && Apart(top) && WalkMoofs(b, top, tracks).Ok?
    requires forall k :: 0 <= k < |top| ==> lo <= top[k].start
    ensures InOrder(WalkMoofs(b, top, tracks).value) && Between(WalkMoofs(b, top, tracks).value, lo, |b|)
  {
    if top != [] {
      var rest := top[1..];
      if top[0].typ == MOOF {
        var m := top[0];
        KidsApart(b, m);
        TrafsInOrder(b, Kids(b, m), tracks, m.start, End(m));
        MoofsInOrder(b, rest, tracks, End(m));
        JoinInOrder(WalkMoof(b, m, tracks).value, WalkMoofs(b, rest, tracks).value, m.start, End(m), |b|);
      } else {
        MoofsInOrder(b, rest, tracks, lo);
      }
    }
  }

  lemma {:induction false} JoinInOrder(a: seq<Traf>, b: seq<Traf>, lo: nat, mid: nat, hi: nat)
    requires InOrder(a) && Between(a, lo, mid) && InOrder(b) && Between(b, mid, hi) && lo <= mid <= hi
    ensures InOrder(a + b) && Between(a + b, lo, hi)
  {
  }

  lemma {:induction false} WalkInOrder(b: seq<byte>, tracks: Tracks, tfs: seq<Traf>)
    requires Walk(b, tracks) == Ok(tfs)
    ensures InOrder(tfs) && Between(tfs, 0, |b|)
  {
    TopApart(b);
    MoofsInOrder(b, Top(b), tracks, 0);
  }

  // ----- patching -----

  predicate Patchable(b: seq<byte>, tfs: seq<Traf>) { InOrder(tfs) && Between(tfs, 0, |b|) && Roomy(tfs) }

  function Have(b: seq<byte>, tf: Traf): nat
    requires Field(tf) + 8 <= |b|
  {
    U64(b, Field(tf))
  }

  /** The new decode time of a fragment of b. */
  function Moved(b: seq<byte>, tf: Traf, anchor: int, nominal: int): Result<nat, Error>
    requires Field(tf) + 8 <= |b|
  {
    NewTime(Have(b, tf), tf.track.timescale, anchor, nominal)
  }

  lemma {:induction false} SameHave(a: seq<byte>, b: seq<byte>, tf: Traf)
    requires Field(tf) + 8 <= |a| && Same(a, b, Field(tf), Field(tf) + 8)
    ensures Have(a, tf) == Have(b, tf)
  {
    SameSlice(a, b, Field(tf), Field(tf) + 8, Field(tf), 8);
  }

  lemma {:induction false} EqualHave(a: seq<byte>, b: seq<byte>, tf: Traf)
    requires |a| == |b| && Field(tf) + 8 <= |a| && Have(a, tf) == Have(b, tf)
    ensures Same(a, b, Field(tf), Field(tf) + 8)
  {
    var f := Field(tf);
    DigitsOfNumber(a[f..f + 8]);
    DigitsOfNumber(b[f..f + 8]);
    forall i | f <= i < f + 8
      ensures a[i] == b[i]
    {
      assert a[i] == a[f..f + 8][i - f] && b[i] == b[f..f + 8][i - f];
    }
  }

  /** The fields of the other fragments are not touched by the first one. */
  lemma {:induction false} FirstPatch(b: seq<byte>, tfs: seq<Traf>, v: nat)
    requires Patchable(b, tfs) && tfs != [] && v < B64
    ensures var c := Put64(b, Field(tfs[0]), v);
      && Patchable(c, tfs[1..]) && Have(c, tfs[0]) == v && SameUnpatched(b, c, tfs)
      && (forall j :: 1 <= j < |tfs| ==> Have(c, tfs[j]) == Have(b, tfs[j]))
      && (forall i :: Field(tfs[0]) <= i < Field(tfs[0]) + 8 ==> !Patched(tfs[1..], i))
      && (forall i :: 0 <= i < |b| && Patched(tfs[1..], i) ==> Patched(tfs, i))
  {
    var f, rest := Field(tfs[0]), tfs[1..];
    var c := Put64(b, f, v);
    Put64Reads(b, f, v);
    forall j | 1 <= j < |tfs|
      ensures Have(c, tfs[j]) == Have(b, tfs[j]) && f + 8 <= Field(tfs[j])
    {
      assert End(tfs[0].tfdt) <= tfs[j].tfdt.start;
      SameHave(b, c, tfs[j]);
    }
    forall i | 0 <= i < |b| && Patched(rest, i)
      ensures Patched(tfs, i)
    {
      var k :| 0 <= k < |rest| && Field(rest[k]) <= i < Field(rest[k]) + 8;
      assert tfs[k + 1] == rest[k];
    }
    forall i | f <= i < f + 8
      ensures !Patched(rest, i)
    {
      forall k | 0 <= k < |rest|
        ensures !(Field(rest[k]) <= i < Field(rest[k]) + 8)
      {
        assert tfs[k + 1] == rest[k];
      }
    }
  }

  /** All fragments can be moved. */
  predicate AllMove(b: seq<byte>, tfs: seq<Traf>, anchor: int, nominal: int)
    requires Patchable(b, tfs)
  {
    forall j :: 0 <= j < |tfs| ==> tfs[j].version == 1 && Moved(b, tfs[j], anchor, nominal).Ok?
  }

  /** out is b with the decode times of tfs moved. */
  predicate IsMoved(b: seq<byte>, out: seq<byte>, tfs: seq<Traf>, anchor: int, nominal: int)
    requires Patchable(b, tfs)
  {
    && SameUnpatched(b, out, tfs)
    && forall j :: 0 <= j < |tfs| ==> Moved(b, tfs[j], anchor, nominal) == Ok(Have(out, tfs[j]))
  }

  lemma {:induction false} NewTimeFits(have: nat, scale: nat, anchor: int, nominal: int)
    ensures NewTime(have, scale, anchor, nominal).Ok? ==> NewTime(have, scale, anchor, nominal).value < B64
  {
  }

  /** Patching succeeds exactly when every fragment can be moved, and then moves each by what it says in b. */
  lemma {:induction false} PatchMoves(b: seq<byte>, tfs: seq<Traf>, anchor: int, nominal: int)
    requires Patchable(b, tfs)
    ensures Patch(b, tfs, anchor, nominal).Ok? <==> AllMove(b, tfs, anchor, nominal)
    ensures Patch(b, tfs, anchor, nominal).Ok? ==>
        IsMoved(b, Patch(b, tfs, anchor, nominal).value, tfs, anchor, nominal)
    decreases |tfs|
  {
    if tfs != [] {
      var tf, rest := tfs[0], tfs[1..];
      var r := Moved(b, tf, anchor, nominal);
      hide NewTime;
      if tf.version == 1 && r.Ok? {
        NewTimeFits(Have(b, tf), tf.track.timescale, anchor, nominal);
        FirstPatch(b, tfs, r.value);
        var c := Put64(b, Field(tf), r.value);
        PatchMoves(c, rest, anchor, nominal);
        RestMoves(b, c, tfs, anchor, nominal);
        if Patch(c, rest, anchor, nominal).Ok? {
          var out := Patch(c, rest, anchor, nominal).value;
          SameHave(c, out, tf);
          assert Have(out, tf) == r.value;
          RestIsMoved(b, c, out, tfs, anchor, nominal);
        }
      }
    }
  }

  lemma {:induction false} RestMoves(b: seq<byte>, c: seq<byte>, tfs: seq<Traf>, anchor: int, nominal: int)
    requires Patchable(b, tfs) && tfs != [] && |b| == |c| && Patchable(c, tfs[1..])
    requires forall j :: 1 <= j < |tfs| ==> Have(c, tfs[j]) == Have(b, tfs[j])
    requires tfs[0].version == 1 && Moved(b, tfs[0], anchor, nominal).Ok?
    ensures AllMove(c, tfs[1..], anchor, nominal) <==> AllMove(b, tfs, anchor, nominal)
  {
    hide NewTime;
    var rest := tfs[1..];
    assert forall j :: 0 <= j < |rest| ==> rest[j] == tfs[j + 1];
    if AllMove(c, rest, anchor, nominal) {
      forall j | 0 <= j < |tfs|
        ensures tfs[j].version == 1 && Moved(b, tfs[j], anchor, nominal).Ok?
      {
        if 0 < j {
          assert rest[j - 1] == tfs[j];
        }
      }
    }
    if AllMove(b, tfs, anchor, nominal) {
      forall j | 0 <= j < |rest|
        ensures rest[j].version == 1 && Moved(c, rest[j], anchor, nominal).Ok?
      {
        assert Moved(b, tfs[j + 1], anchor, nominal).Ok?;
      }
    }
  }

  lemma {:induction false} RestIsMoved(b: seq<byte>, c: seq<byte>, out: seq<byte>, tfs: seq<Traf>, anchor: int,
      nominal: int)
    requires Patchable(b, tfs) && tfs != [] && |b| == |c| && Patchable(c, tfs[1..]) && SameUnpatched(b, c, tfs)
    requires forall j :: 1 <= j < |tfs| ==> Have(c, tfs[j]) == Have(b, tfs[j])
    requires forall i :: 0 <= i < |b| && Patched(tfs[1..], i) ==> Patched(tfs, i)
    requires IsMoved(c, out, tfs[1..], anchor, nominal)
    requires Moved(b, tfs[0], anchor, nominal) == Ok(Have(out, tfs[0]))
    ensures IsMoved(b, out, tfs, anchor, nominal)
  {
    hide NewTime;
    var rest := tfs[1..];
    forall j | 0 <= j < |tfs|
      ensures Moved(b, tfs[j], anchor, nominal) == Ok(Have(out, tfs[j]))
    {
      if 0 < j {
        assert rest[j - 1] == tfs[j];
      }
    }
  }

  // ----- the arithmetic of one decode time -----

  lemma {:induction false} TicksDiffer(a: int, n: int, scale: nat)
    ensures Ticks(a - n, scale) == Ticks(a, scale) - Ticks(n, scale)
  {
  }

  /** A moved decode time is the old one plus the distance, modulo 2^64. */
  function ShiftTime(t: nat, scale: nat, anchor: int, nominal: int): nat {
    (t + Ticks(anchor - nominal, scale)) % B64
  }

  lemma {:induction false} NewTimeShifts(have: nat, scale: nat, anchor: int, nominal: int)
    requires have < B64 && NewTime(have, scale, anchor, nominal).Ok?
    ensures NewTime(have, scale, anchor, nominal).value == ShiftTime(have, scale, anchor, nominal)
  {
    TicksDiffer(anchor, nominal, scale);
    hide Ticks;
    var a, n := Ticks(anchor, scale), Ticks(nominal, scale);
    ShiftModulo(have, a, n);
    UnsignedOfWrap(Wrap64(a) + Wrap64(Wrap64(have) - Wrap64(n)));
  }

  lemma {:induction false} ShiftModulo(have: nat, a: int, n: int)
    ensures (Wrap64(a) + Wrap64(Wrap64(have) - Wrap64(n))) % B64 == (have + (a - n)) % B64
  {
  }

  /** Moving back succeeds exactly when the old decode time was not negative as an int64, and gives it back. */
  lemma {:induction false} NewTimeBack(have: nat, scale: nat, anchor: int, nominal: int)
    requires have < B64 && NewTime(have, scale, anchor, nominal).Ok?
    ensures NewTime(NewTime(have, scale, anchor, nominal).value, scale, nominal, anchor) ==
      if have < B64 / 2 then Ok(have) else Err(BeforeStart)
  {
    hide Ticks;
    var a, n := Ticks(anchor, scale), Ticks(nominal, scale);
    var diff := Wrap64(Wrap64(have) - Wrap64(n));
    var v := Wrap64(Wrap64(a) + diff);
    WrapOfUnsigned(v);
    WrapOfUnsigned(diff);
    WrapSubAdd(diff, a);
    WrapAddSub(have, n);
    assert Drift(Unsigned64(v), scale, anchor) == diff;
    WrapOfHave(have);
  }

  lemma {:induction false} WrapOfHave(have: nat)
    requires have < B64
    ensures Wrap64(have) == if have < B64 / 2 then have else have - B64
    ensures have < B64 / 2 ==> Unsigned64(Wrap64(have)) == have
  {
  }

  // ----- the move of a segment -----

  lemma {:induction false} FragmentsOfPatchable(b: seq<byte>, tfs: seq<Traf>)
    requires Between(tfs, 0, |b|) && Roomy(tfs) && forall j :: 0 <= j < |tfs| ==> tfs[j].version == 1
    ensures FragmentsOf(b, tfs).Ok? && |FragmentsOf(b, tfs).value| == |tfs|
    ensures forall j :: 0 <= j < |tfs| ==>
      FragmentsOf(b, tfs).value[j] == Fragment(tfs[j].track, Have(b, tfs[j]), tfs[j].duration)
  {
    if tfs != [] {
      FragmentsOfPatchable(b, tfs[1..]);
    }
  }

  /** The decode times of a segment that can be parsed lie inside their tfdt boxes. */
  predicate FullTimes(b: seq<byte>, tracks: Tracks) { Walk(b, tracks).Ok? ==> Roomy(Walk(b, tracks).value) }

  // ----- what a move writes, told from the segment -----

  /** The byte that a move leaves at i. */
  function NewByte(b: seq<byte>, tfs: seq<Traf>, anchor: int, nominal: int, i: nat): byte
    requires i < |b|
  {
    if tfs == [] then b[i]
    else
      var f := Field(tfs[0]);
      if f <= i < f + 8 <= |b|
          then Digits(ShiftTime(Have(b, tfs[0]), tfs[0].track.timescale, anchor, nominal), 8)[i - f]
      else NewByte(b, tfs[1..], anchor, nominal, i)
  }

  function NewWord(b: seq<byte>, tfs: seq<Traf>, anchor: int, nominal: int, p: nat): nat
    requires p + 4 <= |b|
  {
    Number([NewByte(b, tfs, anchor, nominal, p), NewByte(b, tfs, anchor, nominal, p + 1),
      NewByte(b, tfs, anchor, nominal, p + 2), NewByte(b, tfs, anchor, nominal, p + 3)])
  }

  /** The decode times of out are those of b, shifted. */
  predicate TimesShifted(b: seq<byte>, out: seq<byte>, tfs: seq<Traf>, anchor: int, nominal: int) {
    |out| == |b| && forall j :: 0 <= j < |tfs| ==>
      && Field(tfs[j]) + 8 <= |b|
      && Have(out, tfs[j]) == ShiftTime(Have(b, tfs[j]), tfs[j].track.timescale, anchor, nominal)
  }

  lemma {:induction false} MovedIsShifted(b: seq<byte>, out: seq<byte>, tfs: seq<Traf>, anchor: int, nominal: int)
    requires Patchable(b, tfs) && IsMoved(b, out, tfs, anchor, nominal)
    ensures TimesShifted(b, out, tfs, anchor, nominal)
  {
    hide NewTime, ShiftTime;
    forall j | 0 <= j < |tfs|
      ensures Have(out, tfs[j]) == ShiftTime(Have(b, tfs[j]), tfs[j].track.timescale, anchor, nominal)
    {
      NewTimeShifts(Have(b, tfs[j]), tfs[j].track.timescale, anchor, nominal);
    }
  }

  lemma {:induction false} WrittenByte(b: seq<byte>, out: seq<byte>, tfs: seq<Traf>, anchor: int, nominal: int, i: nat)
    requires TimesShifted(b, out, tfs, anchor, nominal) && i < |b| && (!Patched(tfs, i) ==> out[i] == b[i])
    ensures out[i] == NewByte(b, tfs, anchor, nominal, i)
  {
    hide ShiftTime, U64;
    if tfs != [] {
      var f := Field(tfs[0]);
      if f <= i < f + 8 {
        DigitsOfHave(out, tfs[0]);
        assert out[i] == out[f..f + 8][i - f];
      } else {
        PatchedRest(tfs, i);
        assert forall j :: 0 <= j < |tfs[1..]| ==> tfs[1..][j] == tfs[j + 1];
        WrittenByte(b, out, tfs[1..], anchor, nominal, i);
      }
    }
  }

  lemma {:induction false} DigitsOfHave(b: seq<byte>, tf: Traf)
    requires Field(tf) + 8 <= |b|
    ensures b[Field(tf)..Field(tf) + 8] == Digits(Have(b, tf), 8)
  {
    DigitsOfNumber(b[Field(tf)..Field(tf) + 8]);
  }

  lemma {:induction false} PatchedRest(tfs: seq<Traf>, i: int)
    requires tfs != [] && !(Field(tfs[0]) <= i < Field(tfs[0]) + 8)
    ensures Patched(tfs, i) == Patched(tfs[1..], i)
  {
    if Patched(tfs, i) {
      var k :| 0 <= k < |tfs| && Field(tfs[k]) <= i < Field(tfs[k]) + 8;
      assert tfs[1..][k - 1] == tfs[k];
    }
    if Patched(tfs[1..], i) {
      var k :| 0 <= k < |tfs[1..]| && Field(tfs[1..][k]) <= i < Field(tfs[1..][k]) + 8;
      assert tfs[k + 1] == tfs[1..][k];
    }
  }

  lemma {:induction false} WrittenWord(b: seq<byte>, out: seq<byte>, tfs: seq<Traf>, anchor: int, nominal: int, p: nat)
    requires TimesShifted(b, out, tfs, anchor, nominal) && SameUnpatched(b, out, tfs) && p + 4 <= |b|
    ensures U32(out, p) == NewWord(b, tfs, anchor, nominal, p)
  {
    hide TimesShifted, NewByte, Patched, Number;
    var w := [NewByte(b, tfs, anchor, nominal, p), NewByte(b, tfs, anchor, nominal, p + 1),
      NewByte(b, tfs, anchor, nominal, p + 2), NewByte(b, tfs, anchor, nominal, p + 3)];
    forall k | 0 <= k < 4 ensures out[p..p + 4][k] == w[k] { WrittenByte(b, out, tfs, anchor, nominal, p + k); }
    assert out[p..p + 4] == w;
  }

  /** The default duration of a traf makes the same durations when the decode times are moved. */
  predicate DurationStays(b: seq<byte>, t: Box, tfs: seq<Traf>, anchor: int, nominal: int)
    requires Body(t) <= End(t) <= |b|
  {
    UsesDefault(b, Kids(b, t)) ==>
      match DefaultAt(b, t)
      case None => true
      case Some(p) => p + 4 <= |b| ==>
        SameLength(DefaultSamples(b, Kids(b, t)), U32(b, p), NewWord(b, tfs, anchor, nominal, p))
  }

  /** It does not become zero where it is needed. */
  predicate DefaultStays(b: seq<byte>, t: Box, tfs: seq<Traf>, anchor: int, nominal: int)
    requires Body(t) <= End(t) <= |b|
  {
    UsesDefault(b, Kids(b, t)) ==>
      match DefaultAt(b, t)
      case None => true
      case Some(p) => p + 4 <= |b| ==> NewWord(b, tfs, anchor, nominal, p) != 0
  }

  predicate AllDurationsStay(b: seq<byte>, tfs: seq<Traf>, anchor: int, nominal: int) {
    forall j :: 0 <= j < |Trafs(b)| ==> DurationStays(b, Trafs(b)[j], tfs, anchor, nominal)
  }

  predicate AllDefaultsStay(b: seq<byte>, tfs: seq<Traf>, anchor: int, nominal: int) {
    forall j :: 0 <= j < |Trafs(b)| ==> DefaultStays(b, Trafs(b)[j], tfs, anchor, nominal)
  }

  lemma {:induction false} StaysIsKept(b: seq<byte>, out: seq<byte>, t: Box, tracks: Tracks, tfs: seq<Traf>,
      anchor: int, nominal: int)
    requires Body(t) <= End(t) <= |b| && Undisturbed(b, out, t, tracks)
    requires TimesShifted(b, out, tfs, anchor, nominal) && SameUnpatched(b, out, tfs)
    ensures DurationKept(b, out, t, tracks) <==> DurationStays(b, t, tfs, anchor, nominal)
    ensures DefaultUsable(b, out, t, tracks) <==> DefaultStays(b, t, tfs, anchor, nominal)
  {
    hide Undisturbed, UsesDefault, DefaultSamples, Kids, ParseTraf, TrafDefault, DefaultAt, U32, NewWord, TimesShifted,
         SameUnpatched, Times;
    TrafSameIff(b, out, t, tracks);
    match DefaultAt(b, t) {
      case None =>
      case Some(p) => WrittenWord(b, out, tfs, anchor, nominal, p);
    }
  }

  lemma {:induction false} AllStayIsKept(b: seq<byte>, out: seq<byte>, tracks: Tracks, tfs: seq<Traf>, anchor: int,
      nominal: int)
    requires Walked(b, tracks, tfs) && TimesShifted(b, out, tfs, anchor, nominal) && SameUnpatched(b, out, tfs)
    ensures DurationsKept(b, out, tracks) <==> AllDurationsStay(b, tfs, anchor, nominal)
    ensures DefaultsUsable(b, out, tracks) <==> AllDefaultsStay(b, tfs, anchor, nominal)
  {
    assert |b| == |out|;
    hide DurationKept, DurationStays, DefaultUsable, DefaultStays, Undisturbed, Trafs, Walk, TimesShifted,
         SameUnpatched, MoofsParse;
    WalkedAt(b, tracks, tfs);
    forall j | 0 <= j < |Trafs(b)|
      ensures DurationKept(b, out, Trafs(b)[j], tracks) <==> DurationStays(b, Trafs(b)[j], tfs, anchor, nominal)
      ensures DefaultUsable(b, out, Trafs(b)[j], tracks) <==> DefaultStays(b, Trafs(b)[j], tfs, anchor, nominal)
    {
      TrafIsUndisturbed(b, out, tracks, tfs, j);
      StaysIsKept(b, out, Trafs(b)[j], tracks, tfs, anchor, nominal);
    }
  }

  /**
   A moved segment is the segment with only its decode times rewritten: it has the same
   length, boxes, media data and bytes outside the eight-byte fields. Its fragments, tracks
   and durations are the same if and only if the default durations that lie inside decode
   times make the same durations with the bytes that the move writes.
   */
  lemma {:induction false} RetimeKeepsDurationsIff(b: seq<byte>, tracks: Tracks, anchor: int, nominal: int)
    requires FullTimes(b, tracks) && Retime(b, tracks, anchor, nominal).Ok?
    ensures var out := Retime(b, tracks, anchor, nominal).value;
      && Walk(b, tracks).Ok? && SameUnpatched(b, out, Walk(b, tracks).value)
      && Children(out, 0, |out|) == Children(b, 0, |b|) && Trafs(out) == Trafs(b) && MediaData(out) == MediaData(b)
      && (Walk(out, tracks) == Walk(b, tracks) <==> AllDurationsStay(b, Walk(b, tracks).value, anchor, nominal))
  {
    var tfs, out := Walk(b, tracks).value, Retime(b, tracks, anchor, nominal).value;
    hide Walk, MediaData, Trafs, MoofsParse, DurationsKept, AllDurationsStay;
    WalkInOrder(b, tracks, tfs);
    PatchMoves(b, tfs, anchor, nominal);
    MovedIsShifted(b, out, tfs, anchor, nominal);
    AllStayIsKept(b, out, tracks, tfs, anchor, nominal);
    BoxesSame(b, out, tracks, tfs);
    WalkSameIff(b, out, tracks, tfs);
    MediaDataSame(b, out, tracks, tfs);
  }

  /** Where no default duration lies inside a decode time, they are always the same. */
  lemma {:induction false} RetimeIsFramedRewrite(b: seq<byte>, tracks: Tracks, anchor: int, nominal: int)
    requires WellFormed(b, tracks) && Retime(b, tracks, anchor, nominal).Ok?
    ensures var out := Retime(b, tracks, anchor, nominal).value;
      && Walk(b, tracks).Ok? && SameUnpatched(b, out, Walk(b, tracks).value)
      && Walk(out, tracks) == Walk(b, tracks) && WellFormed(out, tracks)
      && MediaData(out) == MediaData(b)
  {
    var tfs, out := Walk(b, tracks).value, Retime(b, tracks, anchor, nominal).value;
    hide Walk, MediaData, DefaultsClear;
    WalkInOrder(b, tracks, tfs);
    PatchMoves(b, tfs, anchor, nominal);
    WalkSame(b, out, tracks, tfs);
    MediaDataSame(b, out, tracks, tfs);
  }

  /** Same tracks, and every decode time moved. */
  predicate TimesMove(fs: seq<Fragment>, fs': seq<Fragment>, anchor: int, nominal: int) {
    && |fs'| == |fs|
    && forall j :: 0 <= j < |fs| ==>
      && fs'[j].track == fs[j].track
      && fs'[j].tfdt == ShiftTime(fs[j].tfdt, fs[j].track.timescale, anchor, nominal)
  }

  predicate DurationsEqual(fs: seq<Fragment>, fs': seq<Fragment>) {
    |fs'| == |fs| && forall j :: 0 <= j < |fs| ==> fs'[j].duration == fs[j].duration
  }

  lemma {:induction false} SameTimesPatchable(b: seq<byte>, tfs: seq<Traf>, tfs': seq<Traf>, anchor: int, nominal: int)
    requires Patchable(b, tfs) && AllMove(b, tfs, anchor, nominal) && SameTimes(tfs, tfs')
    ensures Between(tfs', 0, |b|) && Roomy(tfs') && forall j :: 0 <= j < |tfs'| ==> tfs'[j].version == 1
  {
    hide NewTime;
    assert forall j :: 0 <= j < |tfs| ==> SameTime(tfs[j], tfs'[j]);
  }

  /** Whatever the durations become: the track fragments of out are those of b, their decode times moved. */
  lemma {:induction false} FragmentsMove(b: seq<byte>, out: seq<byte>, tfs: seq<Traf>, tfs': seq<Traf>, anchor: int,
      nominal: int)
    requires Patchable(b, tfs) && AllMove(b, tfs, anchor, nominal) && TimesShifted(b, out, tfs, anchor, nominal)
    requires SameTimes(tfs, tfs')
    ensures FragmentsOf(b, tfs).Ok? && FragmentsOf(out, tfs').Ok?
    ensures TimesMove(FragmentsOf(b, tfs).value, FragmentsOf(out, tfs').value, anchor, nominal)
    ensures DurationsEqual(FragmentsOf(b, tfs).value, FragmentsOf(out, tfs').value) <==> tfs == tfs'
  {
    hide NewTime, ShiftTime, InOrder, U64, FragmentsOf, Roomy, Between;
    assert forall j :: 0 <= j < |tfs| ==> SameTime(tfs[j], tfs'[j]);
    assert |out| == |b|;
    SameTimesPatchable(b, tfs, tfs', anchor, nominal);
    FragmentsOfPatchable(b, tfs);
    FragmentsOfPatchable(out, tfs');
    if DurationsEqual(FragmentsOf(b, tfs).value, FragmentsOf(out, tfs').value) {
      forall j | 0 <= j < |tfs| ensures tfs[j] == tfs'[j] {
        assert FragmentsOf(out, tfs').value[j].duration == FragmentsOf(b, tfs).value[j].duration;
      }
    }
  }

  /** What the walk over a moved segment finds. */
  lemma {:induction false} MovedIsWalked(b: seq<byte>, tracks: Tracks, tfs: seq<Traf>, anchor: int, nominal: int)
    requires FullTimes(b, tracks) && Walk(b, tracks) == Ok(tfs) && Retime(b, tracks, anchor, nominal).Ok?
    ensures Patchable(b, tfs) && AllMove(b, tfs, anchor, nominal)
    ensures var out := Retime(b, tracks, anchor, nominal).value;
      && TimesShifted(b, out, tfs, anchor, nominal)
      && (Walk(out, tracks).Ok? <==> AllDefaultsStay(b, tfs, anchor, nominal))
      && (Walk(out, tracks).Ok? ==> SameTimes(tfs, Walk(out, tracks).value))
      && (Walk(out, tracks) == Ok(tfs) <==> AllDurationsStay(b, tfs, anchor, nominal))
  {
    var out := Retime(b, tracks, anchor, nominal).value;
    hide Walk, DefaultsUsable, AllDefaultsStay, AllDurationsStay, TimesShifted, DurationsKept, Trafs, SameTimes, Patch;
    WalkInOrder(b, tracks, tfs);
    PatchMoves(b, tfs, anchor, nominal);
    MovedIsShifted(b, out, tfs, anchor, nominal);
    AllStayIsKept(b, out, tracks, tfs, anchor, nominal);
    WalkStillIff(b, out, tracks, tfs);
    WalkSameIff(b, out, tracks, tfs);
  }

  /**
   In every accepted segment every decode time moves from nominal to anchor: in the bytes,
   and in the fragments of the moved segment, which can be read unless a needed default
   became zero. They have the same durations exactly when the defaults make the same.
   */
  lemma {:induction false} RetimeMovesDecodeTimes(b: seq<byte>, tracks: Tracks, anchor: int, nominal: int)
    requires FullTimes(b, tracks) && Retime(b, tracks, anchor, nominal).Ok?
    ensures Walk(b, tracks).Ok? && Fragments(b, tracks).Ok?
    ensures var tfs, out := Walk(b, tracks).value, Retime(b, tracks, anchor, nominal).value;
      && TimesShifted(b, out, tfs, anchor, nominal)
      && (Fragments(out, tracks).Ok? <==> AllDefaultsStay(b, tfs, anchor, nominal))
      && (Fragments(out, tracks).Ok? ==>
           && TimesMove(Fragments(b, tracks).value, Fragments(out, tracks).value, anchor, nominal)
           && (DurationsEqual(Fragments(b, tracks).value, Fragments(out, tracks).value)
               <==> AllDurationsStay(b, tfs, anchor, nominal)))
  {
    hide *;
    RetimedIsWalked(b, tracks, anchor, nominal);
    var tfs, out := Walk(b, tracks).value, Retime(b, tracks, anchor, nominal).value;
    MovedIsWalked(b, tracks, tfs, anchor, nominal);
    FragmentsOfWalk(b, tracks);
    FragmentsOfWalk(out, tracks);
    SameTimesItself(tfs);
    FragmentsMove(b, out, tfs, tfs, anchor, nominal);
    if Walk(out, tracks).Ok? {
      FragmentsMove(b, out, tfs, Walk(out, tracks).value, anchor, nominal);
    }
  }

  lemma {:induction false} RetimedIsWalked(b: seq<byte>, tracks: Tracks, anchor: int, nominal: int)
    requires Retime(b, tracks, anchor, nominal).Ok?
    ensures Walk(b, tracks).Ok?
  {
    hide Walk;
  }

  lemma {:induction false} SameTimesItself(tfs: seq<Traf>)
    ensures SameTimes(tfs, tfs)
  {
  }

  lemma {:induction false} FragmentsOfWalk(b: seq<byte>, tracks: Tracks)
    ensures Walk(b, tracks).Err? ==> Fragments(b, tracks).Err?
    ensures Walk(b, tracks).Ok? ==> Fragments(b, tracks) == FragmentsOf(b, Walk(b, tracks).value)
  {
    hide Walk;
  }

  /** A segment is accepted exactly when all its decode times are 64-bit, on the grid of the file and not before the
      start. */
  lemma {:induction false} RetimeAcceptsIff(b: seq<byte>, tracks: Tracks, anchor: int, nominal: int)
    requires FullTimes(b, tracks)
    ensures Retime(b, tracks, anchor, nominal).Ok? <==>
      && Walk(b, tracks).Ok? && Patchable(b, Walk(b, tracks).value)
      && AllMove(b, Walk(b, tracks).value, anchor, nominal)
  {
    if Walk(b, tracks).Ok? {
      WalkInOrder(b, tracks, Walk(b, tracks).value);
      hide Walk, Patchable;
      PatchMoves(b, Walk(b, tracks).value, anchor, nominal);
    }
  }

  /** Every decode time of the segment is less than 2^63. */
  predicate NotNegative(b: seq<byte>, tfs: seq<Traf>)
    requires Patchable(b, tfs)
  {
    forall j :: 0 <= j < |tfs| ==> Have(b, tfs[j]) < B64 / 2
  }

  lemma {:induction false} MovedBack(b: seq<byte>, out: seq<byte>, tfs: seq<Traf>, anchor: int, nominal: int)
    requires Patchable(b, tfs) && AllMove(b, tfs, anchor, nominal) && IsMoved(b, out, tfs, anchor, nominal)
    ensures Patchable(out, tfs) && (AllMove(out, tfs, nominal, anchor) <==> NotNegative(b, tfs))
    ensures forall j :: 0 <= j < |tfs| ==>
      Moved(out, tfs[j], nominal, anchor) == if Have(b, tfs[j]) < B64 / 2 then Ok(Have(b, tfs[j])) else Err(BeforeStart)
  {
    forall j | 0 <= j < |tfs|
      ensures Moved(out, tfs[j], nominal, anchor) ==
        if Have(b, tfs[j]) < B64 / 2 then Ok(Have(b, tfs[j])) else Err(BeforeStart)
    {
      NewTimeBack(Have(b, tfs[j]), tfs[j].track.timescale, anchor, nominal);
    }
    hide NewTime;
    if AllMove(out, tfs, nominal, anchor) {
      forall j | 0 <= j < |tfs|
        ensures Have(b, tfs[j]) < B64 / 2
      {
        assert Moved(out, tfs[j], nominal, anchor).Ok?;
      }
    }
  }

  lemma {:induction false} SameBytes(a: seq<byte>, b: seq<byte>, tfs: seq<Traf>)
    requires SameUnpatched(a, b, tfs) && Patchable(a, tfs)
    requires forall j :: 0 <= j < |tfs| ==> Have(a, tfs[j]) == Have(b, tfs[j])
    ensures a == b
  {
    forall i | 0 <= i < |a|
      ensures a[i] == b[i]
    {
      if Patched(tfs, i) {
        var k :| 0 <= k < |tfs| && Field(tfs[k]) <= i < Field(tfs[k]) + 8;
        EqualHave(a, b, tfs[k]);
      }
    }
  }

  /** Patching looks only at the tracks and the places of the decode times. */
  lemma {:induction false} PatchSame(b: seq<byte>, x: seq<Traf>, y: seq<Traf>, anchor: int, nominal: int)
    requires SameTimes(x, y)
    ensures Patch(b, x, anchor, nominal) == Patch(b, y, anchor, nominal)
    decreases |x|
  {
    hide NewTime, Put64, U64;
    if x != [] {
      assert SameTime(x[0], y[0]);
      assert SameTimes(x[1..], y[1..]);
      var have := if Field(x[0]) + 8 <= |b| then U64(b, Field(x[0])) else 0;
      var r := NewTime(have, x[0].track.timescale, anchor, nominal);
      if Field(x[0]) + 8 <= |b| && r.Ok? {
        PatchSame(Put64(b, Field(x[0]), r.value), x[1..], y[1..], anchor, nominal);
      }
    }
  }

  /**
   Moving back from anchor to nominal restores the segment byte for byte if and only if no
   decode time had its top bit set and no default duration that is needed became zero;
   otherwise it is refused.
   */
  lemma {:induction false} RetimeBackIff(b: seq<byte>, tracks: Tracks, anchor: int, nominal: int)
    requires FullTimes(b, tracks) && Retime(b, tracks, anchor, nominal).Ok?
    ensures Walk(b, tracks).Ok? && Patchable(b, Walk(b, tracks).value)
    ensures var out := Retime(b, tracks, anchor, nominal).value;
      && |out| == |b|
      && var back := Retime(out, tracks, nominal, anchor);
         if NotNegative(b, Walk(b, tracks).value) && AllDefaultsStay(b, Walk(b, tracks).value, anchor, nominal)
         then back == Ok(b) else back.Err?
  {
    var tfs, out := Walk(b, tracks).value, Retime(b, tracks, anchor, nominal).value;
    hide Walk, DefaultsUsable, AllDefaultsStay, TimesShifted;
    WalkInOrder(b, tracks, tfs);
    PatchMoves(b, tfs, anchor, nominal);
    MovedIsShifted(b, out, tfs, anchor, nominal);
    AllStayIsKept(b, out, tracks, tfs, anchor, nominal);
    WalkStillIff(b, out, tracks, tfs);
    if Walk(out, tracks).Ok? {
      PatchSame(out, tfs, Walk(out, tracks).value, nominal, anchor);
      MovedBack(b, out, tfs, anchor, nominal);
      PatchMoves(out, tfs, nominal, anchor);
      if NotNegative(b, tfs) {
        var back := Patch(out, tfs, nominal, anchor).value;
        hide NewTime, InOrder, Roomy, Patch;
        SameBytes(b, back, tfs);
      }
    }
  }

  // ----- segments that follow each other -----

  /** A decode time within a quarter of a second of n ticks. */
  predicate OnGrid(have: nat, scale: nat, n: int) {
    4 * Absolute(Wrap64(Wrap64(have) - Wrap64(n))) <= scale
  }

  /** What an accepted decode time promises: it is near its place, and the new one is a valid int64. */
  lemma {:induction false} AcceptedTime(have: nat, scale: uint32, anchor: int, nominal: int)
    requires NewTime(have, scale, anchor, nominal).Ok?
    ensures OnGrid(have, scale, Ticks(nominal, scale)) && NewTime(have, scale, anchor, nominal).value < B64 / 2
  {
    hide Ticks;
  }

  /** One tick count: the next segment of a file, one second later, follows exactly. */
  lemma {:induction false} NextTimeFollows(have: nat, dur: nat, scale: uint32, anchor: int, nominal: int)
    requires have + dur < B64
    requires NewTime(have, scale, anchor, nominal).Ok? && NewTime(have + dur, scale, anchor + 1, nominal + 1).Ok?
    ensures NewTime(have + dur, scale, anchor + 1, nominal + 1).value ==
        NewTime(have, scale, anchor, nominal).value + dur
  {
    NextTicks(nominal, scale);
    hide NewTime, OnGrid, Ticks;
    AcceptedTime(have, scale, anchor, nominal);
    AcceptedTime(have + dur, scale, anchor + 1, nominal + 1);
    NewTimeShifts(have, scale, anchor, nominal);
    NewTimeShifts(have + dur, scale, anchor + 1, nominal + 1);
    FollowsModulo(have, dur, scale, Ticks(nominal, scale), Ticks(anchor - nominal, scale));
  }

  lemma {:induction false} NextTicks(nominal: int, scale: nat)
    ensures Ticks(nominal + 1, scale) == Ticks(nominal, scale) + scale
  {
  }

  lemma {:induction false} FollowsModulo(have: nat, dur: nat, scale: uint32, n: int, x: int)
    requires have + dur < B64 && (have + x) % B64 < B64 / 2
    requires OnGrid(have, scale, n) && OnGrid(have + dur, scale, n + scale)
    ensures (have + dur + x) % B64 == (have + x) % B64 + dur
  {
    hide OnGrid;
    SmallDistance(have, dur, scale, n);
    ModuloStep(have + x, dur);
  }

  lemma {:induction false} ModuloStep(x: int, dur: nat)
    requires x % B64 + dur < B64
    ensures (x + dur) % B64 == x % B64 + dur
  {
  }

  /** Two decode times that are both within a quarter of a second of neighbouring seconds are close. */
  lemma {:induction false} SmallDistance(have: nat, dur: nat, scale: uint32, n: int)
    requires have + dur < B64
    requires OnGrid(have, scale, n) && OnGrid(have + dur, scale, n + scale)
    ensures dur <= 2 * scale
  {
    hide Wrap64;
    var q0 := WrapDifference(have, n);
    var q1 := WrapDifference(have + dur, n + scale);
    var d0, d1 := Wrap64(Wrap64(have) - Wrap64(n)), Wrap64(Wrap64(have + dur) - Wrap64(n + scale));
    assert dur == (d1 - d0 + scale) + (q1 - q0) * B64;
  }

  lemma {:induction false} WrapDifference(x: int, y: int) returns (q: int)
    ensures x - y == Wrap64(Wrap64(x) - Wrap64(y)) + q * B64
  {
    q := (x - y - Wrap64(Wrap64(x) - Wrap64(y))) / B64;
  }

  /**
   Segment k + 1 of a file behind segment k: when a fragment of the file follows the one
   before it back to back, its written decode time is the one written for the other plus
   the duration that the other has in the file, if the two segments are put on neighbouring
   seconds. Whoever can read the moved segments reads these times.
   */
  lemma {:induction false} NextSegmentFollows(a: seq<byte>, b: seq<byte>, tracks: Tracks, anchor: int, nominal: int,
      i: nat, j: nat)
    requires FullTimes(a, tracks) && FullTimes(b, tracks)
    requires Retime(a, tracks, anchor, nominal).Ok? && Retime(b, tracks, anchor + 1, nominal + 1).Ok?
    requires Follows(a, b, tracks, i, j)
    ensures var a', b' := Retime(a, tracks, anchor, nominal).value, Retime(b, tracks, anchor + 1, nominal + 1).value;
      FollowsOnTimeline(a, a', b, b', tracks, i, j)
  {
    hide FullTimes, Retime, Fragments, NewTime, Written;
    var f, g := Fragments(a, tracks).value[i], Fragments(b, tracks).value[j];
    FragmentMoves(a, tracks, anchor, nominal, i);
    FragmentMoves(b, tracks, anchor + 1, nominal + 1, j);
    NextTimeFollows(f.tfdt, f.duration, f.track.timescale, anchor, nominal);
  }

  /** Fragment j of b starts where fragment i of a ends. */
  predicate Follows(a: seq<byte>, b: seq<byte>, tracks: Tracks, i: nat, j: nat) {
    var fs, gs := Fragments(a, tracks), Fragments(b, tracks);
    && fs.Ok? && gs.Ok? && i < |fs.value| && j < |gs.value|
    && gs.value[j].track == fs.value[i].track && gs.value[j].tfdt == fs.value[i].tfdt + fs.value[i].duration
  }

  /** What a moved segment has in the place of the j-th decode time of the segment. */
  function Written(b: seq<byte>, b': seq<byte>, tracks: Tracks, j: nat): Option<nat> {
    match Walk(b, tracks)
    case Err(_) => None
    case Ok(tfs) => if j < |tfs| && Field(tfs[j]) + 8 <= |b'| then Some(Have(b', tfs[j])) else None
  }

  /** Fragment j of the segment b is written to b' with the decode time t, and whoever can read b' reads it. */
  predicate Starts(b: seq<byte>, b': seq<byte>, tracks: Tracks, j: nat, t: int) {
    && Written(b, b', tracks, j).Some? && Written(b, b', tracks, j).value == t
    && (Fragments(b', tracks).Ok? ==> j < |Fragments(b', tracks).value| && Fragments(b', tracks).value[j].tfdt == t)
  }

  /** a' and b' are written so that fragment j of b starts where fragment i of a ends, by its duration in a. */
  predicate FollowsOnTimeline(a: seq<byte>, a': seq<byte>, b: seq<byte>, b': seq<byte>, tracks: Tracks, i: nat, j: nat)
    requires Follows(a, b, tracks, i, j)
  {
    var t := Written(a, a', tracks, i);
    t.Some? && Starts(a, a', tracks, i, t.value)
      && Starts(b, b', tracks, j, t.value + Fragments(a, tracks).value[i].duration)
  }

  /** Each fragment of an accepted segment has an accepted decode time. */
  lemma {:induction false} FragmentMoves(b: seq<byte>, tracks: Tracks, anchor: int, nominal: int, j: nat)
    requires FullTimes(b, tracks) && Retime(b, tracks, anchor, nominal).Ok?
    requires Fragments(b, tracks).Ok? && j < |Fragments(b, tracks).value|
    ensures var f := Fragments(b, tracks).value[j];
      && f.tfdt < B64 && NewTime(f.tfdt, f.track.timescale, anchor, nominal).Ok?
      && Starts(b, Retime(b, tracks, anchor, nominal).value, tracks, j,
                NewTime(f.tfdt, f.track.timescale, anchor, nominal).value)
  {
    hide NewTime, Walk, AllDefaultsStay, AllDurationsStay, DurationsEqual, ShiftTime;
    var tfs := Walk(b, tracks).value;
    WalkInOrder(b, tracks, tfs);
    PatchMoves(b, tfs, anchor, nominal);
    FragmentsOfPatchable(b, tfs);
    RetimeMovesDecodeTimes(b, tracks, anchor, nominal);
    hide FragmentsOf, Patch;
    assert Moved(b, tfs[j], anchor, nominal).Ok?;
    NewTimeShifts(Have(b, tfs[j]), tfs[j].track.timescale, anchor, nominal);
  }
}
