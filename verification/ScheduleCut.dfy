/**
 What a skip does to the air: the rest of the running entry is cut out, the entries back
 to back behind it move forward, the time they leave behind is empty, and everything
 behind the first gap stays where it was. And when a skip undoes an insert.
 */
module ScheduleCut {
  import opened Common
  import opened Schedule

  /** How many entries follow back to back from a moment on, and when the last of them ends. */
  function ChainLength(es: seq<Entry>, from: int): (c: nat)
    ensures c <= |es|
  {
    if es != [] && es[0].start == from then 1 + ChainLength(es[1..], End(es[0])) else 0
  }

  function ChainEnd(es: seq<Entry>, from: int): int {
    if es != [] && es[0].start == from then ChainEnd(es[1..], End(es[0])) else from
  }

  function Advance(es: seq<Entry>, p: int): (r: seq<Entry>)
    ensures |r| == |es|
  {
    if es == [] then [] else [es[0].(start := es[0].start - p)] + Advance(es[1..], p)
  }

  lemma {:induction false} AdvanceElements(es: seq<Entry>, p: int)
    ensures forall i :: 0 <= i < |es| ==> Advance(es, p)[i] == es[i].(start := es[i].start - p)
  {
    if es != [] {
      AdvanceElements(es[1..], p);
    }
  }

  lemma {:induction false} PulledUnchained(es: seq<Entry>, from: int, p: int)
    ensures Pulled(es, from, false, p) == es
  {
    if es != [] {
      PulledUnchained(es[1..], from, p);
    }
  }

  lemma {:induction false} PulledIsChain(es: seq<Entry>, from: int, p: int)
    ensures var c := ChainLength(es, from); Pulled(es, from, true, p) == Advance(es[..c], p) + es[c..]
  {
    if es != [] {
      if es[0].start == from {
        var rest, c := es[1..], ChainLength(es[1..], End(es[0]));
        PulledIsChain(rest, End(es[0]), p);
        assert es[..c + 1][1..] == rest[..c] && es[c + 1..] == rest[c..];
      } else {
        PulledUnchained(es[1..], from, p);
        assert Advance(es[..0], p) == [];
      }
    }
  }

  lemma {:induction false} RestStartsLater(es: seq<Entry>)
    requires es != [] && Disjoint(es)
    ensures Disjoint(es[1..]) && StartsFrom(es[1..], End(es[0]))
  {
  }

  /** A chain fills the time from its start to its end; what follows it begins later. */
  lemma {:induction false} ChainFills(es: seq<Entry>, from: int)
    requires Disjoint(es) && StartsFrom(es, from)
    ensures var c, ce := ChainLength(es, from), ChainEnd(es, from);
      && from <= ce && StartsFrom(es[..c], from) && EndsBy(es[..c], ce) && StartsFrom(es[c..], ce)
      && (c < |es| ==> ce < es[c].start)
  {
    if es != [] && es[0].start == from {
      var rest := es[1..];
      RestStartsLater(es);
      ChainFills(rest, End(es[0]));
      var c := ChainLength(rest, End(es[0]));
      hide Disjoint;
      assert es[..c + 1] == [es[0]] + rest[..c] && es[c + 1..] == rest[c..];
    } else if es != [] {
      FirstIsEarliest(es);
    }
  }

  lemma {:induction false} FirstIsEarliest(es: seq<Entry>)
    requires es != [] && Disjoint(es)
    ensures StartsFrom(es, es[0].start)
  {
    forall i | 0 <= i < |es|
      ensures es[0].start <= es[i].start
    {
      if 0 < i {
        assert End(es[0]) <= es[i].start;
      }
    }
  }

  lemma {:induction false} LatestEndIsLast(es: seq<Entry>, to: int)
    requires Disjoint(es) && StartsFrom(es, to)
    ensures to <= LatestEnd(es, to) && EndsBy(es, LatestEnd(es, to))
  {
    if es != [] {
      LatestEndIsLast(es[1..], End(es[0]));
      assert es == [es[0]] + es[1..];
    }
  }

  lemma {:induction false} AdvanceAir(es: seq<Entry>, p: int, n: int)
    ensures Air(Advance(es, p), n) == Air(es, n + p)
  {
    if es != [] {
      AdvanceAir(es[1..], p, n);
      assert Advance(es, p)[1..] == Advance(es[1..], p);
    }
  }

  lemma {:induction false} AdvanceSeconds(es: seq<Entry>, p: int)
    ensures Seconds(Advance(es, p)) == Seconds(es)
  {
    if es != [] {
      AdvanceSeconds(es[1..], p);
      assert Advance(es, p)[1..] == Advance(es[1..], p);
    }
  }

  // ----- the table in its parts: over, on the air, back to back behind it, and the rest -----

  predicate Parts(pre: seq<Entry>, cur: Entry, chain: seq<Entry>, other: seq<Entry>, at: int, ce: int) {
    && Disjoint(pre) && EndsBy(pre, cur.start) && cur.start <= at < End(cur)
    && Disjoint(chain) && StartsFrom(chain, End(cur)) && EndsBy(chain, ce) && End(cur) <= ce
    && Disjoint(other) && StartsFrom(other, ce)
  }

  function Whole(pre: seq<Entry>, cur: Entry, chain: seq<Entry>, other: seq<Entry>): seq<Entry> {
    pre + ([cur] + (chain + other))
  }

  /** The table that a skip leaves behind. */
  function Cut(pre: seq<Entry>, cur: Entry, chain: seq<Entry>, other: seq<Entry>, at: int): seq<Entry> {
    (pre + Shortened(cur, at)) + (Advance(chain, End(cur) - at) + other)
  }

  lemma {:induction false} CutIsDisjoint(pre: seq<Entry>, cur: Entry, chain: seq<Entry>, other: seq<Entry>, at: int,
      ce: int)
    requires Parts(pre, cur, chain, other, at, ce)
    ensures Disjoint(Cut(pre, cur, chain, other, at))
  {
    var p := End(cur) - at;
    var a, b := pre + Shortened(cur, at), Advance(chain, p);
    AdvanceElements(chain, p);
    DisjointJoin(pre, Shortened(cur, at), cur.start);
    DisjointJoin(b, other, ce - p);
    DisjointJoin(a, b + other, at);
  }

  /** What is on the air when the time from at to the end of the entry there is cut out of a chain that ends at ce. */
  function CutAir(t: seq<Entry>, at: int, p: int, ce: int, n: int): Option<Shown> {
    if n < at then Air(t, n)
    else if n < ce - p then Air(t, n + p)
    else if n < ce then None
    else Air(t, n)
  }

  lemma {:induction false} AirOfWhole(pre: seq<Entry>, cur: Entry, chain: seq<Entry>, other: seq<Entry>, at: int,
      ce: int, n: int)
    requires Parts(pre, cur, chain, other, at, ce)
    ensures Air(Whole(pre, cur, chain, other), n) ==
      if n < End(cur) then Air(pre + [cur], n) else if n < ce then Air(chain, n) else Air(other, n)
  {
    var rest := chain + other;
    assert pre + ([cur] + rest) == (pre + [cur]) + rest;
    AirConcat(pre + [cur], rest, n);
    AirConcat(chain, other, n);
    if n < End(cur) {
      AirOfNothing(rest, n);
    } else {
      AirOfNothing(pre + [cur], n);
      if n < ce {
        AirOfNothing(other, n);
      } else {
        AirOfNothing(chain, n);
      }
    }
  }

  lemma {:induction false} AirOfShortened(pre: seq<Entry>, cur: Entry, at: int, n: int)
    requires n < at < End(cur)
    ensures Air(pre + Shortened(cur, at), n) == Air(pre + [cur], n)
  {
    AirConcat(pre, Shortened(cur, at), n);
    AirConcat(pre, [cur], n);
  }

  lemma {:induction false} AirBeforeCut(pre: seq<Entry>, cur: Entry, chain: seq<Entry>, other: seq<Entry>, at: int,
      ce: int, n: int)
    requires Parts(pre, cur, chain, other, at, ce) && n < at
    ensures Air(Cut(pre, cur, chain, other, at), n) == Air(pre + [cur], n)
  {
    var a, b := pre + Shortened(cur, at), Advance(chain, End(cur) - at);
    AirConcat(a, b + other, n);
    AirConcat(b, other, n);
    AirOfShortened(pre, cur, at, n);
    AdvanceElements(chain, End(cur) - at);
    AirOfNothing(b, n);
    AirOfNothing(other, n);
  }

  lemma {:induction false} AirAfterCut(pre: seq<Entry>, cur: Entry, chain: seq<Entry>, other: seq<Entry>, at: int,
      ce: int, n: int)
    requires Parts(pre, cur, chain, other, at, ce) && at <= n
    ensures var p := End(cur) - at;
      Air(Cut(pre, cur, chain, other, at), n) ==
        if n < ce - p then Air(chain, n + p) else if n < ce then None else Air(other, n)
  {
    var p := End(cur) - at;
    var a, b := pre + Shortened(cur, at), Advance(chain, p);
    AirConcat(a, b + other, n);
    AirConcat(b, other, n);
    AirOfNothing(a, n);
    AdvanceAir(chain, p, n);
    if n < ce {
      AirOfNothing(other, n);
    }
    if ce - p <= n {
      AdvanceElements(chain, p);
      AirOfNothing(b, n);
    }
  }

  lemma {:induction false} AirOfCut(pre: seq<Entry>, cur: Entry, chain: seq<Entry>, other: seq<Entry>, at: int,
      ce: int, n: int)
    requires Parts(pre, cur, chain, other, at, ce)
    ensures Air(Cut(pre, cur, chain, other, at), n) == CutAir(Whole(pre, cur, chain, other), at, End(cur) - at, ce, n)
  {
    if n < at {
      AirBeforeCut(pre, cur, chain, other, at, ce, n);
    } else {
      AirAfterCut(pre, cur, chain, other, at, ce, n);
    }
    AirOfWhole(pre, cur, chain, other, at, ce, n);
    AirOfWhole(pre, cur, chain, other, at, ce, n + (End(cur) - at));
    assert at < End(cur) <= ce;
    hide Whole, Cut, Air, Parts;
  }

  lemma {:induction false} CutSeconds(pre: seq<Entry>, cur: Entry, chain: seq<Entry>, other: seq<Entry>, at: int)
    requires cur.start <= at
    ensures Seconds(Cut(pre, cur, chain, other, at)) == Seconds(Whole(pre, cur, chain, other)) - (End(cur) - at)
  {
    var p := End(cur) - at;
    SecondsConcat(pre, [cur] + (chain + other));
    SecondsConcat([cur], chain + other);
    SecondsConcat(chain, other);
    SecondsConcat(pre + Shortened(cur, at), Advance(chain, p) + other);
    SecondsConcat(pre, Shortened(cur, at));
    SecondsConcat(Advance(chain, p), other);
    AdvanceSeconds(chain, p);
  }

  // ----- a skip is a cut -----

  /** The parts of a table at a moment when something is on the air. */
  function Before(t: seq<Entry>, at: int): seq<Entry> { t[..OnAir(t, at)] }

  function Current(t: seq<Entry>, at: int): Entry
    requires OnAir(t, at) < |t|
  {
    t[OnAir(t, at)]
  }

  function Behind(t: seq<Entry>, at: int): seq<Entry>
    requires OnAir(t, at) < |t|
  {
    t[OnAir(t, at) + 1..]
  }

  function Chain(t: seq<Entry>, at: int): seq<Entry>
    requires OnAir(t, at) < |t|
  {
    Behind(t, at)[..ChainLength(Behind(t, at), End(Current(t, at)))]
  }

  function Other(t: seq<Entry>, at: int): seq<Entry>
    requires OnAir(t, at) < |t|
  {
    Behind(t, at)[ChainLength(Behind(t, at), End(Current(t, at)))..]
  }

  /** The end of the chain, and how much is skipped. */
  function EndOfChain(t: seq<Entry>, at: int): int
    requires OnAir(t, at) < |t|
  {
    ChainEnd(Behind(t, at), End(Current(t, at)))
  }

  function Remainder(t: seq<Entry>, at: int): int
    requires OnAir(t, at) < |t|
  {
    End(Current(t, at)) - at
  }

  /** The table that a skip leaves behind. */
  function Skipped(t: seq<Entry>, at: int): seq<Entry>
    requires OnAir(t, at) < |t|
  {
    Cut(Before(t, at), Current(t, at), Chain(t, at), Other(t, at), at)
  }

  lemma {:induction false} OnAirCovers(t: seq<Entry>, at: int)
    requires OnAir(t, at) < |t|
    ensures Covers(t[OnAir(t, at)], at)
  {
    if !Covers(t[0], at) {
      OnAirCovers(t[1..], at);
    }
  }

  lemma {:induction false} SplitAt(t: seq<Entry>, k: nat)
    requires Disjoint(t) && k < |t|
    ensures Disjoint(t[..k]) && EndsBy(t[..k], t[k].start)
    ensures Disjoint(t[k + 1..]) && StartsFrom(t[k + 1..], End(t[k]))
  {
  }

  lemma {:induction false} SplitList(t: seq<Entry>, c: nat)
    requires Disjoint(t) && c <= |t|
    ensures Disjoint(t[..c]) && Disjoint(t[c..])
  {
  }

  lemma {:induction false} SkipParts(t: seq<Entry>, at: int)
    requires Disjoint(t) && OnAir(t, at) < |t|
    ensures Parts(Before(t, at), Current(t, at), Chain(t, at), Other(t, at), at, EndOfChain(t, at))
    ensures Other(t, at) != [] ==> EndOfChain(t, at) < Other(t, at)[0].start
  {
    OnAirCovers(t, at);
    SplitAt(t, OnAir(t, at));
    hide Disjoint;
    ChainFills(Behind(t, at), End(Current(t, at)));
    SplitList(Behind(t, at), ChainLength(Behind(t, at), End(Current(t, at))));
    hide EndsBy, StartsFrom, ChainEnd, ChainLength, OnAir;
  }

  lemma {:induction false} SkipWhole(t: seq<Entry>, at: int)
    requires OnAir(t, at) < |t|
    ensures Behind(t, at) == Chain(t, at) + Other(t, at)
    ensures t == Before(t, at) + ([Current(t, at)] + Behind(t, at))
    ensures t == Whole(Before(t, at), Current(t, at), Chain(t, at), Other(t, at))
  {
    hide OnAir, ChainLength;
    assert Behind(t, at) == Chain(t, at) + Other(t, at);
    assert t == Before(t, at) + ([Current(t, at)] + Behind(t, at));
  }

  lemma {:induction false} SkipEdit(t: seq<Entry>, at: int)
    requires OnAir(t, at) < |t|
    ensures Skip(t, at).Ok?
    ensures var ed := Skip(t, at).value;
      && ed.from == Current(t, at).start && ed.to == LatestEnd(Behind(t, at), End(Current(t, at)))
      && ed.entries == Shortened(Current(t, at), at) + (Advance(Chain(t, at), Remainder(t, at)) + Other(t, at))
  {
    PulledIsChain(Behind(t, at), End(Current(t, at)), Remainder(t, at));
    hide OnAir, ChainLength, Shortened, Pulled, LatestEnd;
  }

  /** The window of the edit takes the running entry and every row behind it. */
  lemma {:induction false} SkipWindow(cur: Entry, rest: seq<Entry>)
    requires 0 < cur.dur && Disjoint(rest) && StartsFrom(rest, End(cur))
    ensures forall e :: e in [cur] + rest ==> cur.start <= e.start < LatestEnd(rest, End(cur))
  {
    LatestEndIsLast(rest, End(cur));
    hide LatestEnd;
    forall i | 0 <= i < |rest|
      ensures cur.start <= rest[i].start < LatestEnd(rest, End(cur))
    {
      assert End(rest[i]) <= LatestEnd(rest, End(cur));
    }
  }

  /** An edit that replaces everything from cur on by the cut table. */
  lemma {:induction false} CutApplies(pre: seq<Entry>, cur: Entry, chain: seq<Entry>, other: seq<Entry>, at: int,
      ce: int, ed: Edit)
    requires Parts(pre, cur, chain, other, at, ce)
    requires ed.from == cur.start && ed.entries == Shortened(cur, at) + (Advance(chain, End(cur) - at) + other)
    requires forall e :: e in [cur] + (chain + other) ==> ed.from <= e.start < ed.to
    ensures Replace(Whole(pre, cur, chain, other), ed) == Some(Cut(pre, cur, chain, other, at))
    ensures Disjoint(Cut(pre, cur, chain, other, at))
  {
    CutIsDisjoint(pre, cur, chain, other, at, ce);
    DisjointIsKeyed(Cut(pre, cur, chain, other, at));
    var gone := [cur] + (chain + other);
    assert pre + ed.entries == Cut(pre, cur, chain, other, at);
    forall i | 0 <= i < |pre|
      ensures pre[i].start < ed.from
    {
      assert End(pre[i]) <= cur.start;
    }
    hide Shortened, Cut, Parts, Disjoint;
    ReplaceEnd(pre, gone, ed);
  }

  lemma {:induction false} SkipWindowAt(t: seq<Entry>, at: int)
    requires Disjoint(t) && OnAir(t, at) < |t|
    ensures Skip(t, at).Ok?
    ensures var ed := Skip(t, at).value;
      forall e :: e in [Current(t, at)] + (Chain(t, at) + Other(t, at)) ==> ed.from <= e.start < ed.to
  {
    hide Skip, LatestEnd, Disjoint, StartsFrom, OnAir, Chain, Other;
    OnAirCovers(t, at);
    SplitAt(t, OnAir(t, at));
    SkipEdit(t, at);
    var cur, behind := Current(t, at), Behind(t, at);
    SkipWindow(cur, behind);
    assert behind == Chain(t, at) + Other(t, at) by {
      SkipWhole(t, at);
    }
  }

  lemma {:induction false} SkipApplies(t: seq<Entry>, at: int)
    requires Disjoint(t) && OnAir(t, at) < |t|
    ensures Skip(t, at).Ok? && Replace(t, Skip(t, at).value) == Some(Skipped(t, at)) && Disjoint(Skipped(t, at))
  {
    hide Whole, Parts, Cut, Disjoint, Replace, Chain, Other, Before, Behind, Current, EndOfChain, Skip, OnAir;
    SkipParts(t, at);
    SkipEdit(t, at);
    SkipWindowAt(t, at);
    assert t == Whole(Before(t, at), Current(t, at), Chain(t, at), Other(t, at)) by {
      SkipWhole(t, at);
    }
    CutApplies(Before(t, at), Current(t, at), Chain(t, at), Other(t, at), at, EndOfChain(t, at), Skip(t, at).value);
  }

  lemma {:induction false} SkipAirsAt(t: seq<Entry>, at: int, n: int)
    requires Disjoint(t) && OnAir(t, at) < |t|
    ensures Air(Skipped(t, at), n) == CutAir(t, at, Remainder(t, at), EndOfChain(t, at), n)
  {
    hide Whole, Cut, Air, CutAir, Parts, Disjoint, OnAir, Before, Current, Behind, Chain, Other, EndOfChain;
    SkipParts(t, at);
    assert t == Whole(Before(t, at), Current(t, at), Chain(t, at), Other(t, at)) by {
      SkipWhole(t, at);
    }
    AirOfCut(Before(t, at), Current(t, at), Chain(t, at), Other(t, at), at, EndOfChain(t, at), n);
  }

  /**
   Skipping is a cut: on every table in order where something is on the air the edit
   applies, keeps the order, takes exactly the rest of the running entry away, and airs
   the chain behind it that much earlier, nothing in the time the chain leaves behind,
   and everything else unchanged.
   */
  lemma {:induction false} SkipRefinesCut(t: seq<Entry>, at: int)
    requires Disjoint(t)
    ensures Skip(t, at).Ok? <==> Air(t, at).Some?
    ensures Skip(t, at).Ok? ==>
      && Replace(t, Skip(t, at).value) == Some(Skipped(t, at))
      && Disjoint(Skipped(t, at))
      && 0 < Remainder(t, at) && Seconds(Skipped(t, at)) == Seconds(t) - Remainder(t, at)
      && forall n :: Air(Skipped(t, at), n) == CutAir(t, at, Remainder(t, at), EndOfChain(t, at), n)
  {
    OnAirIffAir(t, at);
    if Skip(t, at).Ok? {
      OnAirCovers(t, at);
      SkipWhole(t, at);
      CutSeconds(Before(t, at), Current(t, at), Chain(t, at), Other(t, at), at);
      hide Whole, Cut, Air, CutAir, Disjoint, Before, Chain, Other, EndOfChain, Replace, Seconds;
      SkipApplies(t, at);
      forall n
        ensures Air(Skipped(t, at), n) == CutAir(t, at, Remainder(t, at), EndOfChain(t, at), n)
      {
        SkipAirsAt(t, at, n);
      }
    }
  }

  lemma {:induction false} OnAirIffAir(t: seq<Entry>, at: int)
    ensures OnAir(t, at) < |t| <==> Air(t, at).Some?
  {
    if t != [] && !Covers(t[0], at) {
      OnAirIffAir(t[1..], at);
    }
  }

  // ----- when a skip undoes an insert -----

  lemma {:induction false} ChainIsCovered(es: seq<Entry>, from: int, n: int)
    requires Disjoint(es) && StartsFrom(es, from)
    ensures from <= n < ChainEnd(es, from) ==> Air(es, n).Some?
    ensures n == ChainEnd(es, from) ==> Air(es, n) == None
  {
    if es != [] {
      if es[0].start == from {
        RestStartsLater(es);
        ChainIsCovered(es[1..], End(es[0]), n);
        ChainFills(es[1..], End(es[0]));
      } else if n == from {
        FirstIsEarliest(es);
        AirOfNothing(es, n);
      }
    }
  }

  /** The chain has no gap, and it ends at one. */
  lemma {:induction false} ChainEndsAtGap(t: seq<Entry>, at: int, n: int)
    requires Disjoint(t) && OnAir(t, at) < |t| && at <= n
    ensures n < EndOfChain(t, at) ==> Air(t, n).Some?
    ensures Air(t, EndOfChain(t, at)) == None
    ensures at < EndOfChain(t, at)
  {
    OnAirCovers(t, at);
    SplitAt(t, OnAir(t, at));
    ChainBehind(Before(t, at), Current(t, at), Behind(t, at), at, n);
    hide ChainEnd, Air, Disjoint, OnAir, EndsBy, StartsFrom;
    assert t == (Before(t, at) + [Current(t, at)]) + Behind(t, at);
  }

  lemma {:induction false} ChainBehind(pre: seq<Entry>, cur: Entry, rest: seq<Entry>, at: int, n: int)
    requires EndsBy(pre, cur.start) && Covers(cur, at) && at <= n
    requires Disjoint(rest) && StartsFrom(rest, End(cur))
    ensures var t, ce := (pre + [cur]) + rest, ChainEnd(rest, End(cur));
      && at < ce && Air(t, ce) == None && (n < ce ==> Air(t, n).Some?)
  {
    ChainFills(rest, End(cur));
    ChainIsCovered(rest, End(cur), n);
    ChainIsCovered(rest, End(cur), ChainEnd(rest, End(cur)));
    ShowsBehind(pre, cur, rest, at, n);
    ShowsBehind(pre, cur, rest, at, ChainEnd(rest, End(cur)));
  }

  lemma {:induction false} ShowsBehind(pre: seq<Entry>, cur: Entry, rest: seq<Entry>, at: int, n: int)
    requires EndsBy(pre, at) && Covers(cur, at) && at <= n
    ensures Air((pre + [cur]) + rest, n) == if n < End(cur) then Some(Show(cur, n)) else Air(rest, n)
  {
    AirConcat(pre + [cur], rest, n);
    AirConcat(pre, [cur], n);
    AirOfNothing(pre, n);
  }

  lemma {:induction false} OnAirConcat(a: seq<Entry>, b: seq<Entry>, at: int)
    requires EndsBy(a, at)
    ensures OnAir(a + b, at) == |a| + OnAir(b, at)
  {
    if a == [] {
      assert a + b == b;
    } else {
      assert (a + b)[1..] == a[1..] + b && (a + b)[0] == a[0];
      OnAirConcat(a[1..], b, at);
    }
  }

  /** Right after an insert the new entry is on the air. */
  lemma {:induction false} InsertedIsOnAir(t: seq<Entry>, at: int, ins: Entry)
    requires Disjoint(t) && 0 < ins.dur
    ensures var r := Inserted(t, at, ins); OnAir(r, at) < |r| && Current(r, at) == ins.(start := at)
  {
    SplitTable(t, at);
    hide Disjoint, Split, InsertedEntries, OnAir;
    OnAirOfInserted(t[..Ended(t, at)], t[Ended(t, at)..], at, ins);
  }

  lemma {:induction false} OnAirOfInserted(pre: seq<Entry>, live: seq<Entry>, at: int, ins: Entry)
    requires Split(pre, live, at) && 0 < ins.dur
    ensures var r := pre + InsertedEntries(live, at, ins); OnAir(r, at) < |r| && r[OnAir(r, at)] == ins.(start := at)
  {
    HeadsInOrder(pre, live, at, ins);
    hide Heads, Tails, Disjoint, Split, OnAir;
    var before, added, after := pre + Heads(live, at), ins.(start := at), Tails(live, at, ins.dur);
    assert pre + InsertedEntries(live, at, ins) == before + ([added] + after);
    FirstAfterEnded(before, added, after, at);
  }

  lemma {:induction false} FirstAfterEnded(a: seq<Entry>, e: Entry, b: seq<Entry>, at: int)
    requires EndsBy(a, at) && Covers(e, at)
    ensures var r := a + ([e] + b); OnAir(r, at) == |a| < |r| && r[|a|] == e
  {
    OnAirConcat(a, [e] + b, at);
  }

  lemma {:induction false} InsertedAirAt(t: seq<Entry>, at: int, ins: Entry, n: int)
    requires Disjoint(t) && InsertShift(t, at, ins).Ok?
    ensures Disjoint(Inserted(t, at, ins)) && 0 < ins.dur
    ensures Air(Inserted(t, at, ins), n) == SplicedAir(t, at, ins, n)
  {
    InsertRefinesSplice(t, at, ins);
  }

  /** The end of the last entry. */
  function Horizon(t: seq<Entry>): int
    requires t != []
  {
    End(t[|t| - 1])
  }

  /** Something is on the air at every second from at to the end of the schedule. */
  ghost predicate NoGapFrom(t: seq<Entry>, at: int) {
    t == [] || forall n :: at <= n < Horizon(t) ==> Air(t, n).Some?
  }

  lemma {:induction false} AirStopsAtHorizon(t: seq<Entry>, n: int)
    requires Disjoint(t)
    ensures Air(t, n).Some? ==> t != [] && n < Horizon(t)
    ensures t != [] ==> Air(t, Horizon(t) - 1).Some?
  {
    if t != [] {
      var h, last := Horizon(t), |t| - 1;
      assert EndsBy(t, h) by {
        forall i | 0 <= i < |t|
          ensures End(t[i]) <= h
        {
          if i < last {
            assert End(t[i]) <= t[last].start;
          }
        }
      }
      if h <= n {
        AirOfNothing(t, n);
      }
      assert t == t[..last] + [t[last]];
      AirConcat(t[..last], [t[last]], h - 1);
    }
  }

  /** When the chain of the shifted programme ends, counted in the seconds of the old table. */
  function GapAfter(t: seq<Entry>, at: int, ins: Entry): int
    requires OnAir(Inserted(t, at, ins), at) < |Inserted(t, at, ins)|
  {
    EndOfChain(Inserted(t, at, ins), at) - ins.dur
  }

  lemma {:induction false} GapAfterIsGap(t: seq<Entry>, at: int, ins: Entry, n: int)
    requires Disjoint(t) && InsertShift(t, at, ins).Ok? && at <= n
    ensures OnAir(Inserted(t, at, ins), at) < |Inserted(t, at, ins)|
    ensures at <= GapAfter(t, at, ins) && Air(t, GapAfter(t, at, ins)) == None
    ensures n < GapAfter(t, at, ins) ==> Air(t, n).Some?
  {
    hide Disjoint, Inserted, OnAir, InsertShift, EndOfChain, Current, Air;
    var r, d := Inserted(t, at, ins), ins.dur;
    InsertedAirAt(t, at, ins, n + d);
    InsertedIsOnAir(t, at, ins);
    var ce := EndOfChain(r, at);
    InsertedAirAt(t, at, ins, ce);
    ChainEndsAtGap(r, at, n + d);
  }

  /** The air after inserting ins at a moment and skipping it at once. */
  lemma {:induction false} AirAfterBoth(t: seq<Entry>, at: int, ins: Entry, n: int)
    requires Disjoint(t) && InsertShift(t, at, ins).Ok?
    ensures OnAir(Inserted(t, at, ins), at) < |Inserted(t, at, ins)|
    ensures var e := GapAfter(t, at, ins);
      Air(Skipped(Inserted(t, at, ins), at), n) ==
        if n < e then Air(t, n) else if n < e + ins.dur then None else Air(t, n - ins.dur)
  {
    hide Disjoint, Inserted, OnAir, InsertShift, Skipped, EndOfChain, Current, Air;
    var r, d := Inserted(t, at, ins), ins.dur;
    InsertedAirAt(t, at, ins, n);
    InsertedAirAt(t, at, ins, n + d);
    InsertedIsOnAir(t, at, ins);
    GapAfterIsGap(t, at, ins, at);
    SkipAirsAt(r, at, n);
  }

  lemma {:induction false} NoGapRestores(t: seq<Entry>, at: int, ins: Entry, n: int)
    requires Disjoint(t) && InsertShift(t, at, ins).Ok? && NoGapFrom(t, at)
    ensures OnAir(Inserted(t, at, ins), at) < |Inserted(t, at, ins)|
    ensures Air(Skipped(Inserted(t, at, ins), at), n) == Air(t, n)
  {
    hide Inserted, Skipped, EndOfChain, Disjoint, OnAir, Air, Horizon;
    AirAfterBoth(t, at, ins, n);
    GapAfterIsGap(t, at, ins, at);
    AirStopsAtHorizon(t, n);
    AirStopsAtHorizon(t, n - ins.dur);
  }

  /** Skipping right after an insert restores the air exactly when there was no gap from that moment on. */
  lemma {:induction false} SkipUndoesInsertIffNoGap(t: seq<Entry>, at: int, ins: Entry)
    requires Disjoint(t) && InsertShift(t, at, ins).Ok?
    ensures OnAir(Inserted(t, at, ins), at) < |Inserted(t, at, ins)|
    ensures (forall n :: Air(Skipped(Inserted(t, at, ins), at), n) == Air(t, n)) <==> NoGapFrom(t, at)
  {
    hide Inserted, Skipped, EndOfChain, Disjoint, OnAir, Air, Horizon;
    GapAfterIsGap(t, at, ins, at);
    if NoGapFrom(t, at) {
      forall n
        ensures Air(Skipped(Inserted(t, at, ins), at), n) == Air(t, n)
      {
        NoGapRestores(t, at, ins, n);
      }
    } else {
      var h, d := Horizon(t), ins.dur;
      AirStopsAtHorizon(t, h - 1);
      AirStopsAtHorizon(t, h - 1 + d);
      AirAfterBoth(t, at, ins, h - 1 + d);
      var n :| at <= n < h && Air(t, n) == None;
      GapAfterIsGap(t, at, ins, n);
      assert Air(Skipped(Inserted(t, at, ins), at), h - 1 + d) != Air(t, h - 1 + d);
    }
  }

  /** Two films with ten free seconds between them: a slate inserted into the first one and skipped moves the second. */
  lemma {:induction false} GapIsNotRestored(film: Entry, ins: Entry)
    requires film == Entry(Content, "film", "film.m3u8", 100, 10, 0, "", "")
    requires ins == Entry(Slate, "", "", 0, 5, 0, "", "")
    ensures var t := [film, film.(start := 120)];
      && Disjoint(t) && InsertShift(t, 105, ins).Ok?
      && OnAir(Inserted(t, 105, ins), 105) < |Inserted(t, 105, ins)|
      && exists n :: Air(Skipped(Inserted(t, 105, ins), 105), n) != Air(t, n)
  {
    var t := [film, film.(start := 120)];
    assert t[1..] == [t[1]] && t[1..][1..] == [];
    assert Horizon(t) == 130;
    assert Air(t, 115) == None by { AirOfNothing(t, 115); }
    hide Inserted, Skipped, Air, OnAir, Horizon, InsertedEntries;
    SkipUndoesInsertIffNoGap(t, 105, ins);
  }
}
