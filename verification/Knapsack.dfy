/**
 The choice of creatives for an ad break: each at most once, the largest sum of
 durations not above a limit, and the fewest creatives for that sum. The program
 fills one table in place and walks back through the marks it left.
 */
module Knapsack {
  import opened Sorting

  datatype Creative = Creative(
    id: string, kind: string, category: seq<string>, duration: int, uri: string, active: bool)

  const MAX_POOL := 60
  const NONE := -1

  ghost predicate Positive(pool: seq<Creative>) {
    forall i :: 0 <= i < |pool| ==> 0 < pool[i].duration
  }

  // ----- subsets, the measure of the result -----

  /** A subset of the first |mask| creatives of the pool: its length, its size and what is in it. */
  ghost function Sum(pool: seq<Creative>, mask: seq<bool>): int
    requires |mask| <= |pool|
  {
    if mask == [] then 0 else
      var k := |mask| - 1;
      Sum(pool, mask[..k]) + if mask[k] then pool[k].duration else 0
  }

  ghost function Count(mask: seq<bool>): nat {
    if mask == [] then 0 else
      var k := |mask| - 1;
      Count(mask[..k]) + if mask[k] then 1 else 0
  }

  ghost function Picked(pool: seq<Creative>, mask: seq<bool>): multiset<Creative>
    requires |mask| <= |pool|
  {
    if mask == [] then multiset{} else
      var k := |mask| - 1;
      Picked(pool, mask[..k]) + if mask[k] then multiset{pool[k]} else multiset{}
  }

  /** No subset has a larger sum within the limit, and none has the same sum with fewer creatives. */
  ghost predicate Optimal(pool: seq<Creative>, limit: int, mask: seq<bool>) {
    && |mask| == |pool|
    && Sum(pool, mask) <= limit
    && forall other: seq<bool> :: |other| == |pool| && Sum(pool, other) <= limit ==>
         && Sum(pool, other) <= Sum(pool, mask)
         && (Sum(pool, other) == Sum(pool, mask) ==> Count(mask) <= Count(other))
  }

  // ----- the recurrence behind the table -----

  /** Creative k - 1 makes the sum s reachable, or reachable with fewer creatives. */
  ghost predicate Improves(pool: seq<Creative>, k: nat, s: int)
    requires 0 < k <= |pool| && Positive(pool)
    decreases k, 0
  {
    var d := pool[k - 1].duration;
    d <= s && Fewest(pool, k - 1, s - d) != NONE
    && (Fewest(pool, k - 1, s) == NONE || Fewest(pool, k - 1, s - d) + 1 < Fewest(pool, k - 1, s))
  }

  /** The fewest of the first k creatives that give exactly s seconds, NONE when impossible. */
  ghost function Fewest(pool: seq<Creative>, k: nat, s: int): (r: int)
    requires k <= |pool| && Positive(pool)
    ensures NONE <= r
    decreases k, 1
  {
    if k == 0 then (if s == 0 then 0 else NONE)
    else if Improves(pool, k, s) then Fewest(pool, k - 1, s - pool[k - 1].duration) + 1
    else Fewest(pool, k - 1, s)
  }

  /** The creatives that give s seconds, from the last one back to the first. */
  ghost function Walk(pool: seq<Creative>, k: nat, s: int): seq<Creative>
    requires k <= |pool| && Positive(pool)
  {
    if k == 0 || s <= 0 then []
    else if Improves(pool, k, s) then [pool[k - 1]] + Walk(pool, k - 1, s - pool[k - 1].duration)
    else Walk(pool, k - 1, s)
  }

  /** The largest reachable sum not above s. */
  ghost function Best(pool: seq<Creative>, s: int): (r: int)
    requires Positive(pool)
    ensures 0 <= r && (0 <= s ==> r <= s)
  {
    if s <= 0 then 0 else if Fewest(pool, |pool|, s) != NONE then s else Best(pool, s - 1)
  }

  predicate Longer(a: Creative, b: Creative) { a.duration > b.duration }

  function Considered(pool: seq<Creative>): seq<Creative> {
    if |pool| > MAX_POOL then pool[..MAX_POOL] else pool
  }

  ghost function BestSubset(pool: seq<Creative>, limit: int): seq<Creative>
    requires Positive(pool)
  {
    if pool == [] || limit <= 0 then [] else
      var p := Considered(pool);
      Sort(Walk(p, |p|, Best(p, limit)), Longer)
  }

  // ----- the table -----

  /** reach holds the recurrence for the first i creatives, and from the marks of those creatives. */
  ghost predicate Cells(pool: seq<Creative>, i: nat, reach: seq<int>)
    requires i <= |pool| && Positive(pool)
  {
    forall t :: 0 <= t < |reach| ==> reach[t] == Fewest(pool, i, t)
  }

  ghost function Mark(pool: seq<Creative>, k: nat, t: int): int
    requires k < |pool| && Positive(pool)
  {
    if Improves(pool, k + 1, t) then 1 else 0
  }

  /** A creative cannot help with a sum shorter than itself. */
  lemma {:induction false} BelowDuration(pool: seq<Creative>, i: nat, t: int)
    requires Positive(pool) && i < |pool| && t < pool[i].duration
    ensures !Improves(pool, i + 1, t) && Fewest(pool, i + 1, t) == Fewest(pool, i, t)
  {
  }

  /** The pass of creative i, from the top cell down, in place. */
  method ImproveCells(pool: seq<Creative>, i: nat, reach: array<int>, row: array<int>)
    requires Positive(pool) && i < |pool| && row != reach && row.Length == reach.Length
    requires Cells(pool, i, reach[..])
    requires forall t :: 0 <= t < row.Length ==> row[t] == 0
    modifies reach, row
    ensures Cells(pool, i + 1, reach[..])
    ensures forall t :: 0 <= t < row.Length ==> row[t] == Mark(pool, i, t)
  {
    var d := pool[i].duration;
    var s := reach.Length - 1;
    while s >= d
      invariant s < reach.Length
      invariant forall t :: 0 <= t < reach.Length && t <= s ==> reach[t] == Fewest(pool, i, t) && row[t] == 0
      invariant forall t :: 0 <= t < reach.Length && s < t ==>
          reach[t] == Fewest(pool, i + 1, t) && row[t] == Mark(pool, i, t)
    {
      if reach[s - d] != NONE && (reach[s] == NONE || reach[s - d] + 1 < reach[s]) {
        reach[s] := reach[s - d] + 1;
        row[s] := 1;
      }
      s := s - 1;
    }
    forall t | 0 <= t < reach.Length && t <= s
      ensures Fewest(pool, i + 1, t) == reach[t] && Mark(pool, i, t) == row[t]
    {
      BelowDuration(pool, i, t);
    }
  }

  /** The highest reachable cell. */
  method HighestCell(pool: seq<Creative>, reach: array<int>) returns (best: int)
    requires Positive(pool) && 0 < reach.Length && Cells(pool, |pool|, reach[..])
    ensures best == Best(pool, reach.Length - 1) && best < reach.Length
  {
    best := 0;
    var s := reach.Length - 1;
    while s > 0
      invariant 0 <= s < reach.Length && Best(pool, s) == Best(pool, reach.Length - 1)
    {
      if reach[s] != NONE {
        return s;
      }
      s := s - 1;
    }
  }

  /** Back through the marks: the creative that last improved the cell, from the last creative to the first. */
  method WalkBack(pool: seq<Creative>, from: seq<seq<int>>, best: int) returns (out: seq<Creative>)
    requires Positive(pool) && |from| == |pool|
    requires forall k :: 0 <= k < |pool| ==> best < |from[k]|
    requires forall k, t :: 0 <= k < |pool| && 0 <= t < |from[k]| ==> from[k][t] == Mark(pool, k, t)
    ensures out == Walk(pool, |pool|, best)
  {
    out := [];
    var s := best;
    var i := |pool| - 1;
    while i >= 0 && s > 0
      invariant -1 <= i < |pool| && s <= best
      invariant out + Walk(pool, i + 1, s) == Walk(pool, |pool|, best)
    {
      if from[i][s] == 1 {
        out := out + [pool[i]];
        s := s - pool[i].duration;
      }
      i := i - 1;
    }
  }

  method ChooseSubset(pool: seq<Creative>, limit: int) returns (out: seq<Creative>)
    requires Positive(pool)
    ensures out == BestSubset(pool, limit)
  {
    if pool == [] || limit <= 0 {
      return [];
    }
    var p := if |pool| > MAX_POOL then pool[..MAX_POOL] else pool;
    hide Walk, Best, Sort, Cells, Mark;
    var reach, from := FillTable(p, limit);
    var best := HighestCell(p, reach);
    out := WalkBack(p, from, best);
    out := Sort(out, Longer);
  }

  /** The table, creative by creative, with a row of marks for each. */
  method FillTable(p: seq<Creative>, limit: int) returns (reach: array<int>, from: seq<seq<int>>)
    requires Positive(p) && 0 < limit
    ensures reach.Length == limit + 1 && |from| == |p| && Cells(p, |p|, reach[..])
    ensures forall k :: 0 <= k < |p| ==> |from[k]| == limit + 1
    ensures forall k, t :: 0 <= k < |p| && 0 <= t <= limit ==> from[k][t] == Mark(p, k, t)
  {
    reach := new int[limit + 1](s => NONE);
    reach[0] := 0;
    from := [];
    for i := 0 to |p|
      invariant |from| == i && Cells(p, i, reach[..])
      invariant forall k :: 0 <= k < i ==> |from[k]| == limit + 1
      invariant forall k, t :: 0 <= k < i && 0 <= t <= limit ==> from[k][t] == Mark(p, k, t)
    {
      var row := new int[limit + 1](s => 0);
      ImproveCells(p, i, reach, row);
      from := from + [row[..]];
    }
  }

  // ----- the recurrence is optimal -----

  /** No subset of the first k creatives beats the recurrence. */
  lemma {:induction false} FewestIsLowerBound(pool: seq<Creative>, mask: seq<bool>)
    requires Positive(pool) && |mask| <= |pool|
    ensures NONE < Fewest(pool, |mask|, Sum(pool, mask)) <= Count(mask)
  {
    if mask != [] {
      var k := |mask| - 1;
      FewestIsLowerBound(pool, mask[..k]);
      SumIsNatural(pool, mask[..k]);
    }
  }

  lemma {:induction false} SumIsNatural(pool: seq<Creative>, mask: seq<bool>)
    requires Positive(pool) && |mask| <= |pool|
    ensures 0 <= Sum(pool, mask)
  {
    if mask != [] {
      SumIsNatural(pool, mask[..|mask| - 1]);
    }
  }

  /** The subset that the walk takes. */
  ghost function WalkMask(pool: seq<Creative>, k: nat, s: int): (mask: seq<bool>)
    requires k <= |pool| && Positive(pool)
    ensures |mask| == k
  {
    if k == 0 then []
    else if 0 < s && Improves(pool, k, s) then WalkMask(pool, k - 1, s - pool[k - 1].duration) + [true]
    else WalkMask(pool, k - 1, s) + [false]
  }

  lemma {:induction false} MaskExtends(pool: seq<Creative>, mask: seq<bool>, used: bool)
    requires |mask| < |pool|
    ensures Sum(pool, mask + [used]) == Sum(pool, mask) + if used then pool[|mask|].duration else 0
    ensures Count(mask + [used]) == Count(mask) + if used then 1 else 0
    ensures Picked(pool, mask + [used]) == Picked(pool, mask) + if used then multiset{pool[|mask|]} else multiset{}
  {
    assert (mask + [used])[..|mask|] == mask;
  }

  /** One step of the walk. */
  lemma {:induction false} WalkStep(pool: seq<Creative>, k: nat, s: int, used: bool, rest: int)
    requires 0 < k <= |pool| && Positive(pool) && 0 <= s
    requires used == Improves(pool, k, s) && rest == if used then s - pool[k - 1].duration else s
    ensures WalkMask(pool, k, s) == WalkMask(pool, k - 1, rest) + [used]
    ensures Walk(pool, k, s) == (if used then [pool[k - 1]] else []) + Walk(pool, k - 1, rest)
    ensures Fewest(pool, k, s) == Fewest(pool, k - 1, rest) + if used then 1 else 0
    ensures used ==> Fewest(pool, k - 1, rest) != NONE
  {
    if s == 0 {
      WalkOfZero(pool, k - 1);
    }
  }

  lemma {:induction false} ReachableIsNatural(pool: seq<Creative>, k: nat, s: int)
    requires k <= |pool| && Positive(pool) && Fewest(pool, k, s) != NONE
    ensures 0 <= s
  {
    if k != 0 && !Improves(pool, k, s) {
      ReachableIsNatural(pool, k - 1, s);
    }
  }

  lemma {:induction false} EmptyWalk(pool: seq<Creative>, s: int)
    requires Positive(pool) && Fewest(pool, 0, s) != NONE
    ensures s == 0 && Fewest(pool, 0, s) == 0 && Walk(pool, 0, s) == [] && WalkMask(pool, 0, s) == []
    ensures Sum(pool, []) == 0 && Count([]) == 0 && Picked(pool, []) == multiset{}
  {
  }

  lemma {:induction false} WalkAttains(pool: seq<Creative>, k: nat, s: int)
    requires k <= |pool| && Positive(pool) && Fewest(pool, k, s) != NONE
    ensures var mask := WalkMask(pool, k, s);
      && Sum(pool, mask) == s && Count(mask) == Fewest(pool, k, s)
      && Picked(pool, mask) == multiset(Walk(pool, k, s)) && |Walk(pool, k, s)| == Count(mask)
  {
    hide Sum, Count, Picked, Improves, Fewest, Walk, WalkMask;
    if k == 0 {
      EmptyWalk(pool, s);
    } else {
      var used := Improves(pool, k, s);
      var rest := if used then s - pool[k - 1].duration else s;
      ReachableIsNatural(pool, k, s);
      WalkStep(pool, k, s, used, rest);
      WalkAttains(pool, k - 1, rest);
      var mask, walk := WalkMask(pool, k - 1, rest), Walk(pool, k - 1, rest);
      MaskExtends(pool, mask, used);
      if used {
        assert multiset([pool[k - 1]] + walk) == multiset{pool[k - 1]} + multiset(walk);
      } else {
        assert [] + walk == walk;
      }
    }
  }

  lemma {:induction false} WalkOfZero(pool: seq<Creative>, k: nat)
    requires k <= |pool| && Positive(pool)
    ensures Walk(pool, k, 0) == [] && Fewest(pool, k, 0) == 0
  {
    if k != 0 {
      WalkOfZero(pool, k - 1);
    }
  }

  lemma {:induction false} BestIsReachable(pool: seq<Creative>, s: int)
    requires Positive(pool) && 0 <= s
    ensures Fewest(pool, |pool|, Best(pool, s)) != NONE
    ensures forall t :: Best(pool, s) < t <= s ==> Fewest(pool, |pool|, t) == NONE
  {
    if s == 0 {
      WalkOfZero(pool, |pool|);
    } else if Fewest(pool, |pool|, s) == NONE {
      BestIsReachable(pool, s - 1);
    }
  }

  ghost function Total(items: seq<Creative>): int {
    if items == [] then 0 else items[0].duration + Total(items[1..])
  }

  /**
   The result of the table and the walk: distinct positions of the considered pool, the
   largest sum within the limit, the fewest creatives for it.
   */
  lemma {:induction false} BestSubsetIsOptimal(pool: seq<Creative>, limit: int) returns (mask: seq<bool>)
    requires Positive(pool) && 0 <= limit
    ensures Considered(pool) == pool[..if |pool| < 60 then |pool| else 60] && Optimal(Considered(pool), limit, mask)
    ensures multiset(BestSubset(pool, limit)) == Picked(Considered(pool), mask)
    ensures |BestSubset(pool, limit)| == Count(mask)
  {
    var p := Considered(pool);
    var best := Best(p, limit);
    BestIsReachable(p, limit);
    mask := WalkMask(p, |p|, best);
    WalkAttains(p, |p|, best);
    var walk := Walk(p, |p|, best);
    SortPermutes(walk, Longer);
    assert |multiset(walk)| == |walk| && |multiset(Sort(walk, Longer))| == |Sort(walk, Longer)|;
    forall other: seq<bool> | |other| == |p| && Sum(p, other) <= limit
      ensures Sum(p, other) <= best && (Sum(p, other) == best ==> Count(mask) <= Count(other))
    {
      FewestIsLowerBound(p, other);
    }
  }
}
