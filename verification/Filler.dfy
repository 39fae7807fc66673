/**
 Filling an ad break from a registry of creatives: the best subset of the partners,
 then each house creative once where it fits, then the shortest house creative
 repeated to the end of the break.
 */
module Filler {
  import opened Sorting
  import opened Knapsack

  datatype AdItem = AdItem(creativeId: string, uri: string, duration: int, kind: string)

  // ----- which creatives may be used -----

  predicate HasCategory(cats: seq<string>, want: string) {
    want in cats || "any" in cats
  }

  predicate Usable(c: Creative, category: string, last: string, seg: int)
    requires 0 < seg
  {
    && c.active && 0 < c.duration && c.duration % seg == 0 && c.id != last
    && (category == "" || category == "any" || HasCategory(c.category, category))
  }

  /** The usable creatives of the registry that are house creatives, or those that are not. */
  function Usables(reg: seq<Creative>, house: bool, category: string, last: string, seg: int): seq<Creative>
    requires 0 < seg
  {
    if reg == [] then [] else
      (if UsableAs(reg[0], house, category, last, seg) then [reg[0]] else [])
      + Usables(reg[1..], house, category, last, seg)
  }

  predicate UsableAs(c: Creative, house: bool, category: string, last: string, seg: int)
    requires 0 < seg
  {
    Usable(c, category, last, seg) && (house <==> c.kind == "house")
  }

  lemma {:induction false} UsablesContain(reg: seq<Creative>, house: bool, category: string, last: string, seg: int,
      c: Creative)
    requires 0 < seg
    ensures c in Usables(reg, house, category, last, seg) <==> c in reg && UsableAs(c, house, category, last, seg)
  {
    if reg != [] {
      UsablesContain(reg[1..], house, category, last, seg, c);
      assert reg == [reg[0]] + reg[1..];
    }
  }

  // ----- their order -----

  predicate StringLess(a: string, b: string) {
    if b == "" then false
    else if a == "" then true
    else if a[0] != b[0] then a[0] < b[0]
    else StringLess(a[1..], b[1..])
  }

  /** The longest first; of the same length by id. */
  predicate ByLength(a: Creative, b: Creative) {
    if a.duration != b.duration then a.duration > b.duration else StringLess(a.id, b.id)
  }

  lemma {:induction false} StringLessTotal(a: string, b: string)
    ensures !(StringLess(a, b) && StringLess(b, a))
    ensures StringLess(a, b) || StringLess(b, a) <==> a != b
  {
    if a != "" && b != "" && a[0] == b[0] {
      StringLessTotal(a[1..], b[1..]);
      assert a == [a[0]] + a[1..] && b == [b[0]] + b[1..];
    }
  }

  lemma {:induction false} StringLessNotBefore(a: string, b: string, c: string)
    requires !StringLess(b, a) && !StringLess(c, b)
    ensures !StringLess(c, a)
  {
    if a != "" && b != "" && c != "" && a[0] == b[0] == c[0] {
      StringLessNotBefore(a[1..], b[1..], c[1..]);
    }
  }

  lemma {:induction false} ByLengthIsOrder()
    ensures WeakOrder(ByLength)
  {
    forall x: Creative
      ensures !ByLength(x, x)
    {
      StringLessTotal(x.id, x.id);
    }
    forall x: Creative, y: Creative | ByLength(x, y)
      ensures !ByLength(y, x)
    {
      StringLessTotal(x.id, y.id);
    }
    forall x: Creative, y: Creative, z: Creative | !ByLength(y, x) && !ByLength(z, y)
      ensures !ByLength(z, x)
    {
      if x.duration == y.duration == z.duration {
        StringLessNotBefore(x.id, y.id, z.id);
      }
    }
  }

  // ----- the pod -----

  /** Every house creative once, where it still fits. */
  function HouseOnce(house: seq<Creative>, filled: int, duration: int): seq<Creative> {
    if house == [] then []
    else if filled + house[0].duration <= duration then
      [house[0]] + HouseOnce(house[1..], filled + house[0].duration, duration)
    else HouseOnce(house[1..], filled, duration)
  }

  /** The same creative until the break is over. */
  function Padding(pad: Creative, filled: int, duration: int): seq<Creative>
    requires 0 < pad.duration
    decreases duration - filled
  {
    if duration <= filled then [] else [pad] + Padding(pad, filled + pad.duration, duration)
  }

  ghost function Partners(reg: seq<Creative>, category: string, last: string, seg: int): seq<Creative>
    requires 0 < seg
  {
    Sort(Usables(reg, false, category, last, seg), ByLength)
  }

  ghost function Houses(reg: seq<Creative>, category: string, last: string, seg: int): seq<Creative>
    requires 0 < seg
  {
    Sort(Usables(reg, true, category, last, seg), ByLength)
  }

  /** The pod from sorted lists of partner and house creatives. */
  ghost function Chosen(partners: seq<Creative>, houses: seq<Creative>, duration: int): seq<Creative>
    requires Positive(partners) && Positive(houses)
  {
    var best := BestSubset(partners, duration);
    var once := HouseOnce(houses, Total(best), duration);
    var filled := Total(best) + Total(once);
    best + once + if houses == [] then [] else Padding(houses[|houses| - 1], filled, duration)
  }

  lemma {:induction false} SortKeeps<T>(s: seq<T>, before: (T, T) -> bool, x: T)
    ensures x in Sort(s, before) <==> x in s
  {
    SortPermutes(s, before);
    assert x in Sort(s, before) <==> x in multiset(Sort(s, before));
    assert x in s <==> x in multiset(s);
  }

  /** What is in a sorted list of usable creatives. */
  lemma {:induction false} SortedUsables(reg: seq<Creative>, house: bool, category: string, last: string, seg: int,
      c: Creative)
    requires 0 < seg
    ensures c in Sort(Usables(reg, house, category, last, seg), ByLength) <==>
        c in reg && UsableAs(c, house, category, last, seg)
  {
    SortKeeps(Usables(reg, house, category, last, seg), ByLength, c);
    UsablesContain(reg, house, category, last, seg, c);
  }

  lemma {:induction false} ListsArePositive(reg: seq<Creative>, category: string, last: string, seg: int)
    requires 0 < seg
    ensures Positive(Partners(reg, category, last, seg)) && Positive(Houses(reg, category, last, seg))
  {
    forall c | c in Partners(reg, category, last, seg)
      ensures 0 < c.duration
    {
      SortedUsables(reg, false, category, last, seg, c);
    }
    forall c | c in Houses(reg, category, last, seg)
      ensures 0 < c.duration
    {
      SortedUsables(reg, true, category, last, seg, c);
    }
  }

  ghost function Pod(reg: seq<Creative>, duration: int, category: string, last: string, seg: int): seq<Creative> {
    if duration <= 0 || seg <= 0 then [] else
      ListsArePositive(reg, category, last, seg);
      Chosen(Partners(reg, category, last, seg), Houses(reg, category, last, seg), duration)
  }

  /** The pod of a break: last is left out unless nothing else can be played. */
  ghost function BreakPod(reg: seq<Creative>, duration: int, category: string, last: string, seg: int): seq<Creative> {
    var pod := Pod(reg, duration, category, last, seg);
    if pod == [] && last != "" then Pod(reg, duration, category, "", seg) else pod
  }

  function Item(c: Creative): AdItem { AdItem(c.id, c.uri, c.duration, c.kind) }

  function Items(pod: seq<Creative>): (r: seq<AdItem>)
    ensures |r| == |pod| && forall i :: 0 <= i < |pod| ==> r[i] == Item(pod[i])
  {
    seq(|pod|, i requires 0 <= i < |pod| => Item(pod[i]))
  }

  // ----- the program -----

  /** The loop over the registry. */
  method SplitRegistry(reg: seq<Creative>, category: string, last: string, seg: int)
    returns (partner: seq<Creative>, house: seq<Creative>)
    requires 0 < seg
    ensures partner == Usables(reg, false, category, last, seg)
    ensures house == Usables(reg, true, category, last, seg)
  {
    hide Usable;
    partner, house := [], [];
    for i := 0 to |reg|
      invariant partner + Usables(reg[i..], false, category, last, seg) == Usables(reg, false, category, last, seg)
      invariant house + Usables(reg[i..], true, category, last, seg) == Usables(reg, true, category, last, seg)
    {
      var c := reg[i];
      assert reg[i..][0] == c && reg[i..][1..] == reg[i + 1..];
      ghost var p, h := Usables(reg[i + 1..], false, category, last, seg),
          Usables(reg[i + 1..], true, category, last, seg);
      if Usable(c, category, last, seg) {
        if c.kind == "house" {
          assert house + ([c] + h) == (house + [c]) + h;
          house := house + [c];
        } else {
          assert partner + ([c] + p) == (partner + [c]) + p;
          partner := partner + [c];
        }
      }
    }
  }

  /** The chosen partners go into the pod in their order. */
  method AddPartners(best: seq<Creative>) returns (items: seq<AdItem>, filled: int)
    ensures items == Items(best) && filled == Total(best)
  {
    items, filled := [], 0;
    for i := 0 to |best|
      invariant items == Items(best[..i])
      invariant filled + Total(best[i..]) == Total(best)
    {
      items := items + [Item(best[i])];
      filled := filled + best[i].duration;
    }
    assert best[..|best|] == best && best[|best|..] == [];
  }

  method AddHouses(pod: seq<AdItem>, filled0: int, house: seq<Creative>, duration: int)
    returns (items: seq<AdItem>, filled: int)
    ensures items == pod + Items(HouseOnce(house, filled0, duration))
    ensures filled == filled0 + Total(HouseOnce(house, filled0, duration))
  {
    items, filled := pod, filled0;
    ghost var once: seq<Creative> := [];
    for i := 0 to |house|
      invariant items == pod + Items(once)
      invariant once + HouseOnce(house[i..], filled, duration) == HouseOnce(house, filled0, duration)
      invariant filled + Total(HouseOnce(house[i..], filled, duration)) ==
          filled0 + Total(HouseOnce(house, filled0, duration))
    {
      assert house[i..][0] == house[i] && house[i..][1..] == house[i + 1..];
      if filled + house[i].duration <= duration {
        items := items + [Item(house[i])];
        filled := filled + house[i].duration;
        once := once + [house[i]];
      }
    }
  }

  method AddPadding(pod: seq<AdItem>, filled0: int, pad: Creative, duration: int) returns (items: seq<AdItem>)
    requires 0 < pad.duration
    ensures items == pod + Items(Padding(pad, filled0, duration))
  {
    items := pod;
    var filled := filled0;
    ghost var added: seq<Creative> := [];
    while filled < duration
      invariant items == pod + Items(added)
      invariant added + Padding(pad, filled, duration) == Padding(pad, filled0, duration)
      decreases duration - filled
    {
      items := items + [Item(pad)];
      filled := filled + pad.duration;
      added := added + [pad];
    }
  }

  method FillFromLists(partner: seq<Creative>, house: seq<Creative>, duration: int) returns (items: seq<AdItem>)
    requires Positive(partner) && Positive(house)
    ensures items == Items(Chosen(partner, house, duration))
  {
    hide BestSubset, HouseOnce, Total, Items;
    var best := ChooseSubset(partner, duration);
    var filled;
    items, filled := AddPartners(best);
    items, filled := AddHouses(items, filled, house, duration);
    ghost var once := HouseOnce(house, Total(best), duration);
    ItemsConcat(best, once);
    if filled < duration && |house| > 0 {
      var pad := house[|house| - 1];
      ItemsConcat(best + once, Padding(pad, filled, duration));
      items := AddPadding(items, filled, pad, duration);
    } else {
      assert best + once + [] == best + once;
    }
  }

  method FillBreakExcluding(reg: seq<Creative>, duration: int, category: string, last: string, seg: int)
    returns (items: seq<AdItem>)
    ensures items == Items(Pod(reg, duration, category, last, seg))
  {
    if duration <= 0 || seg <= 0 {
      return [];
    }
    ListsArePositive(reg, category, last, seg);
    var partner, house := SplitRegistry(reg, category, last, seg);
    hide Chosen, Sort, Usables;
    items := FillFromLists(Sort(partner, ByLength), Sort(house, ByLength), duration);
  }

  lemma {:induction false} ItemsConcat(a: seq<Creative>, b: seq<Creative>)
    ensures Items(a + b) == Items(a) + Items(b)
  {
  }

  method FillBreak(reg: seq<Creative>, duration: int, category: string, last: string, seg: int)
    returns (items: seq<AdItem>)
    ensures items == Items(BreakPod(reg, duration, category, last, seg))
  {
    items := FillBreakExcluding(reg, duration, category, last, seg);
    if |items| == 0 && last != "" {
      items := FillBreakExcluding(reg, duration, category, "", seg);
    }
  }

  // ----- what a pod is -----

  lemma {:induction false} TotalConcat(a: seq<Creative>, b: seq<Creative>)
    ensures Total(a + b) == Total(a) + Total(b)
  {
    if a == [] {
      assert a + b == b;
    } else {
      assert (a + b)[1..] == a[1..] + b;
      TotalConcat(a[1..], b);
    }
  }

  lemma {:induction false} HouseFits(house: seq<Creative>, filled: int, duration: int)
    requires filled <= duration
    ensures filled + Total(HouseOnce(house, filled, duration)) <= duration
  {
    if house != [] {
      if filled + house[0].duration <= duration {
        HouseFits(house[1..], filled + house[0].duration, duration);
        assert HouseOnce(house, filled, duration)[1..] == HouseOnce(house[1..], filled + house[0].duration, duration);
      } else {
        HouseFits(house[1..], filled, duration);
      }
    }
  }

  lemma {:induction false} PaddingCovers(pad: Creative, filled: int, duration: int)
    requires 0 < pad.duration && filled <= duration
    ensures duration <= filled + Total(Padding(pad, filled, duration)) < duration + pad.duration
    decreases duration - filled
  {
    if filled < duration {
      var next := filled + pad.duration;
      assert Padding(pad, filled, duration)[1..] == Padding(pad, next, duration);
      if next <= duration {
        PaddingCovers(pad, next, duration);
      } else {
        assert Padding(pad, next, duration) == [];
      }
    }
  }

  /** The sum of the chosen partners is the length of the subset. */
  lemma {:induction false} TotalOfPicked(pool: seq<Creative>, mask: seq<bool>, items: seq<Creative>)
    requires |mask| <= |pool| && multiset(items) == Picked(pool, mask)
    ensures Total(items) == Sum(pool, mask)
  {
    if mask == [] {
      assert |multiset(items)| == 0;
    } else {
      var k := |mask| - 1;
      if mask[k] {
        assert pool[k] in multiset(items);
        var i :| 0 <= i < |items| && items[i] == pool[k];
        var rest := items[..i] + items[i + 1..];
        assert items == items[..i] + ([items[i]] + items[i + 1..]);
        TotalConcat(items[..i], [items[i]] + items[i + 1..]);
        TotalConcat(items[..i], items[i + 1..]);
        assert multiset(rest) == multiset(items) - multiset{pool[k]};
        TotalOfPicked(pool, mask[..k], rest);
      } else {
        TotalOfPicked(pool, mask[..k], items);
      }
    }
  }

  /** What follows the partners in a pod made from two lists. */
  lemma {:induction false} HousePart(partners: seq<Creative>, houses: seq<Creative>, duration: int)
    returns (rest: seq<Creative>)
    requires Positive(partners) && Positive(houses)
    requires Total(BestSubset(partners, duration)) <= duration
    requires Sorted(houses, ByLength)
    ensures Chosen(partners, houses, duration) == BestSubset(partners, duration) + rest
    ensures forall c :: c in rest ==> c in houses
    ensures var total := Total(Chosen(partners, houses, duration));
      forall c :: c in houses ==> duration <= total < duration + c.duration
  {
    hide BestSubset, Total, HouseOnce, Padding, Sorted, ByLength;
    var best := BestSubset(partners, duration);
    var once := HouseOnce(houses, Total(best), duration);
    HouseFits(houses, Total(best), duration);
    HouseOnceIsHouse(houses, Total(best), duration);
    if houses == [] {
      rest := once;
      assert best + once + [] == best + once;
    } else {
      var pad := houses[|houses| - 1];
      var padding := Padding(pad, Total(best) + Total(once), duration);
      PaddingCovers(pad, Total(best) + Total(once), duration);
      PaddingIsPad(pad, Total(best) + Total(once), duration);
      LastIsShortest(houses);
      rest := once + padding;
      assert best + once + padding == best + rest;
      TotalConcat(best + once, padding);
      TotalConcat(best, once);
    }
  }

  /**
   The pod of a break: first a best subset of the partners, each position at most once;
   then, if there is a usable house creative, house creatives that cover the rest of the
   break and overshoot it by less than the shortest of them; otherwise nothing more.
   */
  lemma {:induction false} PodFillsBreak(reg: seq<Creative>, duration: int, category: string, last: string, seg: int)
    returns (mask: seq<bool>, best: seq<Creative>, rest: seq<Creative>)
    requires 0 < duration && 0 < seg
    ensures Pod(reg, duration, category, last, seg) == best + rest
    ensures var partners := Considered(Partners(reg, category, last, seg));
      && Optimal(partners, duration, mask) && multiset(best) == Picked(partners, mask) && |best| == Count(mask)
      && Total(best) == Sum(partners, mask) <= duration
    ensures forall c :: c in rest ==> c in reg && UsableAs(c, true, category, last, seg)
    ensures var total := Total(Pod(reg, duration, category, last, seg));
      forall c :: c in reg && UsableAs(c, true, category, last, seg) ==> duration <= total < duration + c.duration
  {
    ListsArePositive(reg, category, last, seg);
    var partners, houses := Partners(reg, category, last, seg), Houses(reg, category, last, seg);
    best := BestSubset(partners, duration);
    mask := BestSubsetIsOptimal(partners, duration);
    TotalOfPicked(Considered(partners), mask, best);
    ByLengthIsOrder();
    SortSorts(Usables(reg, true, category, last, seg), ByLength);
    rest := HousePart(partners, houses, duration);
    forall c
      ensures c in houses <==> c in reg && UsableAs(c, true, category, last, seg)
    {
      SortedUsables(reg, true, category, last, seg, c);
    }
  }

  lemma {:induction false} HouseOnceIsHouse(house: seq<Creative>, filled: int, duration: int)
    ensures forall c :: c in HouseOnce(house, filled, duration) ==> c in house
  {
    if house != [] {
      HouseOnceIsHouse(house[1..], filled + house[0].duration, duration);
      HouseOnceIsHouse(house[1..], filled, duration);
    }
  }

  lemma {:induction false} PaddingIsPad(pad: Creative, filled: int, duration: int)
    requires 0 < pad.duration
    ensures forall c :: c in Padding(pad, filled, duration) ==> c == pad
    decreases duration - filled
  {
    if filled < duration {
      PaddingIsPad(pad, filled + pad.duration, duration);
    }
  }

  lemma {:induction false} LastIsShortest(houses: seq<Creative>)
    requires houses != [] && Sorted(houses, ByLength)
    ensures forall c :: c in houses ==> houses[|houses| - 1].duration <= c.duration
  {
    forall c | c in houses
      ensures houses[|houses| - 1].duration <= c.duration
    {
      var i :| 0 <= i < |houses| && houses[i] == c;
      if i < |houses| - 1 {
        assert !ByLength(houses[|houses| - 1], houses[i]);
      }
    }
  }

  // ----- what may be played, and how often -----

  /** A creative that is switched on, of the wanted category, and made of whole segments. */
  predicate MayPlay(c: Creative, category: string, seg: int)
    requires 0 < seg
  {
    && c.active && 0 < c.duration && c.duration % seg == 0
    && (category == "" || category == "any" || category in c.category || "any" in c.category)
  }

  lemma {:induction false} UsableMayPlay(c: Creative, category: string, last: string, seg: int)
    requires 0 < seg
    ensures Usable(c, category, last, seg) <==> MayPlay(c, category, seg) && c.id != last
  {
  }

  lemma {:induction false} PodMayPlay(reg: seq<Creative>, duration: int, category: string, last: string, seg: int,
      c: Creative)
    requires c in Pod(reg, duration, category, last, seg)
    ensures 0 < seg && c in reg && MayPlay(c, category, seg) && c.id != last
  {
    var mask, best, rest := PodFillsBreak(reg, duration, category, last, seg);
    if c in best {
      assert c in multiset(best);
      PickedIsInPool(Considered(Partners(reg, category, last, seg)), mask, c);
      SortedUsables(reg, false, category, last, seg, c);
    }
    UsableMayPlay(c, category, last, seg);
  }

  /** Every item of a pod plays a creative of the registry that is active and of the wanted category. */
  lemma {:induction false} PodIsOfRegistry(reg: seq<Creative>, duration: int, category: string, last: string, seg: int)
    ensures forall it <- Items(BreakPod(reg, duration, category, last, seg)) ::
      0 < seg && exists c <- reg :: MayPlay(c, category, seg) && it == AdItem(c.id, c.uri, c.duration, c.kind)
  {
    var pod := BreakPod(reg, duration, category, last, seg);
    forall it | it in Items(pod)
      ensures 0 < seg && exists c <- reg :: MayPlay(c, category, seg) && it == AdItem(c.id, c.uri, c.duration, c.kind)
    {
      var i :| 0 <= i < |pod| && Items(pod)[i] == it;
      if pod == Pod(reg, duration, category, last, seg) {
        PodMayPlay(reg, duration, category, last, seg, pod[i]);
      } else {
        PodMayPlay(reg, duration, category, "", seg, pod[i]);
      }
    }
  }

  /** No house creative may play, and no partner that is considered fits into the break. */
  ghost predicate NothingFits(reg: seq<Creative>, duration: int, category: string, last: string, seg: int)
    requires 0 < seg
  {
    && (forall c <- reg :: MayPlay(c, category, seg) && c.id != last ==> c.kind != "house")
    && (forall c <- Considered(Partners(reg, category, last, seg)) :: duration < c.duration)
  }

  lemma {:induction false} SumOfOne(pool: seq<Creative>, n: nat, i: nat)
    requires n <= |pool| && i < |pool|
    ensures Sum(pool, seq(n, j => j == i)) == if i < n then pool[i].duration else 0
  {
    if n > 0 {
      assert seq(n, j => j == i)[..n - 1] == seq(n - 1, j => j == i);
      SumOfOne(pool, n - 1, i);
    }
  }

  lemma {:induction false} PickedIsCovered(pool: seq<Creative>, mask: seq<bool>, c: Creative)
    requires Positive(pool) && |mask| <= |pool| && c in Picked(pool, mask)
    ensures c.duration <= Sum(pool, mask)
  {
    var k := |mask| - 1;
    assert mask != [];
    SumIsNatural(pool, mask[..k]);
    if !(mask[k] && c == pool[k]) {
      PickedIsCovered(pool, mask[..k], c);
      assert pool[k] in pool;
    }
  }

  lemma {:induction false} ConsideredPlays(reg: seq<Creative>, category: string, last: string, seg: int)
    requires 0 < seg
    ensures Positive(Considered(Partners(reg, category, last, seg)))
  {
    ListsArePositive(reg, category, last, seg);
  }

  lemma {:induction false} OneFits(pool: seq<Creative>, duration: int, mask: seq<bool>, c: Creative)
    requires Optimal(pool, duration, mask) && c in pool && 0 < c.duration <= duration
    ensures 0 < Sum(pool, mask)
  {
    var i :| 0 <= i < |pool| && pool[i] == c;
    SumOfOne(pool, |pool|, i);
    assert |seq(|pool|, j => j == i)| == |pool|;
  }

  /** Nothing plays exactly when nothing fits. */
  lemma {:induction false} PodIsEmptyIff(reg: seq<Creative>, duration: int, category: string, last: string, seg: int)
    requires 0 < duration && 0 < seg
    ensures Pod(reg, duration, category, last, seg) == [] <==> NothingFits(reg, duration, category, last, seg)
  {
    var mask, best, rest := PodFillsBreak(reg, duration, category, last, seg);
    var pool := Considered(Partners(reg, category, last, seg));
    ConsideredPlays(reg, category, last, seg);
    hide Considered, Partners, Pod, Optimal, Usable, MayPlay;
    if best + rest == [] {
      assert best == [] && rest == [] && Total(best) == 0;
      forall c | c in reg && MayPlay(c, category, seg) && c.id != last ensures c.kind != "house" {
        UsableMayPlay(c, category, last, seg);
      }
      forall c | c in pool ensures duration < c.duration {
        if c.duration <= duration { OneFits(pool, duration, mask, c); }
      }
    } else if NothingFits(reg, duration, category, last, seg) {
      var c := (best + rest)[0];
      if best != [] {
        assert c == best[0] && c in multiset(best);
        PickedIsInPool(pool, mask, c);
        PickedIsCovered(pool, mask, c);
      } else {
        UsableMayPlay(c, category, last, seg);
      }
      assert false;
    }
  }

  /** The creative that ended the previous break plays again rather than nothing. */
  lemma {:induction false} BreakIsEmptyIff(reg: seq<Creative>, duration: int, category: string, last: string, seg: int)
    requires 0 < duration && 0 < seg
    ensures BreakPod(reg, duration, category, last, seg) == [] <==>
      && NothingFits(reg, duration, category, last, seg)
      && (last == "" || NothingFits(reg, duration, category, "", seg))
  {
    hide NothingFits, Pod;
    PodIsEmptyIff(reg, duration, category, last, seg);
    PodIsEmptyIff(reg, duration, category, "", seg);
  }

  predicate LongestFirst(cs: seq<Creative>) { forall i, j :: 0 <= i < j < |cs| ==> cs[i].duration >= cs[j].duration }

  lemma {:induction false} HouseOnceCounts(house: seq<Creative>, filled: int, duration: int, c: Creative)
    requires Positive(house) && filled <= duration
    ensures var once := HouseOnce(house, filled, duration);
      && multiset(once)[c] <= multiset(house)[c]
      && (multiset(once)[c] < multiset(house)[c] ==> duration < filled + Total(once) + c.duration)
  {
    if house != [] {
      assert house == [house[0]] + house[1..];
      assert forall x <- house[1..] :: x in house;
      var fits := filled + house[0].duration <= duration;
      var next := if fits then filled + house[0].duration else filled;
      var once := HouseOnce(house[1..], next, duration);
      HouseOnceCounts(house[1..], next, duration, c);
      HouseOnceIsHouse(house[1..], next, duration);
      TotalIsNotNegative(once);
      if fits { assert ([house[0]] + once)[1..] == once; }
    }
  }

  lemma {:induction false} TotalIsNotNegative(cs: seq<Creative>)
    requires forall c <- cs :: 0 < c.duration
    ensures 0 <= Total(cs)
  {
    if cs != [] { TotalIsNotNegative(cs[1..]); }
  }

  lemma {:induction false} HouseOnceInOrder(house: seq<Creative>, filled: int, duration: int)
    requires LongestFirst(house)
    ensures LongestFirst(HouseOnce(house, filled, duration))
  {
    if house != [] {
      assert forall i :: 0 <= i < |house[1..]| ==> house[1..][i] == house[i + 1];
      var next := if filled + house[0].duration <= duration then filled + house[0].duration else filled;
      HouseOnceInOrder(house[1..], next, duration);
      HouseOnceIsHouse(house[1..], next, duration);
      assert forall c <- house[1..] :: c.duration <= house[0].duration;
    }
  }

  /** The greedy choice: a house creative is taken exactly when it fits behind the longer ones that were. */
  lemma {:induction false} HouseIsTakenIff(house: seq<Creative>, filled: int, duration: int, k: nat)
    requires k < |house|
    ensures var before, upTo := HouseOnce(house[..k], filled, duration), HouseOnce(house[..k + 1], filled, duration);
      upTo == before + if filled + Total(before) + house[k].duration <= duration then [house[k]] else []
    ensures HouseOnce(house[..|house|], filled, duration) == HouseOnce(house, filled, duration)
  {
    assert house[..|house|] == house;
    if k == 0 {
      assert house[..1] == [house[0]] && house[..1][1..] == [];
    } else {
      var next := if filled + house[0].duration <= duration then filled + house[0].duration else filled;
      HouseIsTakenIff(house[1..], next, duration, k - 1);
      assert house[..k][1..] == house[1..][..k - 1] && house[..k + 1][1..] == house[1..][..k];
      var rest := HouseOnce(house[1..][..k - 1], next, duration);
      assert ([house[0]] + rest)[1..] == rest;
    }
  }

  /** A list sorted by ByLength or by Longer begins with its longest. */
  lemma {:induction false} SortedIsLongestFirst(cs: seq<Creative>)
    requires Sorted(cs, ByLength) || Sorted(cs, Longer)
    ensures LongestFirst(cs)
  {
    forall i, j | 0 <= i < j < |cs| ensures cs[i].duration >= cs[j].duration {
      if Sorted(cs, ByLength) {
        assert !ByLength(cs[j], cs[i]);
      } else {
        assert !Longer(cs[j], cs[i]);
      }
    }
  }

  lemma {:induction false} BestIsLongestFirst(partners: seq<Creative>, duration: int)
    requires Positive(partners)
    ensures LongestFirst(BestSubset(partners, duration))
  {
    hide Walk, Best;
    assert WeakOrder(Longer);
    var p := Considered(partners);
    assert forall c <- p :: c in partners;
    if p != [] && 0 < duration {
      var walk := Walk(p, |p|, Best(p, duration));
      SortSorts(walk, Longer);
      SortedIsLongestFirst(Sort(walk, Longer));
    }
  }

  lemma {:induction false} BestIsPartner(reg: seq<Creative>, duration: int, category: string, last: string, seg: int)
    requires 0 < duration && 0 < seg && ListsPositive(reg, category, last, seg)
    ensures var best := BestSubset(Partners(reg, category, last, seg), duration);
      LongestFirst(best) && Total(best) <= duration && forall c <- best :: c.kind != "house"
  {
    var partners := Partners(reg, category, last, seg);
    var best := BestSubset(partners, duration);
    BestIsLongestFirst(partners, duration);
    var mask := BestSubsetIsOptimal(partners, duration);
    TotalOfPicked(Considered(partners), mask, best);
    hide BestSubset, Picked, Sort, Usables, Considered;
    forall c | c in best ensures c.kind != "house" {
      assert c in multiset(best);
      PickedIsInPool(Considered(partners), mask, c);
      ConsideredIsInPool(partners, c);
      SortedUsables(reg, false, category, last, seg, c);
    }
  }

  lemma {:induction false} ConsideredIsInPool(pool: seq<Creative>, c: Creative)
    requires c in Considered(pool)
    ensures c in pool
  {
  }

  /** What is usable as a house creative, said by the registry. */
  predicate PlaysAtHome(reg: seq<Creative>, c: Creative, category: string, last: string, seg: int)
    requires 0 < seg
  {
    c in reg && c.kind == "house" && MayPlay(c, category, seg) && c.id != last
  }

  lemma {:induction false} HousesAre(reg: seq<Creative>, category: string, last: string, seg: int)
    requires 0 < seg
    ensures forall c :: c in Houses(reg, category, last, seg) <==> PlaysAtHome(reg, c, category, last, seg)
  {
    hide Sort, Usables, MayPlay, Usable;
    forall c ensures c in Houses(reg, category, last, seg) <==> PlaysAtHome(reg, c, category, last, seg) {
      SortedUsables(reg, true, category, last, seg, c);
      UsableMayPlay(c, category, last, seg);
    }
  }

  /** House creatives, the longest first, none more often than it is registered, and none left out that would fit. */
  ghost predicate Fair(reg: seq<Creative>, once: seq<Creative>, category: string, last: string, seg: int, filled: int,
      duration: int)
    requires 0 < seg
  {
    && LongestFirst(once)
    && (forall c <- once :: PlaysAtHome(reg, c, category, last, seg))
    && (forall c <- reg :: multiset(once)[c] <= multiset(reg)[c])
    && (forall c <- reg :: PlaysAtHome(reg, c, category, last, seg) && multiset(once)[c] < multiset(reg)[c] ==>
          duration < filled + Total(once) + c.duration)
  }

  /** One of the shortest house creatives, again and again. */
  ghost predicate ShortestAgain(reg: seq<Creative>, again: seq<Creative>, category: string, last: string, seg: int)
    requires 0 < seg
  {
    && (forall c <- again :: c == again[0] && PlaysAtHome(reg, c, category, last, seg))
    && (again != [] ==>
          forall h <- reg :: PlaysAtHome(reg, h, category, last, seg) ==> again[0].duration <= h.duration)
  }

  lemma {:induction false} OnceIsFair(reg: seq<Creative>, category: string, last: string, seg: int, filled: int,
      duration: int)
    requires 0 < seg && Positive(Houses(reg, category, last, seg)) && filled <= duration
    ensures Fair(reg, HouseOnce(Houses(reg, category, last, seg), filled, duration), category, last, seg, filled,
      duration)
  {
    var houses := Houses(reg, category, last, seg);
    HousesAre(reg, category, last, seg);
    HousesAreSorted(reg, category, last, seg);
    HouseOnceInOrder(houses, filled, duration);
    HouseOnceIsHouse(houses, filled, duration);
    hide Sort, Usables, HouseOnce, Total, MayPlay, Houses;
    var once := HouseOnce(houses, filled, duration);
    forall c | c in reg
      ensures multiset(once)[c] <= multiset(reg)[c]
      ensures PlaysAtHome(reg, c, category, last, seg) && multiset(once)[c] < multiset(reg)[c] ==>
        duration < filled + Total(once) + c.duration
    {
      HouseCounts(reg, category, last, seg, c);
      HouseOnceCounts(houses, filled, duration, c);
    }
  }

  lemma {:induction false} PaddingIsShortest(reg: seq<Creative>, category: string, last: string, seg: int, filled: int,
      duration: int)
    requires 0 < seg && Positive(Houses(reg, category, last, seg)) && Houses(reg, category, last, seg) != []
    ensures var houses := Houses(reg, category, last, seg);
      ShortestAgain(reg, Padding(houses[|houses| - 1], filled, duration), category, last, seg)
  {
    var houses := Houses(reg, category, last, seg);
    HousesAre(reg, category, last, seg);
    HousesAreSorted(reg, category, last, seg);
    LastIsShortest(houses);
    PaddingIsPad(houses[|houses| - 1], filled, duration);
    hide Sort, Usables, MayPlay, Houses, Padding;
    var again := Padding(houses[|houses| - 1], filled, duration);
    if again != [] { assert again[0] in again; }
  }

  /** The three parts of a pod. */
  ghost function PodInParts(reg: seq<Creative>, duration: int, category: string, last: string, seg: int)
    : (seq<Creative>, seq<Creative>, seq<Creative>)
    requires 0 < seg
  {
    ListsArePositive(reg, category, last, seg);
    var houses := Houses(reg, category, last, seg);
    var best := BestSubset(Partners(reg, category, last, seg), duration);
    var once := HouseOnce(houses, Total(best), duration);
    (best, once, if houses == [] then [] else Padding(houses[|houses| - 1], Total(best) + Total(once), duration))
  }

  lemma {:induction false} PodParts(reg: seq<Creative>, duration: int, category: string, last: string, seg: int)
    requires 0 < duration && 0 < seg
    ensures var (best, once, again) := PodInParts(reg, duration, category, last, seg);
      && Pod(reg, duration, category, last, seg) == best + once + again
      && (again != [] ==> Total(best) + Total(once) < duration)
  {
    hide Sort, Usables, HouseOnce, BestSubset, Total;
  }

  lemma {:induction false} FirstPart(reg: seq<Creative>, duration: int, category: string, last: string, seg: int)
    requires 0 < duration && 0 < seg
    ensures var best := PodInParts(reg, duration, category, last, seg).0;
      LongestFirst(best) && Total(best) <= duration && forall c <- best :: c.kind != "house"
  {
    ListsArePositive(reg, category, last, seg);
    hide Sort, Usables, HouseOnce, BestSubset, Total, LongestFirst, Padding;
    BestIsPartner(reg, duration, category, last, seg);
  }

  lemma {:induction false} SecondPart(reg: seq<Creative>, duration: int, category: string, last: string, seg: int)
    requires 0 < duration && 0 < seg
    ensures var (best, once, _) := PodInParts(reg, duration, category, last, seg);
      Fair(reg, once, category, last, seg, Total(best), duration)
  {
    ListsArePositive(reg, category, last, seg);
    FirstPart(reg, duration, category, last, seg);
    hide Sort, Usables, HouseOnce, BestSubset, Total, LongestFirst, Padding, Fair;
    OnceIsFair(reg, category, last, seg, Total(PodInParts(reg, duration, category, last, seg).0), duration);
  }

  lemma {:induction false} LastPart(reg: seq<Creative>, duration: int, category: string, last: string, seg: int)
    requires 0 < duration && 0 < seg
    ensures ShortestAgain(reg, PodInParts(reg, duration, category, last, seg).2, category, last, seg)
  {
    ListsArePositive(reg, category, last, seg);
    hide Sort, Usables, HouseOnce, BestSubset, Total, Padding, ShortestAgain;
    var (best, once, _) := PodInParts(reg, duration, category, last, seg);
    if Houses(reg, category, last, seg) == [] {
      NothingAgain(reg, category, last, seg);
    } else {
      PaddingIsShortest(reg, category, last, seg, Total(best) + Total(once), duration);
    }
  }

  lemma {:induction false} NothingAgain(reg: seq<Creative>, category: string, last: string, seg: int)
    requires 0 < seg
    ensures ShortestAgain(reg, [], category, last, seg)
  {
  }

  /**
   A pod in its three parts: partners, the longest first; house creatives, the longest first,
   none more often than it is registered; and, only while the break is not full, one of the
   shortest house creatives again. It is repeated only if no usable house creative that is left would fit.
   */
  lemma {:induction false} HousesAreRepeatedLast(reg: seq<Creative>, duration: int, category: string, last: string,
      seg: int) returns (best: seq<Creative>, once: seq<Creative>, again: seq<Creative>)
    requires 0 < duration && 0 < seg
    ensures Pod(reg, duration, category, last, seg) == best + once + again
    ensures LongestFirst(best) && forall c <- best :: c.kind != "house"
    ensures Fair(reg, once, category, last, seg, Total(best), duration)
    ensures ShortestAgain(reg, again, category, last, seg)
    ensures again != [] ==> Total(best) + Total(once) < duration
  {
    var parts := PodInParts(reg, duration, category, last, seg);
    best, once, again := parts.0, parts.1, parts.2;
    hide *;
    PodParts(reg, duration, category, last, seg);
    FirstPart(reg, duration, category, last, seg);
    SecondPart(reg, duration, category, last, seg);
    LastPart(reg, duration, category, last, seg);
  }

  ghost predicate ListsPositive(reg: seq<Creative>, category: string, last: string, seg: int)
    requires 0 < seg
  {
    Positive(Partners(reg, category, last, seg)) && Positive(Houses(reg, category, last, seg))
  }

  lemma {:induction false} HousesAreSorted(reg: seq<Creative>, category: string, last: string, seg: int)
    requires 0 < seg
    ensures Sorted(Houses(reg, category, last, seg), ByLength) && LongestFirst(Houses(reg, category, last, seg))
  {
    ByLengthIsOrder();
    SortSorts(Usables(reg, true, category, last, seg), ByLength);
    hide Sort, Usables;
    SortedIsLongestFirst(Houses(reg, category, last, seg));
  }

  lemma {:induction false} HouseCounts(reg: seq<Creative>, category: string, last: string, seg: int, c: Creative)
    requires 0 < seg
    ensures multiset(Houses(reg, category, last, seg))[c] <= multiset(reg)[c]
    ensures c.kind == "house" && MayPlay(c, category, seg) && c.id != last ==>
      multiset(Houses(reg, category, last, seg))[c] == multiset(reg)[c]
  {
    SortPermutes(Usables(reg, true, category, last, seg), ByLength);
    UsablesCount(reg, true, category, last, seg, c);
    UsableMayPlay(c, category, last, seg);
    hide Sort, Usables, MayPlay, Usable;
  }

  // ----- the order of the registry does not matter -----

  ghost predicate DistinctIds(reg: seq<Creative>) {
    forall i, j :: 0 <= i < j < |reg| ==> reg[i].id != reg[j].id
  }

  lemma {:induction false} UsablesCount(reg: seq<Creative>, house: bool, category: string, last: string, seg: int,
      c: Creative)
    requires 0 < seg
    ensures multiset(Usables(reg, house, category, last, seg))[c] ==
      if UsableAs(c, house, category, last, seg) then multiset(reg)[c] else 0
  {
    hide UsableAs;
    if reg != [] {
      UsablesCount(reg[1..], house, category, last, seg, c);
      assert reg == [reg[0]] + reg[1..];
      var rest := Usables(reg[1..], house, category, last, seg);
      assert [] + rest == rest;
    }
  }

  lemma {:induction false} SameSortedUsables(a: seq<Creative>, b: seq<Creative>, house: bool, category: string,
      last: string, seg: int)
    requires 0 < seg && multiset(a) == multiset(b) && DistinctIds(a)
    ensures Sort(Usables(a, house, category, last, seg), ByLength) ==
        Sort(Usables(b, house, category, last, seg), ByLength)
  {
    var ua, ub := Usables(a, house, category, last, seg), Usables(b, house, category, last, seg);
    forall c
      ensures multiset(ua)[c] == multiset(ub)[c]
    {
      UsablesCount(a, house, category, last, seg, c);
      UsablesCount(b, house, category, last, seg, c);
    }
    assert multiset(ua) == multiset(ub);
    SortPermutes(ua, ByLength);
    SortPermutes(ub, ByLength);
    ByLengthIsOrder();
    SortSorts(ua, ByLength);
    SortSorts(ub, ByLength);
    var sa := Sort(ua, ByLength);
    forall x, y | x in sa && y in sa && x != y
      ensures ByLength(x, y) || ByLength(y, x)
    {
      SortedUsables(a, house, category, last, seg, x);
      SortedUsables(a, house, category, last, seg, y);
      StringLessTotal(x.id, y.id);
    }
    SortedIsUnique(sa, Sort(ub, ByLength), ByLength);
  }

  lemma {:induction false} SamePod(a: seq<Creative>, b: seq<Creative>, duration: int, category: string, last: string,
      seg: int)
    requires multiset(a) == multiset(b) && DistinctIds(a)
    ensures Pod(a, duration, category, last, seg) == Pod(b, duration, category, last, seg)
  {
    if 0 < seg {
      SameSortedUsables(a, b, false, category, last, seg);
      SameSortedUsables(a, b, true, category, last, seg);
    }
  }

  /** Two registries that hold the same creatives give the same pod. */
  lemma {:induction false} RegistryOrderDoesNotMatter(a: seq<Creative>, b: seq<Creative>, duration: int,
      category: string, last: string, seg: int)
    requires multiset(a) == multiset(b) && DistinctIds(a)
    ensures BreakPod(a, duration, category, last, seg) == BreakPod(b, duration, category, last, seg)
  {
    SamePod(a, b, duration, category, last, seg);
    SamePod(a, b, duration, category, "", seg);
  }

  /** The creative that ended the previous break is played only if nothing else can be. */
  lemma {:induction false} LastIsNotRepeated(reg: seq<Creative>, duration: int, category: string, last: string,
      seg: int)
    requires exists c :: c in BreakPod(reg, duration, category, last, seg) && c.id == last
    ensures Pod(reg, duration, category, last, seg) == []
  {
    var pod := Pod(reg, duration, category, last, seg);
    if pod != [] {
      var mask, best, rest := PodFillsBreak(reg, duration, category, last, seg);
      var c :| c in pod && c.id == last;
      if c in best {
        assert c in multiset(best);
        PickedIsInPool(Considered(Partners(reg, category, last, seg)), mask, c);
        SortedUsables(reg, false, category, last, seg, c);
      }
      assert false;
    }
  }

  lemma {:induction false} PickedIsInPool(pool: seq<Creative>, mask: seq<bool>, c: Creative)
    requires |mask| <= |pool| && c in Picked(pool, mask)
    ensures c in pool
  {
    var k := |mask| - 1;
    if c != pool[k] || !mask[k] {
      PickedIsInPool(pool, mask[..k], c);
    }
  }

  // ----- the filler that remembers its pods -----

  datatype RegistryFile = Gone | Unchanged | Broken | Read(creatives: seq<Creative>)

  const KEEP_PODS := 3600

  class StaticFiller {
    const seg: int
    var reg: seq<Creative>
    var last: string
    var pods: map<int, seq<AdItem>>

    constructor (seg: int)
      ensures this.seg == seg && reg == [] && last == "" && pods == map[]
    {
      this.seg, reg, last, pods := seg, [], "", map[];
    }

    /** The pod of the break that starts at start. A break keeps the pod it was given. */
    method PodOf(start: int, duration: int, category: string, file: RegistryFile) returns (items: seq<AdItem>)
      modifies this
      ensures start in old(pods) ==>
          items == old(pods)[start] && pods == old(pods) && last == old(last) && reg == old(reg)
      ensures start !in old(pods) ==>
        && reg == (match file case Gone => [] case Read(cs) => cs case _ => old(reg))
        && items == Items(BreakPod(reg, duration, category, old(last), seg))
        && last == (if items == [] then old(last) else items[|items| - 1].creativeId)
      ensures pods == old(pods)[start := items]
    {
      if start in pods {
        return pods[start];
      }
      match file {
        case Gone => reg := [];
        case Read(cs) => reg := cs;
        case _ =>
      }
      items := FillBreak(reg, duration, category, last, seg);
      if |items| > 0 {
        last := items[|items| - 1].creativeId;
      }
      pods := pods[start := items];
    }

    method Evict(now: int)
      modifies this`pods
      ensures forall k :: k in pods <==> k in old(pods) && now - KEEP_PODS <= k
      ensures forall k :: k in pods ==> pods[k] == old(pods)[k]
    {
      pods := map k | k in pods && now - KEEP_PODS <= k :: pods[k];
    }
  }
}
