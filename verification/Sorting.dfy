/**
 The stable sort that the program uses for schedules and creatives, as a function of
 the list and of the "comes before" relation.
 */
module Sorting {

  /** A relation that a stable sort accepts: irreflexive, and "not before" is transitive. */
  ghost predicate WeakOrder<T(!new)>(before: (T, T) -> bool) {
    && (forall x :: !before(x, x))
    && (forall x, y :: before(x, y) ==> !before(y, x))
    && (forall x, y, z :: !before(y, x) && !before(z, y) ==> !before(z, x))
  }

  /** Nothing comes before something that stands in front of it. */
  ghost predicate Sorted<T>(s: seq<T>, before: (T, T) -> bool) {
    forall i, j :: 0 <= i < j < |s| ==> !before(s[j], s[i])
  }

  /** x in front of the elements of s that do not come before it. */
  function Insert<T>(x: T, s: seq<T>, before: (T, T) -> bool): (r: seq<T>)
    ensures |r| == |s| + 1
  {
    if s == [] || !before(s[0], x) then [x] + s else [s[0]] + Insert(x, s[1..], before)
  }

  function Sort<T>(s: seq<T>, before: (T, T) -> bool): (r: seq<T>)
    ensures |r| == |s|
  {
    if s == [] then [] else Insert(s[0], Sort(s[1..], before), before)
  }

  lemma {:induction false} InsertPermutes<T>(x: T, s: seq<T>, before: (T, T) -> bool)
    ensures multiset(Insert(x, s, before)) == multiset{x} + multiset(s)
  {
    if s != [] {
      assert s == [s[0]] + s[1..];
      InsertPermutes(x, s[1..], before);
    }
  }

  lemma {:induction false} SortPermutes<T>(s: seq<T>, before: (T, T) -> bool)
    ensures multiset(Sort(s, before)) == multiset(s)
  {
    if s != [] {
      assert s == [s[0]] + s[1..];
      SortPermutes(s[1..], before);
      InsertPermutes(s[0], Sort(s[1..], before), before);
    }
  }

  lemma {:induction false} InsertSorts<T(!new)>(x: T, s: seq<T>, before: (T, T) -> bool)
    requires WeakOrder(before) && Sorted(s, before)
    ensures Sorted(Insert(x, s, before), before)
  {
    var r := Insert(x, s, before);
    if s == [] || !before(s[0], x) {
      forall i, j | 0 <= i < j < |r|
        ensures !before(r[j], r[i])
      {
        if i == 0 && 1 < j {
          assert !before(s[j - 1], s[0]);
        }
      }
    } else {
      InsertSorts(x, s[1..], before);
      InsertPermutes(x, s[1..], before);
      var t := Insert(x, s[1..], before);
      forall j | 0 <= j < |t|
        ensures !before(t[j], s[0])
      {
        assert t[j] in multiset(t);
        if t[j] != x {
          var k :| 0 <= k < |s[1..]| && s[1..][k] == t[j];
          assert s[k + 1] == t[j];
        }
      }
    }
  }

  lemma {:induction false} SortSorts<T(!new)>(s: seq<T>, before: (T, T) -> bool)
    requires WeakOrder(before)
    ensures Sorted(Sort(s, before), before)
  {
    if s != [] {
      SortSorts(s[1..], before);
      InsertSorts(s[0], Sort(s[1..], before), before);
    }
  }

  /** Sorting a list that is in order leaves it alone. */
  lemma {:induction false} SortOfSorted<T>(s: seq<T>, before: (T, T) -> bool)
    requires Sorted(s, before)
    ensures Sort(s, before) == s
  {
    if s != [] {
      SortOfSorted(s[1..], before);
      assert s[1..] != [] ==> s[1..][0] == s[1];
    }
  }

  lemma {:induction false} SameFirst<T>(s: seq<T>, t: seq<T>, before: (T, T) -> bool)
    requires Sorted(s, before) && Sorted(t, before) && s != [] && t != []
    requires multiset(s) == multiset(t)
    requires forall x, y :: x in s && y in s && x != y ==> before(x, y) || before(y, x)
    ensures s[0] == t[0]
  {
    assert s[0] in multiset(t) && t[0] in multiset(s);
    var i :| 0 <= i < |t| && t[i] == s[0];
    var j :| 0 <= j < |s| && s[j] == t[0];
  }

  lemma {:induction false} SameRest<T>(s: seq<T>, t: seq<T>)
    requires s != [] && t != [] && s[0] == t[0] && multiset(s) == multiset(t)
    ensures multiset(s[1..]) == multiset(t[1..])
  {
    assert s == [s[0]] + s[1..] && t == [t[0]] + t[1..];
    assert multiset(s[1..]) == multiset(s) - multiset{s[0]};
    assert multiset(t[1..]) == multiset(t) - multiset{t[0]};
  }

  /** When no two different elements are level, the sorted list depends only on what is in it. */
  lemma {:induction false} SortedIsUnique<T>(s: seq<T>, t: seq<T>, before: (T, T) -> bool)
    requires Sorted(s, before) && Sorted(t, before)
    requires multiset(s) == multiset(t)
    requires forall x, y :: x in s && y in s && x != y ==> before(x, y) || before(y, x)
    ensures s == t
  {
    assert |s| == |multiset(s)| == |multiset(t)| == |t|;
    if s != [] {
      SameFirst(s, t, before);
      SameRest(s, t);
      forall x, y | x in s[1..] && y in s[1..] && x != y
        ensures before(x, y) || before(y, x)
      {
        assert x in s && y in s;
      }
      SortedIsUnique(s[1..], t[1..], before);
      assert s == [s[0]] + s[1..] && t == [t[0]] + t[1..];
    }
  }
}
