/**
 Edits of a schedule on the air: cut an entry into the running programme and shift what
 follows, or skip what is playing and pull the entries behind it forward. The edits work
 on lists of entries; what they mean for the schedule is said by the function Air, which
 tells the entry and the position in it at every second. For content and bumpers that is
 what airs; for an ad break the pod decides, and Stream says what an edit does to it.
 Times are whole seconds.
 */
module Schedule {
  import opened Common
  import opened Sorting

  datatype Kind = Content | Bumper | Slate | AdBreak | Unknown(name: string)

  datatype Entry = Entry(
    kind: Kind, asset: string, uri: string, start: int, dur: int, off: int, category: string, scte35: string)

  function End(e: Entry): int { e.start + e.dur }

  predicate Covers(e: Entry, n: int) { e.start <= n < End(e) }

  // ----- what is on the air -----

  /** What the schedule has at one second: an entry's source and a position in it. */
  datatype Shown = Shown(kind: Kind, asset: string, uri: string, category: string, scte35: string, pos: int)

  function Show(e: Entry, n: int): Shown {
    Shown(e.kind, e.asset, e.uri, e.category, e.scte35, e.off + n - e.start)
  }

  function Air(es: seq<Entry>, n: int): Option<Shown> {
    if es == [] then None else if Covers(es[0], n) then Some(Show(es[0], n)) else Air(es[1..], n)
  }

  /** Sorted, without empty entries and without overlap. */
  predicate Disjoint(es: seq<Entry>) {
    && (forall i :: 0 <= i < |es| ==> 0 < es[i].dur)
    && (forall i, j :: 0 <= i < j < |es| ==> End(es[i]) <= es[j].start)
  }

  function Seconds(es: seq<Entry>): int {
    if es == [] then 0 else es[0].dur + Seconds(es[1..])
  }

  // ----- replacing a window of the table -----

  /** Replace everything that starts in [from, to) with entries. */
  datatype Edit = Edit(from: int, to: int, entries: seq<Entry>)

  predicate Earlier(a: Entry, b: Entry) { a.start < b.start }

  function Kept(t: seq<Entry>, from: int, to: int): seq<Entry> {
    if t == [] then [] else (if t[0].start < from || to <= t[0].start then [t[0]] else []) + Kept(t[1..], from, to)
  }

  /** Ordered by start, and the start is a key. */
  predicate Keyed(t: seq<Entry>) {
    forall i, j :: 0 <= i < j < |t| ==> t[i].start < t[j].start
  }

  /** The table after the edit; None when two rows would have the same key. */
  function Replace(t: seq<Entry>, ed: Edit): Option<seq<Entry>> {
    var rows := Sort(Kept(t, ed.from, ed.to) + ed.entries, Earlier);
    if Keyed(rows) then Some(rows) else None
  }

  // ----- insert and shift -----

  datatype Problem =
    | TooManyEntries | WrongType | AssetMissing | AssetGiven | DurationNotPositive | OffsetNegative
    | OutsideWindow | Overlap | NothingOnAir | AlreadyOnAir

  /** The part of an entry in front of at, when it is on the air at that moment and began earlier. */
  function Heads(es: seq<Entry>, at: int): seq<Entry> {
    if es == [] then [] else
      (if es[0].start < at < End(es[0]) then [es[0].(dur := at - es[0].start)] else []) + Heads(es[1..], at)
  }

  /** An entry that ends after at, moved d seconds later from the moment at on. */
  function Moved(e: Entry, at: int, d: int): Entry {
    if e.start < at then e.(start := at + d, dur := End(e) - at, off := e.off + (at - e.start))
    else e.(start := e.start + d)
  }

  function Tails(es: seq<Entry>, at: int, d: int): seq<Entry> {
    if es == [] then [] else
      (if at < End(es[0]) then [Moved(es[0], at, d)] else []) + Tails(es[1..], at, d)
  }

  /** The start of the last entry that is cut, or from when none is. */
  function CutStart(es: seq<Entry>, at: int, from: int): int {
    if es == [] then from
    else CutStart(es[1..], at, if es[0].start < at < End(es[0]) then es[0].start else from)
  }

  predicate BreakOnAir(es: seq<Entry>, at: int) {
    exists i :: 0 <= i < |es| && es[i].kind == AdBreak && Covers(es[i], at)
  }

  function InsertedEntries(es: seq<Entry>, at: int, ins: Entry): (r: seq<Entry>)
    ensures 0 < |r|
  {
    Heads(es, at) + [ins.(start := at)] + Tails(es, at, ins.dur)
  }

  function InsertShift(es: seq<Entry>, at: int, ins: Entry): Result<Edit, Problem> {
    if ins.dur <= 0 then Err(DurationNotPositive)
    else if ins.kind == AdBreak && BreakOnAir(es, at) then Err(AlreadyOnAir)
    else
      var entries := InsertedEntries(es, at, ins);
      Ok(Edit(CutStart(es, at, at), End(entries[|entries| - 1]), entries))
  }

  method ComputeInsertShift(existing: seq<Entry>, at: int, ins: Entry) returns (r: Result<Edit, Problem>)
    ensures r == InsertShift(existing, at, ins)
  {
    if ins.dur <= 0 {
      return Err(DurationNotPositive);
    }
    if ins.kind == AdBreak {
      var onAir := FindBreak(existing, at);
      if onAir {
        return Err(AlreadyOnAir);
      }
    }
    hide Heads, Tails, CutStart;
    var from, entries, after := CutAndShift(existing, at, ins.dur);
    entries := entries + [ins.(start := at)];
    entries := entries + after;
    r := Ok(Edit(from, End(entries[|entries| - 1]), entries));
  }

  method FindBreak(existing: seq<Entry>, at: int) returns (onAir: bool)
    ensures onAir == BreakOnAir(existing, at)
  {
    for i := 0 to |existing|
      invariant forall j :: 0 <= j < i ==> !(existing[j].kind == AdBreak && Covers(existing[j], at))
    {
      var e := existing[i];
      if e.kind == AdBreak && e.start <= at && End(e) > at {
        return true;
      }
    }
    return false;
  }

  /** The loop over the entries: what is cut goes both ways, what lies behind is shifted. */
  method CutAndShift(existing: seq<Entry>, at: int, d: int) returns (from: int, entries: seq<Entry>, after: seq<Entry>)
    ensures from == CutStart(existing, at, at)
    ensures entries == Heads(existing, at) && after == Tails(existing, at, d)
  {
    from, entries, after := at, [], [];
    hide Heads, Tails, CutStart, Moved;
    for i := 0 to |existing|
      invariant CutStart(existing[i..], at, from) == CutStart(existing, at, at)
      invariant entries + Heads(existing[i..], at) == Heads(existing, at)
      invariant after + Tails(existing[i..], at, d) == Tails(existing, at, d)
    {
      CutStep(existing, i, at, d, from);
      var head, tail := CutEntry(existing[i], at, d);
      Reassociate(entries, head, Heads(existing[i + 1..], at));
      Reassociate(after, tail, Tails(existing[i + 1..], at, d));
      if head != [] { from := existing[i].start; }
      entries := entries + head;
      after := after + tail;
    }
    CutStep(existing, |existing|, at, d, from);
  }

  /** What stays of one entry before the moment, and what comes behind the inserted one. */
  method CutEntry(e: Entry, at: int, d: int) returns (head: seq<Entry>, tail: seq<Entry>)
    ensures head == if e.start < at < End(e) then [e.(dur := at - e.start)] else []
    ensures tail == if at < End(e) then [Moved(e, at, d)] else []
  {
    head, tail := [], [];
    if End(e) > at {
      if e.start < at {
        var a := e.(dur := at - e.start);
        head := [a];
        tail := [e.(start := at + d, dur := End(e) - at, off := e.off + a.dur)];
      } else {
        tail := [e.(start := e.start + d)];
      }
    }
  }

  /** One round of the loop, and its end. */
  lemma {:induction false} CutStep(existing: seq<Entry>, i: nat, at: int, d: int, from: int)
    requires i <= |existing|
    ensures i == |existing| ==>
      && Heads(existing[i..], at) == [] && Tails(existing[i..], at, d) == [] &&
          CutStart(existing[i..], at, from) == from
    ensures i < |existing| ==>
      var e, heads, tails := existing[i], Heads(existing[i + 1..], at), Tails(existing[i + 1..], at, d);
      var cut := e.start < at < End(e);
      && Heads(existing[i..], at) == (if cut then [e.(dur := at - e.start)] else []) + heads
      && Tails(existing[i..], at, d) == (if at < End(e) then [Moved(e, at, d)] else []) + tails
      && CutStart(existing[i..], at, from) == CutStart(existing[i + 1..], at, if cut then e.start else from)
  {
    if i < |existing| {
      assert existing[i..][0] == existing[i] && existing[i..][1..] == existing[i + 1..];
    }
  }

  lemma {:induction false} Reassociate(a: seq<Entry>, b: seq<Entry>, c: seq<Entry>)
    ensures a + (b + c) == (a + b) + c
  {
  }

  // ----- skip -----

  /** The index of the first entry on the air at that moment, |es| when there is none. */
  function OnAir(es: seq<Entry>, at: int): (k: nat)
    ensures k <= |es|
  {
    if es == [] || Covers(es[0], at) then 0 else 1 + OnAir(es[1..], at)
  }

  /** The entries behind the skipped one: those back to back with it come p seconds earlier. */
  function Pulled(es: seq<Entry>, prevEnd: int, chain: bool, p: int): (r: seq<Entry>)
    ensures |r| == |es|
  {
    if es == [] then []
    else if chain && es[0].start == prevEnd then
      [es[0].(start := es[0].start - p)] + Pulled(es[1..], End(es[0]), true, p)
    else [es[0]] + Pulled(es[1..], prevEnd, false, p)
  }

  function LatestEnd(es: seq<Entry>, to: int): int {
    if es == [] then to else LatestEnd(es[1..], if to < End(es[0]) then End(es[0]) else to)
  }

  /** The entry cur without what lies behind at. */
  function Shortened(cur: Entry, at: int): seq<Entry> {
    if cur.start < at then [cur.(dur := at - cur.start)] else []
  }

  function Skip(es: seq<Entry>, at: int): Result<Edit, Problem> {
    var k := OnAir(es, at);
    if k == |es| then Err(NothingOnAir) else
      var cur, rest := es[k], es[k + 1..];
      Ok(Edit(cur.start, LatestEnd(rest, End(cur)), Shortened(cur, at) + Pulled(rest, End(cur), true, End(cur) - at)))
  }

  method FindOnAir(existing: seq<Entry>, at: int) returns (idx: int)
    ensures idx == if OnAir(existing, at) == |existing| then -1 else OnAir(existing, at)
  {
    for i := 0 to |existing|
      invariant OnAir(existing, at) == i + OnAir(existing[i..], at)
    {
      assert existing[i..][1..] == existing[i + 1..];
      if existing[i].start <= at && End(existing[i]) > at {
        return i;
      }
    }
    return -1;
  }

  /** The loop over the entries behind the skipped one. */
  method PullChain(head: seq<Entry>, rest: seq<Entry>, end: int, pulled: int) returns (entries: seq<Entry>, to: int)
    ensures entries == head + Pulled(rest, end, true, pulled) && to == LatestEnd(rest, end)
  {
    var prevEnd, chain := end, true;
    entries, to := head, end;
    for i := 0 to |rest|
      invariant LatestEnd(rest[i..], to) == LatestEnd(rest, end)
      invariant entries + Pulled(rest[i..], prevEnd, chain, pulled) == head + Pulled(rest, end, true, pulled)
    {
      var e := rest[i];
      assert rest[i..][0] == e && rest[i..][1..] == rest[i + 1..];
      if End(e) > to {
        to := End(e);
      }
      if chain && e.start == prevEnd {
        prevEnd := End(e);
        entries := entries + [e.(start := e.start - pulled)];
      } else {
        chain := false;
        entries := entries + [e];
      }
    }
  }

  method ComputeSkip(existing: seq<Entry>, at: int) returns (r: Result<Edit, Problem>)
    ensures r == Skip(existing, at)
  {
    var idx := FindOnAir(existing, at);
    if idx < 0 {
      return Err(NothingOnAir);
    }
    var cur := existing[idx];
    var entries := [];
    if at > cur.start {
      entries := entries + [cur.(dur := at - cur.start)];
    }
    assert entries == Shortened(cur, at);
    var to;
    entries, to := PullChain(entries, existing[idx + 1..], End(cur), End(cur) - at);
    if |entries| == 0 {
      assert |existing[idx + 1..]| == |Pulled(existing[idx + 1..], End(cur), true, End(cur) - at)|;
      to := End(cur);
    }
    r := Ok(Edit(cur.start, to, entries));
  }

  // ----- lists in order -----

  lemma {:induction false} AirConcat(a: seq<Entry>, b: seq<Entry>, n: int)
    ensures Air(a + b, n) == if Air(a, n).Some? then Air(a, n) else Air(b, n)
  {
    if a == [] {
      assert a + b == b;
    } else {
      assert (a + b)[1..] == a[1..] + b;
      AirConcat(a[1..], b, n);
    }
  }

  lemma {:induction false} AirOfNothing(a: seq<Entry>, n: int)
    requires forall i :: 0 <= i < |a| ==> !Covers(a[i], n)
    ensures Air(a, n) == None
  {
    if a != [] {
      AirOfNothing(a[1..], n);
    }
  }

  predicate EndsBy(a: seq<Entry>, m: int) { forall i :: 0 <= i < |a| ==> End(a[i]) <= m }

  predicate StartsFrom(b: seq<Entry>, m: int) { forall i :: 0 <= i < |b| ==> m <= b[i].start }

  lemma {:induction false} DisjointJoin(a: seq<Entry>, b: seq<Entry>, m: int)
    requires Disjoint(a) && Disjoint(b) && EndsBy(a, m) && StartsFrom(b, m)
    ensures Disjoint(a + b)
  {
  }

  lemma {:induction false} SecondsConcat(a: seq<Entry>, b: seq<Entry>)
    ensures Seconds(a + b) == Seconds(a) + Seconds(b)
  {
    if a == [] {
      assert a + b == b;
    } else {
      assert (a + b)[1..] == a[1..] + b;
      SecondsConcat(a[1..], b);
    }
  }

  /** How many entries of a table in order are over at a moment: they are a prefix. */
  function Ended(t: seq<Entry>, at: int): (k: nat)
    ensures k <= |t|
    ensures forall i :: 0 <= i < k ==> End(t[i]) <= at
    ensures k < |t| ==> at < End(t[k])
  {
    if t == [] || at < End(t[0]) then 0 else 1 + Ended(t[1..], at)
  }

  lemma {:induction false} AfterEnded(t: seq<Entry>, at: int)
    requires Disjoint(t)
    ensures var k := Ended(t, at);
      && (forall i :: k <= i < |t| ==> at < End(t[i]))
      && (forall i :: k < i < |t| ==> at < t[i].start)
  {
  }

  lemma {:induction false} DisjointIsKeyed(t: seq<Entry>)
    requires Disjoint(t)
    ensures Keyed(t)
  {
  }

  lemma {:induction false} KeptConcat(a: seq<Entry>, b: seq<Entry>, from: int, to: int)
    ensures Kept(a + b, from, to) == Kept(a, from, to) + Kept(b, from, to)
  {
    if a == [] {
      assert a + b == b;
    } else {
      var rest, b' := Kept(a[1..], from, to), Kept(b, from, to);
      var first := if a[0].start < from || to <= a[0].start then [a[0]] else [];
      assert Kept(a + b, from, to) == first + Kept(a[1..] + b, from, to) by { assert (a + b)[1..] == a[1..] + b; }
      KeptConcat(a[1..], b, from, to);
      hide Kept;
      assert first + (rest + b') == first + rest + b';
    }
  }

  lemma {:induction false} KeptAll(t: seq<Entry>, from: int, to: int)
    requires forall i :: 0 <= i < |t| ==> t[i].start < from
    ensures Kept(t, from, to) == t
  {
    if t != [] {
      KeptAll(t[1..], from, to);
    }
  }

  lemma {:induction false} KeptNone(t: seq<Entry>, from: int, to: int)
    requires forall i :: 0 <= i < |t| ==> from <= t[i].start < to
    ensures Kept(t, from, to) == []
  {
    if t != [] {
      KeptNone(t[1..], from, to);
    }
  }

  /** An edit whose window takes the end of the table replaces that end by its entries. */
  lemma {:induction false} ReplaceEnd(pre: seq<Entry>, gone: seq<Entry>, ed: Edit)
    requires forall i :: 0 <= i < |pre| ==> pre[i].start < ed.from
    requires forall i :: 0 <= i < |gone| ==> ed.from <= gone[i].start < ed.to
    requires Keyed(pre + ed.entries)
    ensures Replace(pre + gone, ed) == Some(pre + ed.entries)
  {
    KeptConcat(pre, gone, ed.from, ed.to);
    KeptAll(pre, ed.from, ed.to);
    KeptNone(gone, ed.from, ed.to);
    assert pre + [] == pre;
    SortOfSorted(pre + ed.entries, Earlier);
  }

  // ----- an insert is a splice -----

  lemma {:induction false} HeadsConcat(a: seq<Entry>, b: seq<Entry>, at: int)
    ensures Heads(a + b, at) == Heads(a, at) + Heads(b, at)
  {
    if a == [] {
      assert a + b == b;
    } else {
      assert (a + b)[1..] == a[1..] + b;
      HeadsConcat(a[1..], b, at);
    }
  }

  lemma {:induction false} EndedIsIgnored(a: seq<Entry>, b: seq<Entry>, at: int, d: int, from: int)
    requires forall i :: 0 <= i < |a| ==> End(a[i]) <= at
    ensures Heads(a + b, at) == Heads(b, at) && Tails(a + b, at, d) == Tails(b, at, d)
    ensures CutStart(a + b, at, from) == CutStart(b, at, from) && BreakOnAir(a + b, at) == BreakOnAir(b, at)
  {
    if a == [] {
      assert a + b == b;
    } else {
      assert (a + b)[1..] == a[1..] + b && (a + b)[0] == a[0];
      EndedIsIgnored(a[1..], b, at, d, from);
      assert [] + Heads(b, at) == Heads(b, at) && [] + Tails(b, at, d) == Tails(b, at, d);
      BreakOnAirRest(a + b, at);
    }
  }

  lemma {:induction false} BreakOnAirRest(es: seq<Entry>, at: int)
    requires es != [] && End(es[0]) <= at
    ensures BreakOnAir(es, at) == BreakOnAir(es[1..], at)
  {
    if BreakOnAir(es, at) {
      var i :| 0 <= i < |es| && es[i].kind == AdBreak && Covers(es[i], at);
      assert es[1..][i - 1] == es[i];
    }
  }

  /** Entries that begin at the moment or later are only shifted. */
  lemma {:induction false} ShiftedLater(b: seq<Entry>, at: int, d: int, from: int)
    requires forall i :: 0 <= i < |b| ==> at <= b[i].start && 0 < b[i].dur
    ensures Heads(b, at) == [] && CutStart(b, at, from) == from
    ensures |Tails(b, at, d)| == |b| && forall i :: 0 <= i < |b| ==>
        Tails(b, at, d)[i] == b[i].(start := b[i].start + d)
  {
    if b != [] {
      ShiftedLater(b[1..], at, d, from);
    }
  }

  /** The edit of an insert, for a table in order: live is what ends after the moment. */
  lemma {:induction false} InsertOnOrdered(live: seq<Entry>, at: int, ins: Entry)
    requires Disjoint(live) && 0 < ins.dur && forall i :: 0 <= i < |live| ==> at < End(live[i])
    ensures var cut := live != [] && live[0].start < at;
      && Heads(live, at) == (if cut then [live[0].(dur := at - live[0].start)] else [])
      && CutStart(live, at, at) == (if cut then live[0].start else at)
      && |Tails(live, at, ins.dur)| == |live|
      && forall i :: 0 <= i < |live| ==> Tails(live, at, ins.dur)[i] == Moved(live[i], at, ins.dur)
  {
    if live != [] {
      var rest := live[1..];
      RestIsLater(live, at);
      hide Disjoint, Moved;
      ShiftedLater(rest, at, ins.dur, at);
      ShiftedLater(rest, at, ins.dur, live[0].start);
      var first := if live[0].start < at then [live[0].(dur := at - live[0].start)] else [];
      assert Heads(live, at) == first + Heads(rest, at);
      assert Tails(live, at, ins.dur) == [Moved(live[0], at, ins.dur)] + Tails(rest, at, ins.dur);
      forall i | 0 <= i < |live| ensures Tails(live, at, ins.dur)[i] == Moved(live[i], at, ins.dur) {
        if i > 0 { MovedLater(live[i], at, ins.dur); }
      }
    }
  }

  lemma {:induction false} RestIsLater(live: seq<Entry>, at: int)
    requires Disjoint(live) && live != [] && at < End(live[0])
    ensures forall i :: 0 <= i < |live[1..]| ==>
        live[1..][i] == live[i + 1] && at <= live[1..][i].start && 0 < live[1..][i].dur
  {
    forall i | 0 <= i < |live[1..]|
      ensures live[1..][i] == live[i + 1] && at <= live[1..][i].start && 0 < live[1..][i].dur
    {
      assert live[1..][i] == live[i + 1] && End(live[0]) <= live[i + 1].start;
    }
  }

  lemma {:induction false} MovedLater(e: Entry, at: int, d: int)
    requires at <= e.start
    ensures Moved(e, at, d) == e.(start := e.start + d)
  {
  }

  /** What the shifted entries air is what the entries aired d seconds before. */
  lemma {:induction false} TailsAir(live: seq<Entry>, at: int, d: int, n: int)
    requires 0 <= d && at + d <= n
    requires forall i :: 0 <= i < |live| ==> at < End(live[i])
    ensures Air(Tails(live, at, d), n) == Air(live, n - d)
  {
    if live != [] {
      TailsAir(live[1..], at, d, n);
      assert Tails(live, at, d)[1..] == Tails(live[1..], at, d);
    }
  }

  lemma {:induction false} TailsSeconds(live: seq<Entry>, at: int, d: int)
    requires forall i :: 0 <= i < |live| ==> at < End(live[i])
    ensures Seconds(Heads(live, at)) + Seconds(Tails(live, at, d)) == Seconds(live)
  {
    if live != [] {
      TailsSeconds(live[1..], at, d);
      var h, t := Heads(live[1..], at), Tails(live[1..], at, d);
      SecondsConcat([Moved(live[0], at, d)], t);
      if live[0].start < at {
        SecondsConcat([live[0].(dur := at - live[0].start)], h);
      } else {
        assert [] + h == h;
      }
    }
  }

  /** A table in order at a moment: what is over by then, and what is not. */
  predicate Split(pre: seq<Entry>, live: seq<Entry>, at: int) {
    && Disjoint(pre) && Disjoint(live) && EndsBy(pre, at)
    && (forall i :: 0 <= i < |live| ==> at < End(live[i]))
    && (live != [] ==> EndsBy(pre, live[0].start))
  }

  lemma {:induction false} SplitTable(t: seq<Entry>, at: int)
    requires Disjoint(t)
    ensures var k := Ended(t, at); t == t[..k] + t[k..] && Split(t[..k], t[k..], at)
  {
    AfterEnded(t, at);
  }

  /** The table that an insert leaves behind. */
  function Inserted(t: seq<Entry>, at: int, ins: Entry): seq<Entry> {
    var k := Ended(t, at);
    t[..k] + InsertedEntries(t[k..], at, ins)
  }

  lemma {:induction false} MovedEnds(e: Entry, at: int, d: int)
    requires at < End(e) && 0 < e.dur
    ensures var m := Moved(e, at, d);
      && 0 < m.dur && End(m) == End(e) + d && at + d <= m.start && (at <= e.start ==> m.start == e.start + d)
  {
  }

  lemma {:induction false} TailsInOrder(live: seq<Entry>, at: int, ins: Entry)
    requires Split([], live, at) && 0 < ins.dur
    ensures var after := Tails(live, at, ins.dur); Disjoint(after) && StartsFrom(after, at + ins.dur)
  {
    InsertOnOrdered(live, at, ins);
    hide Tails, Heads, CutStart, Moved;
    var after, d := Tails(live, at, ins.dur), ins.dur;
    forall i | 0 <= i < |after|
      ensures 0 < after[i].dur && at + d <= after[i].start
    {
      MovedEnds(live[i], at, d);
    }
    forall i, j | 0 <= i < j < |after|
      ensures End(after[i]) <= after[j].start
    {
      MovedEnds(live[i], at, d);
      MovedEnds(live[j], at, d);
      assert at < End(live[i]) <= live[j].start;
    }
  }

  lemma {:induction false} HeadsInOrder(pre: seq<Entry>, live: seq<Entry>, at: int, ins: Entry)
    requires Split(pre, live, at) && 0 < ins.dur
    ensures var before := pre + Heads(live, at); Disjoint(before) && EndsBy(before, at)
  {
    InsertOnOrdered(live, at, ins);
    hide Tails, Heads, CutStart;
    var heads := Heads(live, at);
    if heads == [] {
      assert pre + [] == pre;
    } else {
      DisjointJoin(pre, heads, live[0].start);
    }
  }

  lemma {:induction false} InsertedIsDisjoint(pre: seq<Entry>, live: seq<Entry>, at: int, ins: Entry)
    requires Split(pre, live, at) && 0 < ins.dur
    ensures Disjoint(pre + InsertedEntries(live, at, ins))
  {
    HeadsInOrder(pre, live, at, ins);
    TailsInOrder(live, at, ins);
    hide Heads, Tails, Split;
    var before, added, after := pre + Heads(live, at), [ins.(start := at)], Tails(live, at, ins.dur);
    DisjointJoin(added, after, at + ins.dur);
    DisjointJoin(before, added + after, at);
    assert before + (added + after) == pre + InsertedEntries(live, at, ins);
  }

  /** In front of the moment a cut table airs what it aired. */
  lemma {:induction false} HeadsAir(pre: seq<Entry>, live: seq<Entry>, at: int, n: int)
    requires n < at && Split(pre, live, at)
    ensures Air(pre + Heads(live, at), n) == Air(pre + live, n)
  {
    AirConcat(pre, Heads(live, at), n);
    AirConcat(pre, live, n);
    if live != [] {
      FirstOnly(live, at, n);
    }
  }

  lemma {:induction false} FirstOnly(live: seq<Entry>, at: int, n: int)
    requires n < at && live != [] && Split([], live, at)
    ensures Air(live, n) == Air(Heads(live, at), n)
  {
    var rest := live[1..];
    forall i | 0 <= i < |rest|
      ensures at <= rest[i].start && 0 < rest[i].dur
    {
      assert rest[i] == live[i + 1] && End(live[0]) <= live[i + 1].start;
    }
    ShiftedLater(rest, at, 0, 0);
    AirOfNothing(rest, n);
  }

  /** What is on the air when ins is spliced into a schedule at a moment. */
  function SplicedAir(t: seq<Entry>, at: int, ins: Entry, n: int): Option<Shown> {
    if n < at then Air(t, n)
    else if n < at + ins.dur then Some(Show(ins.(start := at), n))
    else Air(t, n - ins.dur)
  }

  /** The three parts of the spliced table: one of them covers a second, in this order. */
  lemma {:induction false} AirOfParts(before: seq<Entry>, added: Entry, after: seq<Entry>, n: int)
    ensures Air(before + ([added] + after), n) ==
      if Air(before, n).Some? then Air(before, n) else if Covers(added, n) then Some(Show(added, n)) else Air(after, n)
  {
    hide Covers, Show;
    AirConcat(before, [added] + after, n);
    assert ([added] + after)[1..] == after;
  }

  lemma {:induction false} Regroup(pre: seq<Entry>, heads: seq<Entry>, added: Entry, after: seq<Entry>)
    ensures pre + (heads + [added] + after) == pre + heads + ([added] + after)
  {
  }

  lemma {:induction false} AirOfInserted(pre: seq<Entry>, live: seq<Entry>, at: int, ins: Entry, n: int)
    ensures var (before, added, after) := (pre + Heads(live, at), ins.(start := at), Tails(live, at, ins.dur));
      Air(pre + InsertedEntries(live, at, ins), n) ==
      if Air(before, n).Some? then Air(before, n) else if Covers(added, n) then Some(Show(added, n)) else Air(after, n)
  {
    hide Heads, Tails, Air, Covers, Show;
    Regroup(pre, Heads(live, at), ins.(start := at), Tails(live, at, ins.dur));
    AirOfParts(pre + Heads(live, at), ins.(start := at), Tails(live, at, ins.dur), n);
  }

  lemma {:induction false} EndedAirsNothing(a: seq<Entry>, at: int, n: int)
    requires EndsBy(a, at) && at <= n
    ensures Air(a, n) == None
  {
    AirOfNothing(a, n);
  }

  lemma {:induction false} LaterAirsNothing(a: seq<Entry>, from: int, n: int)
    requires StartsFrom(a, from) && n < from
    ensures Air(a, n) == None
  {
    AirOfNothing(a, n);
  }

  lemma {:induction false} AirBefore(pre: seq<Entry>, live: seq<Entry>, at: int, ins: Entry, n: int)
    requires Split(pre, live, at) && 0 < ins.dur && n < at
    ensures Air(pre + InsertedEntries(live, at, ins), n) == Air(pre + live, n)
  {
    TailsInOrder(live, at, ins) by { assert Split([], live, at); }
    hide Heads, Tails, Disjoint, Show, Split, StartsFrom, Air, InsertedEntries;
    AirOfInserted(pre, live, at, ins, n);
    HeadsAir(pre, live, at, n);
    LaterAirsNothing(Tails(live, at, ins.dur), at + ins.dur, n);
  }

  lemma {:induction false} AirDuring(pre: seq<Entry>, live: seq<Entry>, at: int, ins: Entry, n: int)
    requires Split(pre, live, at) && 0 < ins.dur && at <= n < at + ins.dur
    ensures Air(pre + InsertedEntries(live, at, ins), n) == Some(Show(ins.(start := at), n))
  {
    hide Heads, Tails, Disjoint, Show, Split, EndsBy, Air, InsertedEntries;
    HeadsInOrder(pre, live, at, ins);
    AirOfInserted(pre, live, at, ins, n);
    EndedAirsNothing(pre + Heads(live, at), at, n);
  }

  lemma {:induction false} AirBehind(pre: seq<Entry>, live: seq<Entry>, at: int, ins: Entry, n: int)
    requires Split(pre, live, at) && 0 < ins.dur && at + ins.dur <= n
    ensures Air(pre + InsertedEntries(live, at, ins), n) == Air(pre + live, n - ins.dur)
  {
    TailsAir(live, at, ins.dur, n);
    EndedAirsNothing(pre, at, n - ins.dur);
    AirConcat(pre, live, n - ins.dur);
    hide Heads, Tails, Disjoint, Show, Split, EndsBy, Air, InsertedEntries;
    HeadsInOrder(pre, live, at, ins);
    AirOfInserted(pre, live, at, ins, n);
    EndedAirsNothing(pre + Heads(live, at), at, n);
  }

  lemma {:induction false} InsertedAir(pre: seq<Entry>, live: seq<Entry>, at: int, ins: Entry, n: int)
    requires Split(pre, live, at) && 0 < ins.dur
    ensures Air(pre + InsertedEntries(live, at, ins), n) == SplicedAir(pre + live, at, ins, n)
  {
    hide Split, Air, InsertedEntries, Show;
    if n < at {
      AirBefore(pre, live, at, ins, n);
    } else if n < at + ins.dur {
      AirDuring(pre, live, at, ins, n);
    } else {
      AirBehind(pre, live, at, ins, n);
    }
  }

  lemma {:induction false} InsertedSeconds(pre: seq<Entry>, live: seq<Entry>, at: int, ins: Entry)
    requires Split(pre, live, at)
    ensures Seconds(pre + InsertedEntries(live, at, ins)) == Seconds(pre + live) + ins.dur
  {
    var heads, added, tails := Heads(live, at), [ins.(start := at)], Tails(live, at, ins.dur);
    TailsSeconds(live, at, ins.dur);
    SecondsConcat(pre, live);
    SecondsConcat(pre, heads + added + tails);
    SecondsConcat(heads + added, tails);
    SecondsConcat(heads, added);
  }

  /** What is over does not take part in an insert. */
  lemma {:induction false} InsertIgnoresEnded(pre: seq<Entry>, live: seq<Entry>, at: int, ins: Entry)
    requires EndsBy(pre, at)
    ensures InsertShift(pre + live, at, ins) == InsertShift(live, at, ins)
  {
    EndedIsIgnored(pre, live, at, ins.dur, at);
  }

  /** The window of the edit takes every old row that is not over, and no row that is. */
  lemma {:induction false} InsertWindow(pre: seq<Entry>, live: seq<Entry>, at: int, ins: Entry)
    requires Split(pre, live, at) && InsertShift(live, at, ins).Ok?
    ensures var ed := InsertShift(live, at, ins).value;
      && (forall i :: 0 <= i < |pre| ==> pre[i].start < ed.from)
      && (forall i :: 0 <= i < |live| ==> ed.from <= live[i].start < ed.to)
  {
    InsertOnOrdered(live, at, ins);
    var ed := InsertShift(live, at, ins).value;
    if live != [] {
      LastOfInserted(live, at, ins);
      MovedEnds(live[|live| - 1], at, ins.dur);
    }
    hide Heads, Tails, CutStart, InsertedEntries, Moved, BreakOnAir;
    forall i | 0 <= i < |pre|
      ensures pre[i].start < ed.from
    {
      assert 0 < pre[i].dur && End(pre[i]) <= at;
    }
    forall i | 0 <= i < |live|
      ensures ed.from <= live[i].start < ed.to
    {
      assert 0 < i ==> End(live[0]) <= live[i].start;
      assert i < |live| - 1 ==> End(live[i]) <= live[|live| - 1].start;
    }
  }

  lemma {:induction false} LastOfInserted(live: seq<Entry>, at: int, ins: Entry)
    requires Split([], live, at) && live != [] && 0 < ins.dur
    ensures var entries := InsertedEntries(live, at, ins);
      entries[|entries| - 1] == Moved(live[|live| - 1], at, ins.dur)
  {
    InsertOnOrdered(live, at, ins);
    hide Heads, Tails, Moved;
  }

  lemma {:induction false} InsertedIsSplice(pre: seq<Entry>, live: seq<Entry>, at: int, ins: Entry)
    requires Split(pre, live, at) && 0 < ins.dur
    ensures forall n :: Air(pre + InsertedEntries(live, at, ins), n) == SplicedAir(pre + live, at, ins, n)
  {
    forall n
      ensures Air(pre + InsertedEntries(live, at, ins), n) == SplicedAir(pre + live, at, ins, n)
    {
      InsertedAir(pre, live, at, ins, n);
    }
  }

  lemma {:induction false} InsertApplies(pre: seq<Entry>, live: seq<Entry>, at: int, ins: Entry)
    requires Split(pre, live, at) && InsertShift(pre + live, at, ins).Ok?
    ensures Replace(pre + live, InsertShift(pre + live, at, ins).value) == Some(pre + InsertedEntries(live, at, ins))
    ensures Disjoint(pre + InsertedEntries(live, at, ins))
  {
    InsertIgnoresEnded(pre, live, at, ins);
    InsertWindow(pre, live, at, ins);
    InsertedIsDisjoint(pre, live, at, ins);
    hide Heads, Tails, CutStart, Split, BreakOnAir;
    DisjointIsKeyed(pre + InsertedEntries(live, at, ins));
    ReplaceEnd(pre, live, InsertShift(live, at, ins).value);
  }

  /**
   Inserting is a splice: on every table in order the edit applies, keeps the order, adds
   exactly the seconds of the new entry, and changes what is on the air only by putting
   the new entry in and everything from that moment on later.
   */
  lemma {:induction false} InsertRefinesSplice(t: seq<Entry>, at: int, ins: Entry)
    requires Disjoint(t) && InsertShift(t, at, ins).Ok?
    ensures var r := Inserted(t, at, ins);
      && Replace(t, InsertShift(t, at, ins).value) == Some(r)
      && Disjoint(r)
      && Seconds(r) == Seconds(t) + ins.dur
      && forall n :: Air(r, n) == SplicedAir(t, at, ins, n)
  {
    SplitTable(t, at);
    var k := Ended(t, at);
    hide Split, SplicedAir, Air, InsertedEntries, Replace, Seconds;
    InsertApplies(t[..k], t[k..], at, ins);
    InsertedSeconds(t[..k], t[k..], at, ins);
    InsertedIsSplice(t[..k], t[k..], at, ins);
  }
}
