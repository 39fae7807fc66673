/**
 Whole runs of commands against the schedule of one channel: whatever the commands, the
 schedule stays in order, its seconds are accounted for, its version counts the applied
 commands, and a remembered answer stays what it was.
 */
module StoreRuns {
  import opened Common
  import opened Sorting
  import opened Schedule
  import opened ScheduleCut
  import opened Store

  // ----- what a command reads -----

  lemma {:induction false} RangeOfEnded(a: seq<Entry>, b: seq<Entry>, from: int, to: int)
    requires EndsBy(a, from)
    ensures Range(a + b, from, to) == Range(b, from, to)
  {
    if a == [] {
      assert a + b == b;
    } else {
      assert (a + b)[1..] == a[1..] + b && (a + b)[0] == a[0];
      RangeOfEnded(a[1..], b, from, to);
      assert [] + Range(b, from, to) == Range(b, from, to);
    }
  }

  lemma {:induction false} RangeOfLive(b: seq<Entry>, from: int, to: int)
    requires forall i :: 0 <= i < |b| ==> b[i].start < to && from < End(b[i])
    ensures Range(b, from, to) == b
  {
    if b != [] {
      RangeOfLive(b[1..], from, to);
    }
  }

  lemma {:induction false} LatestOfOrdered(t: seq<Entry>)
    requires Disjoint(t)
    ensures t != [] ==> EndsBy(t, LatestOf(t))
  {
    if t != [] {
      RestStartsLater(t);
      LatestEndIsLast(t[1..], End(t[0]));
      forall i | 0 <= i < |t|
        ensures End(t[i]) <= LatestOf(t)
      {
        if 0 < i {
          assert t[1..][i - 1] == t[i];
        }
      }
    }
  }

  /** The range read of a command gets exactly the entries that end after its moment. */
  lemma {:induction false} ExistingIsLive(t: seq<Entry>, at: int)
    requires Disjoint(t)
    ensures Existing(t, at) == t[Ended(t, at)..]
  {
    SplitTable(t, at);
    hide Split, Existing;
    ReadsLive(t[..Ended(t, at)], t[Ended(t, at)..], at);
  }

  lemma {:induction false} ReadsLive(pre: seq<Entry>, live: seq<Entry>, at: int)
    requires Split(pre, live, at) && Disjoint(pre + live)
    ensures Existing(pre + live, at) == live
  {
    hide Disjoint, LatestOf, Range, EndsBy, Split;
    var latest := LatestOf(pre + live);
    var end := if latest < at then at else latest;
    LatestOfOrdered(pre + live);
    if live != [] {
      LiveFits(pre, live, at, latest);
    }
    PreIsOver(pre, live, at);
    RangeOfEnded(pre, live, at, end + 1);
    RangeOfLive(live, at, end + 1);
  }

  lemma {:induction false} PreIsOver(pre: seq<Entry>, live: seq<Entry>, at: int)
    requires Split(pre, live, at)
    ensures EndsBy(pre, at)
  {
  }

  lemma {:induction false} LiveFits(pre: seq<Entry>, live: seq<Entry>, at: int, latest: int)
    requires Split(pre, live, at) && EndsBy(pre + live, latest)
    ensures forall i :: 0 <= i < |live| ==> live[i].start < latest + 1 && at < End(live[i])
  {
    forall i | 0 <= i < |live|
      ensures live[i].start < latest + 1 && at < End(live[i])
    {
      assert (pre + live)[|pre| + i] == live[i];
      assert 0 < live[i].dur;
    }
  }

  lemma {:induction false} SkipIgnoresEnded(pre: seq<Entry>, live: seq<Entry>, at: int)
    requires EndsBy(pre, at)
    ensures Skip(pre + live, at) == Skip(live, at)
  {
    OnAirConcat(pre, live, at);
    var k := OnAir(live, at);
    if k < |live| {
      assert (pre + live)[|pre| + k] == live[k] && (pre + live)[|pre| + k + 1..] == live[k + 1..];
    }
  }

  /** The command decides on the whole table what it decides on the part it read. */
  lemma {:induction false} EditedOnTable(t: seq<Entry>, c: Command, at: int, ins: Entry)
    requires Disjoint(t)
    ensures Edited(Existing(t, at), c, at, ins) == Edited(t, c, at, ins)
  {
    ExistingIsLive(t, at);
    SplitTable(t, at);
    var k := Ended(t, at);
    EndedIsIgnored(t[..k], t[k..], at, ins.dur, at);
    InsertIgnoresEnded(t[..k], t[k..], at, ins);
    SkipIgnoresEnded(t[..k], t[k..], at);
    hide Disjoint, Skip, InsertShift, BreakOnAir, Existing;
  }

  // ----- one command -----

  /** A row that the checks would let through wherever it starts. */
  predicate RowOk(e: Entry) { Flaw(e, e.start, e.start + 1) == None }

  predicate RowsOk(t: seq<Entry>) { forall e :: e in t ==> RowOk(e) }

  predicate Good(s: Sheet) { Disjoint(s.rows) && RowsOk(s.rows) }

  /** The table after an edit that a command decided on. */
  function After(t: seq<Entry>, c: Command, at: int, ins: Entry): seq<Entry>
    requires c.typ == SkipCurrent ==> OnAir(t, at) < |t|
  {
    if c.typ == SkipCurrent then Skipped(t, at) else Inserted(t, at, ins)
  }

  /** The seconds that a command adds to the schedule, or takes from it. */
  function Effect(t: seq<Entry>, c: Command, at: int, ins: Entry): int
    requires c.typ == SkipCurrent ==> OnAir(t, at) < |t|
  {
    if c.typ == SkipCurrent then -Remainder(t, at) else ins.dur
  }

  lemma {:induction false} EditApplies(t: seq<Entry>, c: Command, at: int, ins: Entry)
    requires Disjoint(t) && Edited(t, c, at, ins).Ok?
    ensures c.typ == SkipCurrent ==> OnAir(t, at) < |t|
    ensures Replace(t, Edited(t, c, at, ins).value) == Some(After(t, c, at, ins))
    ensures Disjoint(After(t, c, at, ins))
    ensures Seconds(After(t, c, at, ins)) == Seconds(t) + Effect(t, c, at, ins)
  {
    if c.typ == SkipCurrent {
      SkipRefinesCut(t, at);
    } else {
      InsertRefinesSplice(t, at, ins);
    }
  }

  lemma {:induction false} KeptIsOld(t: seq<Entry>, from: int, to: int, e: Entry)
    requires e in Kept(t, from, to)
    ensures e in t
  {
    if e != t[0] {
      KeptIsOld(t[1..], from, to, e);
    }
  }

  /** Every row of the new table is an old one or one of the checked entries. */
  lemma {:induction false} RowsStayOk(t: seq<Entry>, ed: Edit)
    requires RowsOk(t) && Replace(t, ed).Some? && CheckEntries(ed.entries, ed.from, ed.to).Ok?
    ensures RowsOk(Replace(t, ed).value)
  {
    CheckAcceptsIff(ed.entries, ed.from, ed.to);
    var kept := Kept(t, ed.from, ed.to);
    SameElements(kept + ed.entries);
    hide Sort, Kept, Keyed;
    forall e | e in Replace(t, ed).value
      ensures RowOk(e)
    {
      assert e in kept + ed.entries;
      if e in kept {
        KeptIsOld(t, ed.from, ed.to, e);
      } else {
        FineIff(e, ed.from, ed.to);
      }
    }
  }

  // ----- an edit of good rows passes the check -----

  lemma {:induction false} RowOkLike(e: Entry, f: Entry)
    requires RowOk(e) && f.kind == e.kind && f.asset == e.asset && f.uri == e.uri && 0 < f.dur && 0 <= f.off
    ensures RowOk(f)
  {
  }

  /** Entries in order inside their window are accepted if there are not too many. */
  lemma {:induction false} OrderedIsAccepted(entries: seq<Entry>, from: int, to: int)
    requires Disjoint(entries) && RowsOk(entries) && EndsBy(entries, to) && StartsFrom(entries, from)
    ensures CheckEntries(entries, from, to).Ok? <==> |entries| <= MAX_ENTRIES
  {
    hide Sort, CheckEntries;
    CheckAcceptsIff(entries, from, to);
    SortOfSorted(entries, Earlier);
    forall e | e in entries
      ensures Fine(e, from, to)
    {
      var i :| 0 <= i < |entries| && entries[i] == e;
      assert from <= entries[i].start < End(entries[i]) <= to;
      assert RowOk(e);
    }
  }

  lemma {:induction false} InsertedRowsOk(live: seq<Entry>, at: int, ins: Entry)
    requires Split([], live, at) && RowsOk(live) && RowOk(ins.(start := at))
    ensures RowsOk(InsertedEntries(live, at, ins))
  {
    InsertOnOrdered(live, at, ins);
    hide Heads, Tails, CutStart, RowOk, Moved;
    var heads, added, tails := Heads(live, at), ins.(start := at), Tails(live, at, ins.dur);
    forall e | e in heads + [added] + tails
      ensures RowOk(e)
    {
      if e in tails {
        var i :| 0 <= i < |tails| && tails[i] == e;
        MovedRowOk(live[i], at, ins.dur);
      } else if e != added {
        CutRowOk(live[0], at);
      }
    }
  }

  lemma {:induction false} MovedRowOk(e: Entry, at: int, d: int)
    requires RowOk(e) && at < End(e)
    ensures RowOk(Moved(e, at, d))
  {
    RowHasLength(e);
    hide RowOk;
    RowOkLike(e, Moved(e, at, d));
  }

  lemma {:induction false} CutRowOk(e: Entry, at: int)
    requires RowOk(e) && e.start < at
    ensures RowOk(e.(dur := at - e.start))
  {
    RowHasLength(e);
    hide RowOk;
    RowOkLike(e, e.(dur := at - e.start));
  }

  lemma {:induction false} RowHasLength(e: Entry)
    requires RowOk(e)
    ensures 0 < e.dur && 0 <= e.off
  {
  }

  lemma {:induction false} InsertIsAccepted(live: seq<Entry>, at: int, ins: Entry)
    requires Split([], live, at) && RowsOk(live) && RowOk(ins.(start := at)) && InsertShift(live, at, ins).Ok?
    ensures var ed := InsertShift(live, at, ins).value;
      CheckEntries(ed.entries, ed.from, ed.to).Ok? <==> |ed.entries| <= MAX_ENTRIES
  {
    hide Heads, Tails, CutStart, InsertShift, InsertedEntries, RowsOk, CheckEntries, Split, Disjoint;
    InsertEdit(live, at, ins);
    var ed := InsertShift(live, at, ins).value;
    FirstIsEarliest(ed.entries);
    LastEndsLast(ed.entries);
    OrderedIsAccepted(ed.entries, ed.from, ed.to);
  }

  /** The edit of an insert: good rows in order that fill its window. */
  lemma {:induction false} InsertEdit(live: seq<Entry>, at: int, ins: Entry)
    requires Split([], live, at) && RowsOk(live) && RowOk(ins.(start := at)) && InsertShift(live, at, ins).Ok?
    ensures var ed := InsertShift(live, at, ins).value;
      && RowsOk(ed.entries) && Disjoint(ed.entries) && ed.entries != []
      && ed.entries[0].start == ed.from && End(ed.entries[|ed.entries| - 1]) == ed.to
  {
    InsertStart(live, at, ins);
    hide RowsOk, Disjoint, Split, BreakOnAir, InsertedEntries, CutStart;
    InsertedRowsOk(live, at, ins);
    assert Disjoint(InsertedEntries(live, at, ins)) by {
      InsertedIsDisjoint([], live, at, ins);
      assert [] + InsertedEntries(live, at, ins) == InsertedEntries(live, at, ins);
    }
  }

  lemma {:induction false} InsertStart(live: seq<Entry>, at: int, ins: Entry)
    requires Split([], live, at) && 0 < ins.dur
    ensures InsertedEntries(live, at, ins)[0].start == CutStart(live, at, at)
  {
    InsertOnOrdered(live, at, ins);
    hide Disjoint, Heads, Tails, CutStart, Split, Moved;
    var heads, added, tails := Heads(live, at), [ins.(start := at)], Tails(live, at, ins.dur);
    assert (heads + added + tails)[0] == (heads + added)[0];
  }

  lemma {:induction false} LastEndsLast(t: seq<Entry>)
    requires t != [] && Disjoint(t)
    ensures EndsBy(t, End(t[|t| - 1]))
  {
    forall i | 0 <= i < |t|
      ensures End(t[i]) <= End(t[|t| - 1])
    {
      if i < |t| - 1 {
        assert End(t[i]) <= t[|t| - 1].start && 0 < t[|t| - 1].dur;
      }
    }
  }

  /** Good rows inside a window. */
  predicate Within(t: seq<Entry>, from: int, to: int) {
    RowsOk(t) && StartsFrom(t, from) && EndsBy(t, to)
  }

  lemma {:induction false} WithinConcat(a: seq<Entry>, b: seq<Entry>, from: int, to: int)
    requires Within(a, from, to) && Within(b, from, to)
    ensures Within(a + b, from, to)
  {
  }

  lemma {:induction false} AdvanceWithin(chain: seq<Entry>, p: int, from: int, to: int)
    requires Within(chain, from, to) && Disjoint(chain) && 0 <= p
    ensures Within(Advance(chain, p), from - p, to)
  {
    AdvanceElements(chain, p);
    hide Advance;
    var moved := Advance(chain, p);
    forall i | 0 <= i < |moved|
      ensures RowOk(moved[i])
    {
      assert chain[i] in chain;
      RowOkLike(chain[i], moved[i]);
    }
  }

  lemma {:induction false} ShortenedWithin(cur: Entry, at: int, to: int)
    requires RowOk(cur) && Covers(cur, at) && End(cur) <= to
    ensures Within(Shortened(cur, at), cur.start, to)
  {
    if cur.start < at {
      RowOkLike(cur, cur.(dur := at - cur.start));
    }
  }

  /** The entries of a skip in its parts. */
  lemma {:induction false} CutIsAccepted(cur: Entry, chain: seq<Entry>, other: seq<Entry>, at: int, ce: int, to: int)
    requires Parts([], cur, chain, other, at, ce) && RowOk(cur) && End(cur) <= to
    requires Within(chain, End(cur), to) && Within(other, cur.start, to)
    ensures var entries := Shortened(cur, at) + (Advance(chain, End(cur) - at) + other);
      CheckEntries(entries, cur.start, to).Ok? <==> |entries| <= MAX_ENTRIES
  {
    var p := End(cur) - at;
    CutIsDisjoint([], cur, chain, other, at, ce);
    ShortenedWithin(cur, at, to);
    AdvanceWithin(chain, p, End(cur), to);
    var short, moved := Shortened(cur, at), Advance(chain, p);
    assert [] + short == short;
    assert Within(moved, cur.start, to);
    hide Shortened, Advance, CheckEntries, Disjoint, Parts;
    WithinConcat(moved, other, cur.start, to);
    WithinConcat(short, moved + other, cur.start, to);
    OrderedIsAccepted(short + (moved + other), cur.start, to);
  }

  /** The parts of a table with good rows. */
  lemma {:induction false} PartsWithin(t: seq<Entry>, at: int)
    requires Disjoint(t) && RowsOk(t) && OnAir(t, at) < |t|
    ensures var cur := Current(t, at);
      var to := LatestEnd(Behind(t, at), End(cur));
      && RowOk(cur) && End(cur) <= to && Parts([], cur, Chain(t, at), Other(t, at), at, EndOfChain(t, at))
      && Within(Chain(t, at), End(cur), to) && Within(Other(t, at), cur.start, to)
  {
    SkipParts(t, at);
    SplitAt(t, OnAir(t, at));
    assert Current(t, at) in t;
    LatestEndIsLast(Behind(t, at), End(Current(t, at)));
    BehindWithin(t, at, LatestEnd(Behind(t, at), End(Current(t, at))));
    hide LatestEnd, Chain, Other, Current, Behind, EndOfChain, OnAir, Disjoint, RowOk;
  }

  lemma {:induction false} BehindWithin(t: seq<Entry>, at: int, to: int)
    requires RowsOk(t) && OnAir(t, at) < |t|
    requires StartsFrom(Behind(t, at), End(Current(t, at))) && EndsBy(Behind(t, at), to)
    ensures Within(Chain(t, at), End(Current(t, at)), to) && Within(Other(t, at), End(Current(t, at)), to)
  {
    hide OnAir, ChainLength;
    assert forall e :: e in Behind(t, at) ==> e in t;
    hide Behind;
    assert forall e :: e in Chain(t, at) ==> e in Behind(t, at);
    assert forall e :: e in Other(t, at) ==> e in Behind(t, at);
  }

  lemma {:induction false} SkipIsAccepted(t: seq<Entry>, at: int)
    requires Disjoint(t) && RowsOk(t) && OnAir(t, at) < |t|
    ensures Skip(t, at).Ok?
    ensures var ed := Skip(t, at).value;
      CheckEntries(ed.entries, ed.from, ed.to).Ok? <==> |ed.entries| <= MAX_ENTRIES
  {
    hide Parts, RowsOk, RowOk, CheckEntries, Skip, Disjoint, OnAir, Chain, Other, Current, Behind, EndOfChain,
         LatestEnd;
    SkipEdit(t, at);
    PartsWithin(t, at);
    var cur := Current(t, at);
    CutIsAccepted(cur, Chain(t, at), Other(t, at), at, EndOfChain(t, at), LatestEnd(Behind(t, at), End(cur)));
  }

  /** Of the edits of good rows the check refuses only those with too many entries. */
  lemma {:induction false} EditIsAccepted(t: seq<Entry>, c: Command, at: int, ins: Entry)
    requires Disjoint(t) && RowsOk(t) && (c.typ != SkipCurrent ==> RowOk(ins.(start := at))) &&
        Edited(t, c, at, ins).Ok?
    ensures var ed := Edited(t, c, at, ins).value;
      CheckEntries(ed.entries, ed.from, ed.to).Ok? <==> |ed.entries| <= MAX_ENTRIES
  {
    hide CheckEntries, Skip, InsertShift, Disjoint, BreakOnAir, RowsOk, RowOk;
    if c.typ == SkipCurrent {
      assert OnAir(t, at) < |t| by { SkipNeedsOnAir(t, at); }
      SkipIsAccepted(t, at);
    } else {
      hide OnAir;
      SplitTable(t, at);
      hide Split;
      var k := Ended(t, at);
      assert t == t[..k] + t[k..];
      InsertIgnoresEnded(t[..k], t[k..], at, ins) by { PreIsOver(t[..k], t[k..], at); }
      LiveRowsOk(t, k);
      assert Split([], t[k..], at) by { LiveIsSplit(t[..k], t[k..], at); }
      InsertIsAccepted(t[k..], at, ins);
    }
  }

  lemma {:induction false} SkipNeedsOnAir(t: seq<Entry>, at: int)
    ensures Skip(t, at).Ok? ==> OnAir(t, at) < |t|
  {
  }

  lemma {:induction false} LiveRowsOk(t: seq<Entry>, k: nat)
    requires RowsOk(t) && k <= |t|
    ensures RowsOk(t[k..])
  {
    hide RowOk;
  }

  lemma {:induction false} LiveIsSplit(pre: seq<Entry>, live: seq<Entry>, at: int)
    requires Split(pre, live, at)
    ensures Split([], live, at)
  {
  }

  lemma {:induction false} CommandIsAcceptedIff(t: seq<Entry>, c: Command, at: int, ins: Entry)
    requires Disjoint(t) && RowsOk(t) && (c.typ != SkipCurrent ==> RowOk(ins.(start := at)))
    ensures Decide(t, c, at, ins).Ok? <==>
      && |t| - Ended(t, at) <= MAX_ENTRIES
      && Edited(t, c, at, ins).Ok? && |Edited(t, c, at, ins).value.entries| <= MAX_ENTRIES
  {
    ExistingIsLive(t, at);
    EditedOnTable(t, c, at, ins);
    hide CheckEntries, Disjoint, RowsOk, Existing, Edited;
    if Edited(t, c, at, ins).Ok? {
      EditIsAccepted(t, c, at, ins);
    }
  }

  /** The moment and the entry of a request that passed its first checks. */
  function MomentAndEntry(q: Request, assets: Assets): (int, Entry)
    requires Prepared(q, assets).Ok?
  {
    Prepared(q, assets).value
  }

  /** The change of the scheduled seconds that a request makes. */
  function Added(s: Sheet, q: Request, assets: Assets): int {
    if !Run(s, q, assets).1.Applied? || Prepared(q, assets).Err? then 0 else
      var (at, ins) := MomentAndEntry(q, assets);
      if q.command.typ != SkipCurrent then ins.dur
      else if OnAir(s.rows, at) < |s.rows| then -Remainder(s.rows, at) else 0
  }

  lemma {:induction false} AppliedIsEdited(s: Sheet, q: Request, assets: Assets)
    requires Good(s) && Run(s, q, assets).1.Applied?
    ensures Prepared(q, assets).Ok?
    ensures var (at, ins) := MomentAndEntry(q, assets);
      && Edited(s.rows, q.command, at, ins).Ok?
      && var ed := Edited(s.rows, q.command, at, ins).value;
      && CheckEntries(ed.entries, ed.from, ed.to).Ok? && Replace(s.rows, ed) == Some(Run(s, q, assets).0.rows)
  {
    var (at, ins) := MomentAndEntry(q, assets);
    EditedOnTable(s.rows, q.command, at, ins);
    hide Edited, CheckEntries, Replace, Existing, Prepared, Disjoint;
  }

  /**
   One command on a good sheet: an applied one leaves a good sheet, raises the version by
   one and changes the scheduled seconds by what it inserted or skipped; any other leaves
   everything as it was. No command ever meets a row with its own key.
   */
  lemma {:induction false} CommandKeepsSheet(s: Sheet, q: Request, assets: Assets)
    requires Good(s)
    ensures var (s', r) := Run(s, q, assets);
      && Good(s')
      && Seconds(s'.rows) == Seconds(s.rows) + Added(s, q, assets)
      && s'.version == s.version + (if r.Applied? then 1 else 0)
      && (!r.Applied? ==> s' == s)
      && r != Refused(DuplicateStart)
  {
    var (s', r) := Run(s, q, assets);
    if r.Applied? {
      AppliedIsEdited(s, q, assets);
      var (at, ins) := MomentAndEntry(q, assets);
      EditApplies(s.rows, q.command, at, ins);
      var ed := Edited(s.rows, q.command, at, ins).value;
      RowsStayOk(s.rows, ed);
      hide Edited, CheckEntries, Replace, Existing, Prepared, Disjoint, RowsOk, After, Effect;
    } else if Prepared(q, assets).Ok? {
      var (at, ins) := MomentAndEntry(q, assets);
      EditedOnTable(s.rows, q.command, at, ins);
      if Edited(s.rows, q.command, at, ins).Ok? {
        EditApplies(s.rows, q.command, at, ins);
      }
      hide Edited, CheckEntries, Replace, Existing, Prepared, Disjoint, RowsOk, After, Effect;
    }
  }

  /** What an applied command does to entries and positions: a splice of its entry, or a cut of the running one. */
  lemma {:induction false} CommandRefinesAir(s: Sheet, q: Request, assets: Assets)
    requires Good(s) && Run(s, q, assets).1.Applied?
    ensures Prepared(q, assets).Ok?
    ensures var (at, ins) := MomentAndEntry(q, assets);
      var t, t' := s.rows, Run(s, q, assets).0.rows;
      if q.command.typ == SkipCurrent then
        && OnAir(t, at) < |t|
        && forall n :: Air(t', n) == CutAir(t, at, Remainder(t, at), EndOfChain(t, at), n)
      else forall n :: Air(t', n) == SplicedAir(t, at, ins, n)
  {
    AppliedIsEdited(s, q, assets);
    var (at, ins) := MomentAndEntry(q, assets);
    EditApplies(s.rows, q.command, at, ins);
    hide Run, Replace, Disjoint, CheckEntries, Prepared;
    if q.command.typ == SkipCurrent {
      SkipRefinesCut(s.rows, at);
    } else {
      InsertRefinesSplice(s.rows, at, ins);
    }
  }

  // ----- whole runs -----

  /** A request and the assets that are registered when it arrives. */
  datatype Call = Call(request: Request, assets: Assets)

  function RunAll(s: Sheet, cs: seq<Call>): Sheet
    decreases |cs|
  {
    if cs == [] then s else RunAll(Run(s, cs[0].request, cs[0].assets).0, cs[1..])
  }

  function AppliedCount(s: Sheet, cs: seq<Call>): nat
    decreases |cs|
  {
    if cs == [] then 0 else
      var (next, r) := Run(s, cs[0].request, cs[0].assets);
      (if r.Applied? then 1 else 0) + AppliedCount(next, cs[1..])
  }

  function AddedInRun(s: Sheet, cs: seq<Call>): int
    decreases |cs|
  {
    if cs == [] then 0 else
      Added(s, cs[0].request, cs[0].assets) + AddedInRun(Run(s, cs[0].request, cs[0].assets).0, cs[1..])
  }

  /** Every run of commands keeps the schedule in order, counts its edits and conserves its seconds. */
  lemma {:induction false} RunKeepsSheet(s: Sheet, cs: seq<Call>)
    requires Good(s)
    ensures var e := RunAll(s, cs);
      && Good(e)
      && e.version == s.version + AppliedCount(s, cs)
      && Seconds(e.rows) == Seconds(s.rows) + AddedInRun(s, cs)
    decreases |cs|
  {
    hide Good, Run, Added;
    if cs != [] {
      CommandKeepsSheet(s, cs[0].request, cs[0].assets);
      RunKeepsSheet(Run(s, cs[0].request, cs[0].assets).0, cs[1..]);
    }
  }

  lemma {:induction false} RunKeepsKeys(s: Sheet, q: Request, assets: Assets, key: string)
    requires key in s.keys
    ensures key in Run(s, q, assets).0.keys && Run(s, q, assets).0.keys[key] == s.keys[key]
  {
    hide Prepared, Decide, Replace;
  }

  lemma {:induction false} RunAllKeepsKeys(s: Sheet, cs: seq<Call>, key: string)
    requires key in s.keys
    ensures key in RunAll(s, cs).keys && RunAll(s, cs).keys[key] == s.keys[key]
    decreases |cs|
  {
    hide Run;
    if cs != [] {
      RunKeepsKeys(s, cs[0].request, cs[0].assets, key);
      RunAllKeepsKeys(Run(s, cs[0].request, cs[0].assets).0, cs[1..], key);
    }
  }

  /**
   A request that was applied under a key, then any run of commands, then a request with
   the same key: it never changes the schedule; with another body it is refused; with the
   same body it gets the first answer exactly when it still passes the checks that are made
   before the stored answers are looked at.
   */
  lemma {:induction false} RepeatIsAnswered(s: Sheet, q: Request, assets: Assets, cs: seq<Call>, again: Request,
      later: Assets)
    requires q.key != "" && Run(s, q, assets).1.Applied? && again.key == q.key
    ensures var before := RunAll(Run(s, q, assets).0, cs);
      var (end, r) := Run(before, again, later);
      && end == before
      && (again.hash == q.hash ==> (r == Replayed(Run(s, q, assets).1.answer) <==> Prepared(again, later).Ok?))
      && (again.hash != q.hash ==> r.Refused?)
      && (Prepared(again, later).Err? ==> r == Refused(Prepared(again, later).error))
  {
    hide Prepared, Decide, Replace;
    RunAllKeepsKeys(Run(s, q, assets).0, cs, q.key);
  }

  /** The repeat of a command with a fixed time is refused once that time has come too close. */
  lemma {:induction false} LateRepeatIsRefused(s: Sheet, assets: Assets)
    requires s == Sheet([], 0, map[])
    ensures var c := Command(InsertSlate, At(100), 10, "", "", "", "", false);
      var q, again := Request(c, "k", "h", 90 * SECOND_NS, 0), Request(c, "k", "h", 101 * SECOND_NS, 0);
      var (s', r) := Run(s, q, assets);
      && r == Applied(Answer(InsertSlate, 100, 1, 1))
      && Run(s', again, assets) == (s', Refused(TooSoon))
  {
    var c := Command(InsertSlate, At(100), 10, "", "", "", "", false);
    var q := Request(c, "k", "h", 90 * SECOND_NS, 0);
    var ins := Entry(Slate, "", "", 0, 10, 0, "", "");
    var again := Request(c, "k", "h", 101 * SECOND_NS, 0);
    assert Earliest(90 * SECOND_NS, 0) == 90 && Earliest(101 * SECOND_NS, 0) == 101;
    assert Prepared(q, assets) == Ok((100, ins)) && Prepared(again, assets) == Err(TooSoon);
    var added := ins.(start := 100);
    FirstSlate(c, ins, added);
    hide Prepared, Decide, Replace, Earliest;
  }

  /** The slate of the example on an empty table. */
  lemma {:induction false} FirstSlate(c: Command, ins: Entry, added: Entry)
    requires c == Command(InsertSlate, At(100), 10, "", "", "", "", false)
    requires ins == Entry(Slate, "", "", 0, 10, 0, "", "") && added == ins.(start := 100)
    ensures Decide([], c, 100, ins) == Ok(Edit(100, 110, [added])) &&
        Replace([], Edit(100, 110, [added])) == Some([added])
  {
    assert InsertedEntries([], 100, ins) == [added];
    assert InsertShift([], 100, ins) == Ok(Edit(100, 110, [added]));
    assert Sort([added], Earlier) == [added] by {
      assert [added][1..] == [];
      assert Sort([added][1..], Earlier) == [];
    }
    assert FirstFlaw([added], 0, 100, 110) == FirstFlaw([added], 1, 100, 110) == None;
    assert CheckEntries([added], 100, 110) == Ok([added]);
    assert Existing([], 100) == [];
    assert Decide([], c, 100, ins) == Ok(Edit(100, 110, [added]));
    assert Kept([], 100, 110) + [added] == [added];
    assert Replace([], Edit(100, 110, [added])) == Some([added]);
  }
}
