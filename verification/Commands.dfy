/**
 What a command does, said by its own fields: which commands are refused and why, when an
 accepted one reaches the air, what it shows in every second and how many entries it writes.
 */
module Commands {
  import opened Common
  import opened Sorting
  import opened Schedule
  import opened ScheduleCut
  import opened SpliceText
  import opened Store
  import opened StoreRuns

  // ----- the fields of a request -----

  /** A number of seconds is not before the moment of the request plus the lead. */
  predicate NotBefore(q: Request, t: int) { q.nowNs + q.leadNs <= t * 1_000_000_000 }

  /** The second in which the request acts: the given one, or the first that is not too early. */
  predicate ActsAt(q: Request, at: int) {
    match q.command.at
    case At(t) => at == t
    case Now => NotBefore(q, at) && !NotBefore(q, at - 1)
    case _ => false
  }

  /** The seconds of what is inserted: those of the command, or of the asset when it gives none. */
  function AskedSeconds(c: Command, assets: Assets): int {
    if c.typ == InsertAsset && c.duration == 0 && c.asset != "" && c.asset in assets then assets[c.asset]
    else c.duration
  }

  /** What an insert shows so many seconds after it began. */
  function AskedFor(c: Command, second: int): Shown {
    match c.typ
    case InsertBreak => Shown(AdBreak, "", "", if c.category == "" then "midroll" else c.category, c.scte35, second)
    case InsertAsset => Shown(Content, c.asset, c.uri, "", "", second)
    case _ => Shown(Slate, "", "", "", "", second)
  }

  // ----- the schedule at a moment -----

  predicate SomethingAt(t: seq<Entry>, at: int) { Air(t, at).Some? }

  predicate BreakAt(t: seq<Entry>, at: int) { SomethingAt(t, at) && Air(t, at).value.kind == AdBreak }

  /** Something is on the air that began earlier. */
  predicate RunsAt(t: seq<Entry>, at: int) { exists e <- t :: e.start < at < End(e) }

  /** How many entries end later. */
  function EndingAfter(t: seq<Entry>, at: int): nat {
    if t == [] then 0 else (if at < End(t[0]) then 1 else 0) + EndingAfter(t[1..], at)
  }

  /** How many entries a command writes: those that are not over, one more or less, and one more for one that is cut. */
  function Written(t: seq<Entry>, c: Command, at: int): int {
    EndingAfter(t, at) + (if c.typ == SkipCurrent then -1 else 1) + if RunsAt(t, at) then 1 else 0
  }

  // ----- what is refused -----

  /** What is wrong with a request whatever the schedule is. */
  function Wrong(q: Request, assets: Assets): Option<Refusal> {
    var c := q.command;
    if c.typ.OtherCommand? then Some(UnknownCommand)
    else if !c.at.Now? && !c.at.At? then Some(BadMoment)
    else if c.at.At? && !NotBefore(q, c.at.second) then Some(TooSoon)
    else if c.typ == SkipCurrent then None
    else if c.typ == InsertBreak && (c.asset != "" || c.uri != "") then Some(AssetWithBreak)
    else if c.typ == InsertAsset && c.asset == "" && c.uri == "" then Some(NoAsset)
    else if c.typ == InsertAsset && c.asset != "" && c.asset !in assets then Some(NotRegistered)
    else if AskedSeconds(c, assets) < 1 || AskedSeconds(c, assets) > 4 * 3600 then Some(BadDuration)
    else if c.typ == InsertBreak && c.category != ""
            && (IsSpace(c.category[0]) || IsSpace(c.category[|c.category| - 1]))
    then Some(SpacesAround)
    else None
  }

  /** What is wrong with a command on a schedule. */
  function Unfit(t: seq<Entry>, c: Command, at: int): Option<Refusal> {
    if EndingAfter(t, at) > 20000 then Some(ScheduleTooLong)
    else if c.typ == SkipCurrent && c.onlyBreak && !BreakAt(t, at) then Some(NoBreakOnAir)
    else if c.typ == SkipCurrent && !SomethingAt(t, at) then Some(Edits(NothingOnAir))
    else if c.typ == InsertBreak && BreakAt(t, at) then Some(Edits(AlreadyOnAir))
    else if Written(t, c, at) > 20000 then Some(Edits(TooManyEntries))
    else None
  }

  // ----- proofs about single steps -----

  lemma {:induction false} MomentIs(q: Request)
    ensures var m := MomentOf(q.command, Earliest(q.nowNs, q.leadNs));
      && (m == Err(BadMoment) <==> !q.command.at.Now? && !q.command.at.At?)
      && (m == Err(TooSoon) <==> q.command.at.At? && !NotBefore(q, q.command.at.second))
      && (m.Err? ==> m.error == BadMoment || m.error == TooSoon)
      && (m.Ok? ==> ActsAt(q, m.value) && NotBefore(q, m.value))
  {
  }

  /** The entry is a plain one that shows what is asked for. */
  lemma {:induction false} EntryIs(c: Command, assets: Assets, e: Entry, n: int, at: int)
    requires c.typ != SkipCurrent && NewEntry(c, assets) == Ok(e)
    ensures e.dur == AskedSeconds(c, assets) && 1 <= e.dur
    ensures Show(e.(start := at), n) == AskedFor(c, n - at)
    ensures RowOk(e.(start := at)) && (e.kind == AdBreak <==> c.typ == InsertBreak)
  {
  }

  lemma {:induction false} EntryIff(q: Request, assets: Assets)
    requires !q.command.typ.OtherCommand? && MomentOf(q.command, Earliest(q.nowNs, q.leadNs)).Ok?
    ensures match NewEntry(q.command, assets)
      case Err(e) => Wrong(q, assets) == Some(e)
      case Ok(_) => Wrong(q, assets) == None
  {
    MomentIs(q);
    NotSpaced();
    hide MomentOf, Earliest, IsSpace, NotBefore;
  }

  lemma {:induction false} NotSpaced()
    ensures !Spaced("") && !Spaced("midroll")
  {
  }

  /** The checks that are made before the schedule is looked at. */
  lemma {:induction false} PreparedIff(q: Request, assets: Assets)
    ensures match Prepared(q, assets)
      case Err(e) => Wrong(q, assets) == Some(e)
      case Ok((at, ins)) =>
        && Wrong(q, assets) == None && ActsAt(q, at)
        && (q.command.typ != SkipCurrent ==> NewEntry(q.command, assets) == Ok(ins))
  {
    MomentIs(q);
    hide MomentOf, Earliest, NewEntry, NotBefore, ActsAt;
    if !q.command.typ.OtherCommand? {
      var m := MomentOf(q.command, Earliest(q.nowNs, q.leadNs));
      if m.Ok? { EntryIff(q, assets); }
    }
  }

  lemma {:induction false} BreakIsAir(t: seq<Entry>, at: int)
    requires Disjoint(t)
    ensures BreakOnAir(t, at) <==> BreakAt(t, at)
  {
    if t != [] {
      assert forall i :: 1 <= i < |t| ==> t[i] == t[1..][i - 1];
      if Covers(t[0], at) {
        assert forall i :: 1 <= i < |t| ==> at < t[i].start;
      } else {
        BreakIsAir(t[1..], at);
      }
    }
  }

  /** An ad break is refused exactly while another one is on the air. */
  lemma {:induction false} InsertIsRefusedIff(t: seq<Entry>, at: int, ins: Entry)
    requires Disjoint(t)
    ensures InsertShift(t, at, ins) == Err(DurationNotPositive) <==> ins.dur <= 0
    ensures InsertShift(t, at, ins) == Err(AlreadyOnAir) <==> 0 < ins.dur && ins.kind == AdBreak && BreakAt(t, at)
    ensures InsertShift(t, at, ins).Ok? <==> 0 < ins.dur && !(ins.kind == AdBreak && BreakAt(t, at))
  {
    BreakIsAir(t, at);
    hide BreakOnAir, BreakAt;
  }

  lemma {:induction false} NothingEnds(t: seq<Entry>, at: int)
    requires EndsBy(t, at)
    ensures EndingAfter(t, at) == 0
  {
    if t != [] { NothingEnds(t[1..], at); }
  }

  lemma {:induction false} AllEnd(t: seq<Entry>, at: int)
    requires forall i :: 0 <= i < |t| ==> at < End(t[i])
    ensures EndingAfter(t, at) == |t|
  {
    if t != [] { AllEnd(t[1..], at); }
  }

  lemma {:induction false} EndingConcat(a: seq<Entry>, b: seq<Entry>, at: int)
    ensures EndingAfter(a + b, at) == EndingAfter(a, at) + EndingAfter(b, at)
  {
    if a == [] {
      assert a + b == b;
    } else {
      assert (a + b)[1..] == a[1..] + b;
      EndingConcat(a[1..], b, at);
    }
  }

  lemma {:induction false} EndingIsLive(t: seq<Entry>, at: int)
    requires Disjoint(t)
    ensures EndingAfter(t, at) == |t| - Ended(t, at)
    ensures RunsAt(t, at) <==> Ended(t, at) < |t| && t[Ended(t, at)].start < at
  {
    var k := Ended(t, at);
    AfterEnded(t, at);
    RunsIsFirst(t, at, k);
    hide Ended, Disjoint, RunsAt, EndingAfter;
    EndingBehind(t, at, k);
  }

  lemma {:induction false} EndingBehind(t: seq<Entry>, at: int, k: nat)
    requires k <= |t| && (forall i :: 0 <= i < k ==> End(t[i]) <= at) && forall i :: k <= i < |t| ==> at < End(t[i])
    ensures EndingAfter(t, at) == |t| - k
  {
    hide EndingAfter;
    assert t == t[..k] + t[k..];
    NothingEnds(t[..k], at);
    AllEnd(t[k..], at);
    EndingConcat(t[..k], t[k..], at);
  }

  lemma {:induction false} RunsIsFirst(t: seq<Entry>, at: int, k: nat)
    requires k <= |t| && (forall i :: 0 <= i < k ==> End(t[i]) <= at)
    requires (k < |t| ==> at < End(t[k])) && forall i :: k < i < |t| ==> at < t[i].start
    ensures RunsAt(t, at) <==> k < |t| && t[k].start < at
  {
    if k < |t| { assert t[k] in t; }
  }

  lemma {:induction false} InsertWrites(t: seq<Entry>, at: int, ins: Entry)
    requires Disjoint(t) && InsertShift(t, at, ins).Ok?
    ensures |InsertShift(t, at, ins).value.entries| == EndingAfter(t, at) + 1 + (if RunsAt(t, at) then 1 else 0)
  {
    var k := Ended(t, at);
    var pre, live := t[..k], t[k..];
    SplitTable(t, at);
    EndingIsLive(t, at);
    InsertIgnoresEnded(pre, live, at, ins);
    assert t == pre + live && Split(pre, live, at);
    hide Heads, Tails, CutStart, RunsAt, BreakOnAir, Ended, EndingAfter, InsertShift;
    assert Disjoint(live) && forall i :: 0 <= i < |live| ==> at < End(live[i]);
    InsertWritesLive(live, at, ins);
  }

  lemma {:induction false} InsertWritesLive(live: seq<Entry>, at: int, ins: Entry)
    requires Disjoint(live) && InsertShift(live, at, ins).Ok? && forall i :: 0 <= i < |live| ==> at < End(live[i])
    ensures |InsertShift(live, at, ins).value.entries|
         == |live| + 1 + (if live != [] && live[0].start < at then 1 else 0)
  {
    hide Disjoint, Heads, Tails, CutStart, BreakOnAir, Moved;
    InsertOnOrdered(live, at, ins);
  }

  lemma {:induction false} OnAirIsLive(t: seq<Entry>, at: int)
    requires Disjoint(t) && OnAir(t, at) < |t|
    ensures OnAir(t, at) == Ended(t, at) && Covers(t[OnAir(t, at)], at)
  {
    OnAirCovers(t, at);
    AfterEnded(t, at);
    hide OnAir, Ended;
    var i, k := OnAir(t, at), Ended(t, at);
    if i < k { assert false; }
    if k < i { assert false; }
  }

  lemma {:induction false} SkipWrites(t: seq<Entry>, at: int)
    requires Disjoint(t) && Skip(t, at).Ok?
    ensures |Skip(t, at).value.entries| == EndingAfter(t, at) - 1 + (if RunsAt(t, at) then 1 else 0)
  {
    SkipNeedsOnAir(t, at);
    OnAirIsLive(t, at);
    EndingIsLive(t, at);
    hide OnAir, RunsAt, Ended, Disjoint, EndingAfter;
    var k := OnAir(t, at);
    assert |t[k + 1..]| == |t| - k - 1;
  }

  /** The edit that a command asks for, on the whole table. */
  lemma {:induction false} EditedIff(t: seq<Entry>, c: Command, at: int, ins: Entry)
    requires Disjoint(t) && (c.typ != SkipCurrent ==> 1 <= ins.dur && (ins.kind == AdBreak <==> c.typ == InsertBreak))
    ensures var r := Edited(t, c, at, ins);
      && (r == Err(NoBreakOnAir) <==> c.typ == SkipCurrent && c.onlyBreak && !BreakAt(t, at))
      && (r == Err(Edits(NothingOnAir)) <==>
            c.typ == SkipCurrent && !(c.onlyBreak && !BreakAt(t, at)) && !SomethingAt(t, at))
      && (r == Err(Edits(AlreadyOnAir)) <==> c.typ == InsertBreak && BreakAt(t, at))
      && (r.Err? ==> r.error == NoBreakOnAir || r.error == Edits(NothingOnAir) || r.error == Edits(AlreadyOnAir))
      && (r.Ok? ==> |r.value.entries| == Written(t, c, at))
  {
    BreakIsAir(t, at);
    OnAirIffAir(t, at);
    InsertIsRefusedIff(t, at, ins);
    if c.typ == SkipCurrent {
      SkipKinds(t, at);
      if Skip(t, at).Ok? { SkipWrites(t, at); }
    } else if InsertShift(t, at, ins).Ok? {
      InsertWrites(t, at, ins);
    }
    hide BreakOnAir, BreakAt, OnAir, Air, RunsAt, EndingAfter, Disjoint, Skip, InsertShift;
  }

  lemma {:induction false} SkipKinds(t: seq<Entry>, at: int)
    ensures Skip(t, at) == Err(NothingOnAir) <==> OnAir(t, at) == |t|
    ensures Skip(t, at).Ok? <==> OnAir(t, at) < |t|
  {
  }

  /** The problems that the check finds in the edits of a command. */
  lemma {:induction false} CheckedIff(t: seq<Entry>, c: Command, at: int, ins: Entry)
    requires Disjoint(t) && RowsOk(t) && (c.typ != SkipCurrent ==> RowOk(ins.(start := at)))
    requires Edited(t, c, at, ins).Ok?
    ensures var ed := Edited(t, c, at, ins).value;
      var r := CheckEntries(ed.entries, ed.from, ed.to);
      (r.Ok? <==> |ed.entries| <= MAX_ENTRIES) && (r.Err? ==> r.error == TooManyEntries)
  {
    EditIsAccepted(t, c, at, ins);
    hide Edited, Disjoint, RowsOk, RowOk, Sort;
  }

  lemma {:induction false} DecidedIff(t: seq<Entry>, c: Command, at: int, ins: Entry)
    requires Disjoint(t) && RowsOk(t)
    requires c.typ != SkipCurrent ==>
      RowOk(ins.(start := at)) && 1 <= ins.dur && (ins.kind == AdBreak <==> c.typ == InsertBreak)
    ensures match Decide(t, c, at, ins)
      case Err(e) => Unfit(t, c, at) == Some(e)
      case Ok(ed) => Unfit(t, c, at) == None && |ed.entries| == Written(t, c, at)
  {
    ExistingIsLive(t, at);
    EndingIsLive(t, at);
    EditedOnTable(t, c, at, ins);
    EditedIff(t, c, at, ins);
    if Edited(t, c, at, ins).Ok? { CheckedIff(t, c, at, ins); }
    hide CheckEntries, Disjoint, RowsOk, RowOk, Existing, Edited, BreakAt, SomethingAt, Written, EndingAfter, RunsAt,
         Ended;
  }

  // ----- whole commands -----

  predicate Known(s: Sheet, q: Request) { q.key != "" && q.key in s.keys }

  /**
   Which request is refused and why, on every good sheet and for all fields: what is wrong with
   the request itself, a key that was used for another body, or what does not fit the schedule
   at the moment of the command. A known key with the same body gets its first answer, and
   every other request is applied, at its moment, with the entries that were counted.
   */
  lemma {:induction false} CommandIsRefusedIff(s: Sheet, q: Request, assets: Assets, at: int)
    requires Good(s) && (Wrong(q, assets) == None ==> ActsAt(q, at))
    ensures var r, wrong, unfit := Run(s, q, assets).1, Wrong(q, assets), Unfit(s.rows, q.command, at);
      if wrong.Some? then r == Refused(wrong.value)
      else if Known(s, q) then
        r == if s.keys[q.key].hash == q.hash then Replayed(s.keys[q.key].answer) else Refused(KeyReused)
      else if unfit.Some? then r == Refused(unfit.value)
      else
        && 0 <= Written(s.rows, q.command, at)
        && r == Applied(Answer(q.command.typ, at, Written(s.rows, q.command, at), s.version + 1))
  {
    PreparedIff(q, assets);
    CommandKeepsSheet(s, q, assets);
    if Prepared(q, assets).Ok? {
      var (t, ins) := Prepared(q, assets).value;
      MomentIsOne(q, at, t);
      if q.command.typ != SkipCurrent { EntryIs(q.command, assets, ins, at, at); }
      DecidedIff(s.rows, q.command, at, ins);
    }
    hide Prepared, Wrong, Unfit, Written, Decide, Replace, Disjoint, RowsOk, RowOk, NewEntry, AskedSeconds, ActsAt;
  }

  lemma {:induction false} MomentIsOne(q: Request, at: int, t: int)
    requires ActsAt(q, at) && ActsAt(q, t)
    ensures at == t
  {
  }

  /**
   What an applied command puts on the air: from its moment on and for as long as asked, every
   second shows what the command says, a break with its category and message, the slate, or the
   asset from its beginning; before it nothing changes, and behind it everything comes later by that length.
   */
  lemma {:induction false} CommandShows(s: Sheet, q: Request, assets: Assets, at: int)
    requires Good(s) && Run(s, q, assets).1.Applied? && ActsAt(q, at) && q.command.typ != SkipCurrent
    ensures var t, t', d := s.rows, Run(s, q, assets).0.rows, AskedSeconds(q.command, assets);
      && 1 <= d
      && (forall n :: at <= n < at + d ==> Air(t', n) == Some(AskedFor(q.command, n - at)))
      && (forall n :: n < at ==> Air(t', n) == Air(t, n))
      && (forall n :: at + d <= n ==> Air(t', n) == Air(t, n - d))
  {
    PreparedIff(q, assets);
    CommandRefinesAir(s, q, assets);
    var (m, ins) := MomentAndEntry(q, assets);
    MomentIsOne(q, at, m);
    EntryIs(q.command, assets, ins, at, at);
    SpliceShows(s.rows, Run(s, q, assets).0.rows, q.command, assets, ins, at);
    hide *;
  }

  lemma {:induction false} SpliceShows(t: seq<Entry>, t': seq<Entry>, c: Command, assets: Assets, ins: Entry, at: int)
    requires c.typ != SkipCurrent && NewEntry(c, assets) == Ok(ins)
    requires forall n :: Air(t', n) == SplicedAir(t, at, ins, n)
    ensures forall n :: at <= n < at + ins.dur ==> Air(t', n) == Some(AskedFor(c, n - at))
    ensures forall n :: n < at && 0 < ins.dur ==> Air(t', n) == Air(t, n)
    ensures forall n :: at + ins.dur <= n && 0 < ins.dur ==> Air(t', n) == Air(t, n - ins.dur)
  {
    hide Air, AskedFor, NewEntry, Show;
    forall n | at <= n < at + ins.dur ensures Air(t', n) == Some(AskedFor(c, n - at)) {
      EntryIs(c, assets, ins, n, at);
    }
  }

  /** What an applied skip does: the rest of what is on the air is cut out, up to the next gap. */
  lemma {:induction false} SkipCuts(s: Sheet, q: Request, assets: Assets, at: int)
    requires Good(s) && Run(s, q, assets).1.Applied? && ActsAt(q, at) && q.command.typ == SkipCurrent
    ensures var t, t' := s.rows, Run(s, q, assets).0.rows;
      && SomethingAt(t, at) && (q.command.onlyBreak ==> BreakAt(t, at))
      && OnAir(t, at) < |t| && forall n :: Air(t', n) == CutAir(t, at, Remainder(t, at), EndOfChain(t, at), n)
  {
    PreparedIff(q, assets);
    CommandRefinesAir(s, q, assets);
    CommandIsRefusedIff(s, q, assets, at);
    var (m, ins) := MomentAndEntry(q, assets);
    MomentIsOne(q, at, m);
    OnAirIffAir(s.rows, at);
    hide Prepared, Run, Air, Wrong, CutAir, OnAir, ActsAt, Written, EndingAfter, RunsAt;
  }
}
