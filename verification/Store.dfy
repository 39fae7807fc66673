/**
 The schedule of a channel in its table, and the commands that edit it: each command
 reads, decides and writes in one transaction, raises the version of the schedule by
 one, and remembers its answer under the key of the request.
 */
module Store {
  import opened Common
  import opened Sorting
  import opened Schedule
  import opened SpliceText

  const MAX_ENTRIES := 20000
  const MAX_COMMAND_SECONDS := 4 * 3600
  const SECOND_NS := 1_000_000_000

  // ----- checking the entries of an edit -----

  /** What is wrong with one entry of an edit of [from, to). */
  function Flaw(e: Entry, from: int, to: int): Option<Problem> {
    if e.kind.Unknown? then Some(WrongType)
    else if (e.kind == Content || e.kind == Bumper) && e.asset == "" && e.uri == "" then Some(AssetMissing)
    else if e.kind == AdBreak && (e.asset != "" || e.uri != "") then Some(AssetGiven)
    else if e.dur <= 0 then Some(DurationNotPositive)
    else if e.off < 0 then Some(OffsetNegative)
    else if e.start < from || to <= e.start then Some(OutsideWindow)
    else None
  }

  /** The first problem of a sorted list from position i on. */
  function FirstFlaw(out: seq<Entry>, i: nat, from: int, to: int): Option<Problem>
    requires i <= |out|
    decreases |out| - i
  {
    if i == |out| then None
    else if Flaw(out[i], from, to).Some? then Flaw(out[i], from, to)
    else if 0 < i && out[i].start < End(out[i - 1]) then Some(Overlap)
    else FirstFlaw(out, i + 1, from, to)
  }

  function CheckEntries(entries: seq<Entry>, from: int, to: int): Result<seq<Entry>, Problem> {
    if |entries| > MAX_ENTRIES then Err(TooManyEntries) else
      var out := Sort(entries, Earlier);
      match FirstFlaw(out, 0, from, to)
      case Some(p) => Err(p)
      case None => Ok(out)
  }

  method ComputeCheckEntries(entries: seq<Entry>, from: int, to: int) returns (r: Result<seq<Entry>, Problem>)
    ensures r == CheckEntries(entries, from, to)
  {
    if |entries| > MAX_ENTRIES {
      return Err(TooManyEntries);
    }
    var out := Sort(entries, Earlier);
    for i := 0 to |out|
      invariant FirstFlaw(out, i, from, to) == FirstFlaw(out, 0, from, to)
    {
      var flaw := Flaw(out[i], from, to);
      if flaw.Some? {
        return Err(flaw.value);
      }
      if i > 0 && out[i].start < End(out[i - 1]) {
        return Err(Overlap);
      }
    }
    return Ok(out);
  }

  lemma {:induction false} NoFlawIff(out: seq<Entry>, i: nat, from: int, to: int)
    requires i <= |out|
    ensures FirstFlaw(out, i, from, to) == None <==>
      forall k :: i <= k < |out| ==> Flaw(out[k], from, to) == None && (0 < k ==> End(out[k - 1]) <= out[k].start)
    decreases |out| - i
  {
    if i < |out| {
      NoFlawIff(out, i + 1, from, to);
    }
  }

  lemma {:induction false} BackToBackIsDisjoint(out: seq<Entry>, j: nat)
    requires forall k :: 0 <= k < |out| ==> 0 < out[k].dur && (0 < k ==> End(out[k - 1]) <= out[k].start)
    requires j <= |out|
    ensures Disjoint(out[..j])
  {
    if 0 < j {
      BackToBackIsDisjoint(out, j - 1);
      forall i | 0 <= i < j - 1
        ensures End(out[i]) <= out[j - 1].start
      {
        if i < j - 2 {
          assert out[..j - 1][i] == out[i] && out[..j - 1][j - 2] == out[j - 2];
          assert End(out[i]) <= out[j - 2].start;
        }
      }
      assert out[..j] == out[..j - 1] + [out[j - 1]];
    }
  }

  /** An entry that may be written to [from, to): programmes have a source, ad breaks none. */
  predicate Fine(e: Entry, from: int, to: int) {
    && (e.kind == Content || e.kind == Bumper || e.kind == Slate || e.kind == AdBreak)
    && (e.kind == Content || e.kind == Bumper ==> e.asset != "" || e.uri != "")
    && (e.kind == AdBreak ==> e.asset == "" && e.uri == "")
    && 0 < e.dur && 0 <= e.off && from <= e.start < to
  }

  lemma {:induction false} FineIff(e: Entry, from: int, to: int)
    ensures Flaw(e, from, to) == None <==> Fine(e, from, to)
  {
  }

  /** The check of neighbours finds every overlap: what it accepts is in order and disjoint, and nothing else is
      refused. */
  lemma {:induction false} CheckAcceptsIff(entries: seq<Entry>, from: int, to: int)
    ensures CheckEntries(entries, from, to).Ok? <==>
      && |entries| <= MAX_ENTRIES
      && (forall e :: e in entries ==> Fine(e, from, to))
      && Disjoint(Sort(entries, Earlier))
  {
    var out := Sort(entries, Earlier);
    NoFlawIff(out, 0, from, to);
    SameElements(entries);
    forall e ensures Flaw(e, from, to) == None <==> Fine(e, from, to) {
      FineIff(e, from, to);
    }
    hide Sort, Flaw, Fine;
    if FirstFlaw(out, 0, from, to) == None {
      BackToBackIsDisjoint(out, |out|);
      assert out[..|out|] == out;
    }
  }

  lemma {:induction false} SameElements(entries: seq<Entry>)
    ensures forall e :: e in entries <==> e in Sort(entries, Earlier)
  {
    var out := Sort(entries, Earlier);
    SortPermutes(entries, Earlier);
    forall e
      ensures e in entries <==> e in out
    {
      assert e in entries <==> e in multiset(entries);
      assert e in out <==> e in multiset(out);
    }
  }

  // ----- requests -----

  datatype CommandType = InsertBreak | InsertAsset | InsertSlate | SkipCurrent | OtherCommand(name: string)

  datatype Moment = Now | At(second: int) | NotWhole | NoTime

  datatype Command = Command(
    typ: CommandType, at: Moment, duration: int, asset: string, uri: string, category: string, scte35: string,
        onlyBreak: bool)

  datatype Request = Request(command: Command, key: string, hash: string, nowNs: int, leadNs: int)

  datatype Refusal =
    | UnknownCommand | BadMoment | TooSoon | AssetWithBreak | NoAsset | NotRegistered | BadDuration | SpacesAround
    | ScheduleTooLong | NoBreakOnAir | Edits(problem: Problem) | DuplicateStart | KeyReused

  datatype Answer = Answer(typ: CommandType, effectiveAt: int, entries: nat, version: int)

  datatype Outcome = Applied(answer: Answer) | Replayed(stored: Answer) | Refused(why: Refusal)

  /** A duration in seconds for every registered asset. */
  type Assets = map<string, int>

  /** The first whole second not earlier than now plus the lead. */
  function Earliest(nowNs: int, leadNs: int): (t: int)
    ensures nowNs + leadNs <= t * SECOND_NS < nowNs + leadNs + SECOND_NS
  {
    var x := nowNs + leadNs;
    if x % SECOND_NS == 0 then x / SECOND_NS else x / SECOND_NS + 1
  }

  function MomentOf(c: Command, earliest: int): Result<int, Refusal> {
    match c.at
    case Now => Ok(earliest)
    case At(t) => if t < earliest then Err(TooSoon) else Ok(t)
    case _ => Err(BadMoment)
  }

  predicate Spaced(s: string) {
    s != "" && (IsSpace(s[0]) || IsSpace(s[|s| - 1]))
  }

  const NOTHING := Entry(Slate, "", "", 0, 0, 0, "", "")

  function Timed(e: Entry): Result<Entry, Refusal> {
    if e.dur < 1 || MAX_COMMAND_SECONDS < e.dur then Err(BadDuration)
    else if Spaced(e.category) then Err(SpacesAround)
    else Ok(e)
  }

  /** The entry that a command puts on the air. */
  function NewEntry(c: Command, assets: Assets): Result<Entry, Refusal> {
    match c.typ
    case SkipCurrent => Ok(NOTHING)
    case InsertBreak =>
      if c.asset != "" || c.uri != "" then Err(AssetWithBreak)
      else Timed(Entry(AdBreak, "", "", 0, c.duration, 0, if c.category == "" then "midroll" else c.category, c.scte35))
    case InsertSlate => Timed(Entry(Slate, "", "", 0, c.duration, 0, "", ""))
    case InsertAsset =>
      if c.asset == "" && c.uri == "" then Err(NoAsset)
      else if c.asset != "" && c.asset !in assets then Err(NotRegistered)
      else
        var dur := if c.asset != "" && c.duration == 0 then assets[c.asset] else c.duration;
        Timed(Entry(Content, c.asset, c.uri, 0, dur, 0, "", ""))
    case OtherCommand(_) => Err(UnknownCommand)
  }

  /** What is looked at before the transaction begins: when the command acts and what it puts on the air. */
  function Prepared(q: Request, assets: Assets): Result<(int, Entry), Refusal> {
    if q.command.typ.OtherCommand? then Err(UnknownCommand) else
      match MomentOf(q.command, Earliest(q.nowNs, q.leadNs))
      case Err(e) => Err(e)
      case Ok(at) =>
        match NewEntry(q.command, assets)
        case Err(e) => Err(e)
        case Ok(ins) => Ok((at, ins))
  }

  // ----- the transaction -----

  /** The rows that overlap [from, to), in order. */
  function Range(t: seq<Entry>, from: int, to: int): seq<Entry> {
    if t == [] then [] else (if t[0].start < to && from < End(t[0]) then [t[0]] else []) + Range(t[1..], from, to)
  }

  /** The end of the last entry, or the epoch for an empty table. */
  function LatestOf(t: seq<Entry>): int {
    if t == [] then 0 else LatestEnd(t[1..], End(t[0]))
  }

  function Existing(t: seq<Entry>, at: int): seq<Entry> {
    var end := if LatestOf(t) < at then at else LatestOf(t);
    Range(t, at, end + 1)
  }

  function Edited(existing: seq<Entry>, c: Command, at: int, ins: Entry): Result<Edit, Refusal> {
    if c.typ == SkipCurrent && c.onlyBreak && !BreakOnAir(existing, at) then Err(NoBreakOnAir) else
      match if c.typ == SkipCurrent then Skip(existing, at) else InsertShift(existing, at, ins)
      case Err(p) => Err(Edits(p))
      case Ok(ed) => Ok(ed)
  }

  function Decide(t: seq<Entry>, c: Command, at: int, ins: Entry): Result<Edit, Refusal> {
    var existing := Existing(t, at);
    if |existing| > MAX_ENTRIES then Err(ScheduleTooLong) else
      match Edited(existing, c, at, ins)
      case Err(e) => Err(e)
      case Ok(ed) =>
        match CheckEntries(ed.entries, ed.from, ed.to)
        case Err(p) => Err(Edits(p))
        case Ok(_) => Ok(ed)
  }

  datatype Stored = Stored(hash: string, answer: Answer)

  /** The schedule of a channel: its rows, its version and the answers it remembers. */
  datatype Sheet = Sheet(rows: seq<Entry>, version: int, keys: map<string, Stored>)

  function Run(s: Sheet, q: Request, assets: Assets): (Sheet, Outcome) {
    match Prepared(q, assets)
    case Err(e) => (s, Refused(e))
    case Ok((at, ins)) =>
      if q.key != "" && q.key in s.keys then
        (s, if s.keys[q.key].hash != q.hash then Refused(KeyReused) else Replayed(s.keys[q.key].answer))
      else
        match Decide(s.rows, q.command, at, ins)
        case Err(e) => (s, Refused(e))
        case Ok(ed) =>
          match Replace(s.rows, ed)
          case None => (s, Refused(DuplicateStart))
          case Some(rows) =>
            var answer := Answer(q.command.typ, at, |ed.entries|, s.version + 1);
            (Sheet(rows, s.version + 1, if q.key == "" then s.keys else s.keys[q.key := Stored(q.hash, answer)]),
                Applied(answer))
  }

  /** The channel row and its tables, edited under one lock. */
  class Channel {
    var rows: seq<Entry>
    var version: int
    var keys: map<string, Stored>

    ghost function State(): Sheet
      reads this
    {
      Sheet(rows, version, keys)
    }

    constructor ()
      ensures State() == Sheet([], 0, map[])
    {
      rows, version, keys := [], 0, map[];
    }

    method RunCommand(q: Request, assets: Assets) returns (r: Outcome)
      modifies this
      ensures (State(), r) == Run(old(State()), q, assets)
    {
      var prepared := Prepared(q, assets);
      if prepared.Err? {
        return Refused(prepared.error);
      }
      var (at, ins) := prepared.value;
      if q.key != "" && q.key in keys {
        var stored := keys[q.key];
        if stored.hash != q.hash {
          return Refused(KeyReused);
        }
        return Replayed(stored.answer);
      }
      var decision := DecideInTransaction(q.command, at, ins);
      if decision.Err? {
        return Refused(decision.error);
      }
      var ed := decision.value;
      var replaced := Replace(rows, ed);
      if replaced.None? {
        return Refused(DuplicateStart);
      }
      rows := replaced.value;
      version := version + 1;
      var answer := Answer(q.command.typ, at, |ed.entries|, version);
      if q.key != "" {
        keys := keys[q.key := Stored(q.hash, answer)];
      }
      r := Applied(answer);
    }

    method DecideInTransaction(c: Command, at: int, ins: Entry) returns (r: Result<Edit, Refusal>)
      ensures r == Decide(rows, c, at, ins)
    {
      var existing := Existing(rows, at);
      if |existing| > MAX_ENTRIES {
        return Err(ScheduleTooLong);
      }
      var edit;
      if c.typ == SkipCurrent {
        if c.onlyBreak {
          var onAir := FindBreak(existing, at);
          if !onAir {
            return Err(NoBreakOnAir);
          }
        }
        edit := ComputeSkip(existing, at);
      } else {
        edit := ComputeInsertShift(existing, at, ins);
      }
      if edit.Err? {
        return Err(Edits(edit.error));
      }
      var checked := ComputeCheckEntries(edit.value.entries, edit.value.from, edit.value.to);
      if checked.Err? {
        return Err(Edits(checked.error));
      }
      return Ok(edit.value);
    }
  }
}
