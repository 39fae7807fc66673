/**
 The SCTE-35 message of an upstream system as a command: one that leaves the network starts an
 ad break of its length, one that returns to it ends the break on the air. The break then
 carries the message through the schedule into the start marker of the playlist.
 */
module Upstream {
  import opened Common
  import opened Schedule
  import opened SpliceText
  import opened SpliceMarkers
  import opened Store
  import StoreRuns
  import Commands
  import Stitcher
  import Scte35

  datatype Unusable = NotReadable | NotChecked | NoSplice | Cancels | NoLength

  /** The whole seconds that hold so many ticks; a decoded number of ticks has 33 bits, so nothing wraps. */
  function SecondsOf(ticks: bv64): int { (ticks as int + Scte35.TICK_RATE as int - 1) / Scte35.TICK_RATE as int }

  function CommandOf(message: string, at: Moment): Result<Command, Unusable> {
    match Parse(message)
    case Err(_) => Err(NotReadable)
    case Ok(raw) =>
      match Scte35.Decode(raw)
      case Err(_) => Err(NotChecked)
      case Ok(section) =>
        if section.insert.None? then Err(NoSplice) else
          var splice := section.insert.value;
          if splice.cancel then Err(Cancels)
          else if !splice.out then Ok(Command(SkipCurrent, at, 0, "", "", "", "", true))
          else if SecondsOf(splice.durationTicks) < 1 then Err(NoLength)
          else Ok(Command(InsertBreak, at, SecondsOf(splice.durationTicks), "", "", "", Hex(raw), false))
  }

  // ----- which messages are used -----

  /** The splice of a message, unless it is a cancellation. */
  function SpliceIn(message: string): Option<Scte35.SpliceInsert> {
    match Carries(message)
    case None => None
    case Some(section) => if section.insert.Some? && !section.insert.value.cancel then section.insert else None
  }

  lemma {:induction false} SecondsHoldTicks(ticks: bv64)
    ensures var d := SecondsOf(ticks); 90000 * (d - 1) < ticks as int <= 90000 * d
    ensures 1 <= SecondsOf(ticks) <==> ticks != 0
  {
    Rate();
    assert ticks as int == 0 <==> ticks == 0;
  }

  lemma {:induction false} Rate()
    ensures Scte35.TICK_RATE as int == 90000
  {
  }

  /**
   A message is used exactly when it carries a splice that returns, or one that leaves for some time: the
   break is the shortest number of seconds that holds its ticks.
   */
  lemma {:induction false} MessageIsUsedIff(message: string, at: Moment)
    ensures var s, r := SpliceIn(message), CommandOf(message, at);
      && (r.Ok? <==> s.Some? && (s.value.out ==> s.value.durationTicks != 0))
      && (r.Ok? ==> r.value.at == at && (r.value.typ == InsertBreak || r.value.typ == SkipCurrent))
      && (r.Ok? && r.value.typ == SkipCurrent ==> !s.value.out && r.value.onlyBreak)
      && (r.Ok? && r.value.typ == InsertBreak ==>
            var d := r.value.duration;
            s.value.out && 90000 * (d - 1) < s.value.durationTicks as int <= 90000 * d)
  {
    hide Parse, Hex, Scte35.Decode, SecondsOf;
    if SpliceIn(message).Some? { SecondsHoldTicks(SpliceIn(message).value.durationTicks); }
  }

  /** A message means the same as hex and as base64. */
  lemma {:induction false} TextsMeanTheSame(b: seq<bv8>, at: Moment)
    requires Scte35.Decode(b).Ok?
    ensures CommandOf(Hex(b), at) == CommandOf(Base64(b), at) == CommandOf(RawBase64(b), at)
    ensures CommandOf(HexDigits(Numbers(b), false), at) == CommandOf(Hex(b), at)
  {
    hide Parse, HexDigits, Base64, RawBase64, Scte35.Decode, Hex, SecondsOf;
    HexTextRoundTrip(b);
    AcceptedTextRoundTrip(b, false, "", "", "");
    assert "" + ("" + HexDigits(Numbers(b), false)) + "" == HexDigits(Numbers(b), false);
    assert "" + Base64(b) + "" == Base64(b) && "" + RawBase64(b) + "" == RawBase64(b);
  }

  // ----- from message to marker -----

  lemma {:induction false} BreakCarriesMessage(message: string, at: Moment)
    requires CommandOf(message, at).Ok? && CommandOf(message, at).value.typ == InsertBreak
    ensures Carries(message).Some? && Carries(CommandOf(message, at).value.scte35) == Carries(message)
    ensures CommandOf(message, at).value.scte35 != ""
  {
    hide Parse, HexDigits, Scte35.Decode, SecondsOf;
    HexTextRoundTrip(Parse(message).value);
  }

  /**
   An applied message that leaves the network: from the second it acts on, the schedule shows an ad
   break with the message for exactly its seconds, and the start marker that the stitcher writes for
   this break carries the very same message.
   */
  lemma {:induction false} MessageReachesMarker(s: Sheet, q: Request, assets: Assets, message: string, at: int)
    requires StoreRuns.Good(s) && Run(s, q, assets).1.Applied? && Commands.ActsAt(q, at)
    requires CommandOf(message, q.command.at) == Ok(q.command) && q.command.typ == InsertBreak
    ensures var d, rows := q.command.duration, Run(s, q, assets).0.rows;
      && (forall n :: at <= n < at + d ==>
            Air(rows, n) == Some(Shown(AdBreak, "", "", "midroll", q.command.scte35, n - at)))
      && Carries(message).Some? && Carries(Stitcher.OutPayload(at, d, q.command.scte35)) == Carries(message)
  {
    hide Run, Parse, HexDigits, Scte35.Decode, SecondsOf, Stitcher.OutPayload, Air, Carries;
    assert q.command.category == "" by { MessageCommand(message, q.command.at); }
    Commands.CommandShows(s, q, assets, at);
    BreakCarriesMessage(message, q.command.at);
    StartPayload(at, q.command.duration, q.command.scte35);
  }

  lemma {:induction false} MessageCommand(message: string, at: Moment)
    requires CommandOf(message, at).Ok?
    ensures var c := CommandOf(message, at).value; c.category == "" && c.asset == "" && c.uri == ""
  {
    hide Parse, Hex, Scte35.Decode, SecondsOf;
  }

  // ----- one instance behind another -----

  /** The end marker of one channel ends the break of another that gets it as a message. */
  lemma {:induction false} EndMarkerEnds(start: int, at: Moment)
    ensures CommandOf(Stitcher.HexOr(Scte35.In(Stitcher.EventId(start))), at)
         == Ok(Command(SkipCurrent, at, 0, "", "", "", "", true))
  {
    hide Parse, Hex, Scte35.Decode, Scte35.In, Stitcher.EventId, SecondsOf, Stitcher.HexOr;
    EndPayload(start);
  }

  /** The start marker that a channel writes itself starts a break of its length on the other. */
  lemma {:induction false} StartMarkerStarts(start: int, seconds: int, at: Moment)
    requires var ticks := OutTicks(Stitcher.Seconds(seconds)); ticks != 0 && !TooLong(ticks)
    ensures var r := CommandOf(Stitcher.OutPayload(start, seconds, ""), at);
      && r.Ok? && r.value.typ == InsertBreak
      && r.value.duration == SecondsOf(OutTicks(Stitcher.Seconds(seconds)))
  {
    hide Parse, Hex, Scte35.Decode, Stitcher.EventId, Stitcher.Seconds, OutTicks, TooLong, SecondsOf,
         Stitcher.OutPayload;
    StartPayload(start, seconds, "");
    SecondsHoldTicks(OutTicks(Stitcher.Seconds(seconds)));
  }
}
