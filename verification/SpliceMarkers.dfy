/** Splice messages as text, and the messages the stitcher puts into its markers. */
module SpliceMarkers {
  import opened Common
  import opened SpliceText
  import Scte35
  import Stitcher

  /** An accepted section comes back from its text, in hex of either case or base64 with or without padding. */
  lemma {:induction false} AcceptedTextRoundTrip(b: seq<bv8>, upper: bool, prefix: string, l: string, r: string)
    requires Scte35.Decode(b).Ok? && prefix in {"", "0x", "0X"} && Blank(l) && Blank(r)
    ensures Parse(l + (prefix + HexDigits(Numbers(b), upper)) + r) == Ok(b)
    ensures Parse(l + Base64(b) + r) == Ok(b) && Parse(l + RawBase64(b) + r) == Ok(b)
  {
    assert b != [] && b[0] == 0xFC by {
      hide Scte35.Length12, Scte35.Ticks, Scte35.DecodeInsert;
    }
    hide Parse, HexDigits, Base64, RawBase64, Scte35.Decode;
    ParseHex(b, upper, prefix, l, r);
    ParseBase64(b, l, r);
  }

  lemma {:induction false} HexTextRoundTrip(b: seq<bv8>)
    requires Scte35.Decode(b).Ok?
    ensures Parse(Hex(b)) == Ok(b)
  {
    hide Parse, HexDigits, Base64, RawBase64, Scte35.Decode;
    AcceptedTextRoundTrip(b, true, "0x", "", "");
    assert "" + Hex(b) + "" == Hex(b);
  }

  /** Every message the encoder writes is read back from its hex and base64 text with all that it carries. */
  lemma {:induction false} EncodedTextRoundTrip(s: Scte35.SpliceInsert)
    requires Scte35.Encode(s).Ok?
    ensures var b := Scte35.Encode(s).value;
      && Parse(Hex(b)) == Ok(b) && Parse(Base64(b)) == Ok(b)
      && Scte35.Decode(b) == Ok(Scte35.Section(0, Scte35.CMD_SPLICE_INSERT, Some(Scte35.Carried(s))))
  {
    hide Parse, HexDigits, Base64, RawBase64, Scte35.Decode, Scte35.Encode;
    Scte35.RoundTrip(s);
    var b := Scte35.Encode(s).value;
    HexTextRoundTrip(b);
    AcceptedTextRoundTrip(b, true, "", "", "");
    assert "" + Base64(b) + "" == Base64(b);
  }

  /** The splice_insert a marker text carries, if it is one. */
  function Carries(text: string): Option<Scte35.Section> {
    var raw := Parse(text);
    if raw.Ok? && Scte35.Decode(raw.value).Ok? then Some(Scte35.Decode(raw.value).value) else None
  }

  /** The end marker of a break returns to the network, with the event id of the break. */
  lemma {:induction false} EndPayload(start: int)
    ensures Carries(Stitcher.HexOr(Scte35.In(Stitcher.EventId(start))))
         == Some(Scte35.Section(0, Scte35.CMD_SPLICE_INSERT,
              Some(Scte35.SpliceInsert(Stitcher.EventId(start), false, false, true, None, 0, false, 0, 0, 0))))
  {
    hide Parse, Hex, Scte35.Decode, Scte35.In, Stitcher.EventId;
    var id := Stitcher.EventId(start);
    Scte35.MarkersRoundTrip(id, 0);
    HexTextRoundTrip(Scte35.In(id).value);
  }

  /** The length of a break in ticks of the 90 kHz clock. */
  function OutTicks(seconds: bv64): bv64 { seconds * Scte35.TICK_RATE }

  predicate TooLong(ticks: bv64) { ticks >= Scte35.TICK_LIMIT }

  function OutSection(id: bv32, ticks: bv64): Scte35.Section {
    Scte35.Section(0, Scte35.CMD_SPLICE_INSERT,
                   Some(Scte35.SpliceInsert(id, false, true, true, None, ticks, true, 0, 0, 1)))
  }

  lemma {:induction false} OutDecodes(id: bv32, seconds: bv64)
    requires Scte35.Out(id, seconds).Ok?
    ensures Scte35.Decode(Scte35.Out(id, seconds).value).Ok?
  {
    hide Scte35.Decode, Scte35.Encode;
    Scte35.RoundTrip(Scte35.SpliceInsert(id, false, true, true, None, seconds * Scte35.TICK_RATE, true, 0, 0, 1));
  }

  /** A text that leaves the network for so many ticks, or is empty when they do not fit. */
  predicate SaysOut(p: string, id: bv32, ticks: bv64) {
    if TooLong(ticks) then p == "" else Carries(p).Some? && (ticks != 0 ==> Carries(p) == Some(OutSection(id, ticks)))
  }

  lemma {:induction false} OwnPayload(id: bv32, seconds: bv64)
    ensures SaysOut(Stitcher.HexOr(Scte35.Out(id, seconds)), id, OutTicks(seconds))
  {
    hide Parse, Hex, Scte35.Decode, Scte35.Out;
    Scte35.MarkersRoundTrip(id, seconds);
    var out := Scte35.Out(id, seconds);
    if out.Ok? {
      OutDecodes(id, seconds);
      HexTextRoundTrip(out.value);
    }
  }

  /**
   The start marker carries the message of the schedule when that is valid, and one that
   leaves the network for the length of the break otherwise; only a length that does not
   fit into 33 bits of ticks leaves it empty.
   */
  lemma {:induction false} StartPayload(start: int, seconds: int, given: string)
    ensures Scte35.TICK_RATE == 90000 && Scte35.TICK_LIMIT == 0x2_0000_0000
    ensures var p := Stitcher.OutPayload(start, seconds, given);
      if given != "" && Carries(given).Some? then Carries(p) == Carries(given)
      else SaysOut(p, Stitcher.EventId(start), OutTicks(Stitcher.Seconds(seconds)))
  {
    hide Parse, Hex, Scte35.Decode, Scte35.Out, Stitcher.EventId, Stitcher.Seconds, OutSection, OutTicks, TooLong,
         SaysOut, Stitcher.HexOr;
    if given != "" && Carries(given).Some? {
      HexTextRoundTrip(Parse(given).value);
    } else {
      OwnPayload(Stitcher.EventId(start), Stitcher.Seconds(seconds));
    }
  }
}
