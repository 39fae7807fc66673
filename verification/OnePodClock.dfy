/**
 Three breaks that are split over two pods. A tick more than an hour behind the start forgets
 the pod: in one break the clock goes back over a late tick that had no time to try a clip, in
 another the clock only goes forward, and the break is longer than an hour. The third is split
 by a new process.
 */
module OnePodClock {
  import opened Common
  import opened Schedule
  import opened Filler
  import opened Stitcher
  import opened Plan
  import opened AdBroker
  import opened Planner
  import opened OnePod

  const CFG := PlanConfig(1, 0, "slate.m3u8")

  /** A break of d seconds from second 100 on, and a creative that fills it. */
  function Break(d: nat): Entry { Entry(AdBreak, "", "", 100, d, 0, "", "") }

  function Spot(d: nat): AdItem { AdItem("spot", "spot.m3u8", d, "partner") }

  function Decided(d: nat): Broker { Broker(map[100 := 0], [PodEntry([Spot(d)], Ready)]) }

  function Forgotten(d: nat): Broker { Broker(map[], [PodEntry([Spot(d)], Ready)]) }

  function Answered(d: nat): Turn { Turn(false, [Answer(0, Some([Spot(d)]))]) }

  /** The first second of the break, a late tick with this budget, and a third tick. */
  function Moments(d: nat, budget: nat, third: nat): seq<Moment> {
    [Moment(100, [Break(d)], [], [Answered(d)], 1), Moment(3701, [Break(d)], [], [], budget),
     Moment(third, [Break(d)], [], [], 1)]
  }

  // ----- one tick -----

  lemma {:induction false} Quiet(b: Broker)
    ensures ReceiveAll(b, []) == b
  {
  }

  lemma {:induction false} OnePlan(b: Broker, m: Moment, clip: Clip, c: Broker)
    requires Valid(b) && m.before == []
    requires Second(CFG, m.entries, m.slot, m.slot, b, TurnAt(m.feed, 0)) == (Some(clip), c)
    ensures forall last :: PlanOf(CFG, Ticker(b, last), m) == Built([Flagged(clip, "")], c, false)
  {
    hide Second, Flagged;
    Quiet(b);
    assert Build(CFG, m.entries, m.slot, b, m.feed, 0) == Built([], b, false);
    assert Build(CFG, m.entries, m.slot, b, m.feed, 1) == Built([Flagged(clip, "")], c, false);
  }

  lemma {:induction false} OneRelease(clip: Clip, slot: nat, last: Option<int>, budget: nat)
    requires clip.start == slot && !AtLeast(last, slot)
    ensures Release([clip], slot, 0, last, budget)
         == if budget == 0 then Releasing([], last, true) else Releasing([clip], Some(slot), false)
  {
    assert [clip][..0] == [];
  }

  lemma {:induction false} ClipStart(e: Entry, pod: seq<AdItem>, ts: nat)
    requires Covers(e, ts)
    ensures Flagged(BreakClip(CFG, e, pod, ts), "").start == ts
  {
    hide Quanta;
  }

  // ----- three ticks -----

  function AdSecond(d: nat): Clip
    requires d > 0
  {
    BreakClip(CFG, Break(d), [Spot(d)], 100)
  }

  lemma {:induction false} FirstSecond(d: nat)
    requires d > 0
    ensures Second(CFG, [Break(d)], 100, 100, Broker(map[], []), Answered(d)) == (Some(AdSecond(d)), Decided(d))
  {
    hide BreakClip;
    var asked := Broker(map[100 := 0], [PodEntry([], Pending)]);
    assert Ask(Broker(map[], []), 100, false) == asked;
    assert Answered(d).answers[..0] == [];
    assert ReceiveAll(asked, Answered(d).answers) == Receive(asked, Answered(d).answers[0]) == Decided(d);
  }

  lemma {:induction false} FirstTick(d: nat, budget: nat, third: nat)
    requires d > 0
    ensures TickerAt(CFG, Moments(d, budget, third), 1) == Ticker(Decided(d), Some(100))
    ensures TriedAt(CFG, Moments(d, budget, third), 0) == [Flagged(AdSecond(d), "")]
  {
    FirstSecond(d);
    assert Evict(Decided(d), 100) == Decided(d);
    assert TickerAt(CFG, Moments(d, budget, third), 0) == Ticker(Broker(map[], []), None);
    hide Second, Flagged, BreakClip, PlanOf, Release, Evict, TickerAt;
    NextTicker(CFG, Moments(d, budget, third), 0);
    OnePlan(Broker(map[], []), Moments(d, budget, third)[0], AdSecond(d), Decided(d));
    ClipStart(Break(d), [Spot(d)], 100);
    OneRelease(Flagged(AdSecond(d), ""), 100, None, 1);
  }

  lemma {:induction false} LateSecond(d: nat)
    ensures Valid(Decided(d)) && Valid(Forgotten(d)) && Evict(Decided(d), 3701) == Forgotten(d)
    ensures Second(CFG, [Break(d)], 3701, 3701, Decided(d), Turn(false, [])).1 == Decided(d)
    ensures var clip := Second(CFG, [Break(d)], 3701, 3701, Decided(d), Turn(false, [])).0;
      clip.Some? && clip.value.start == 3701
  {
    hide Quanta;
    assert [Break(d)][1..] == [];
    Quiet(Decided(d));
  }

  /** The late tick forgets the pod, whether it tries its clip or not. */
  lemma {:induction false} LateTick(d: nat, budget: nat, third: nat)
    requires d > 0
    ensures TickerAt(CFG, Moments(d, budget, third), 2) == Ticker(Forgotten(d), Some(if budget == 0 then 100 else 3701))
  {
    FirstTick(d, budget, third);
    LateSecond(d);
    var clip := Second(CFG, [Break(d)], 3701, 3701, Decided(d), Turn(false, [])).0.value;
    hide Second, PlanOf, Release, Evict, TickerAt;
    NextTicker(CFG, Moments(d, budget, third), 1);
    OnePlan(Decided(d), Moments(d, budget, third)[1], clip, Decided(d));
    OneRelease(Flagged(clip, ""), 3701, Some(100), budget);
  }

  lemma {:induction false} AskedAgain(d: nat, ts: nat)
    requires Covers(Break(d), ts)
    ensures Valid(Forgotten(d))
    ensures Second(CFG, [Break(d)], ts, ts, Forgotten(d), Turn(false, [])).0 == Some(BreakClip(CFG, Break(d), [], ts))
  {
    hide BreakClip;
    var asked := Broker(map[100 := 1], [PodEntry([Spot(d)], Ready), PodEntry([], Pending)]);
    assert Ask(Forgotten(d), 100, false) == asked;
    Quiet(asked);
  }

  lemma {:induction false} ThirdTick(d: nat, budget: nat, third: nat)
    requires Covers(Break(d), third) && third > if budget == 0 then 100 else 3701
    ensures TriedAt(CFG, Moments(d, budget, third), 2) == [Flagged(BreakClip(CFG, Break(d), [], third), "")]
  {
    LateTick(d, budget, third);
    AskedAgain(d, third);
    ClipStart(Break(d), [], third);
    var clip := BreakClip(CFG, Break(d), [], third);
    var c := Second(CFG, [Break(d)], third, third, Forgotten(d), Turn(false, [])).1;
    hide Second, PlanOf, Release, TickerAt, Flagged, BreakClip, Valid;
    OnePlan(Forgotten(d), Moments(d, budget, third)[2], clip, c);
    OneRelease(Flagged(clip, ""), third, Some(if budget == 0 then 100 else 3701), 1);
  }

  /** The break starts with the ad and goes on with the slate, although its pod has an ad for every second. */
  predicate Split(d: nat, tried: seq<Clip>, tried': seq<Clip>) {
    && |tried| == 1 && |tried'| == 1
    && var (c, c') := (tried[0], tried'[0]);
       && c.breakStart == c'.breakStart == Some(100)
       && c.kind == "ad" && c'.kind == "slate" && AdAt([Spot(d)], c'.start - 100) == Some((Spot(d), c'.start - 100))
  }

  lemma {:induction false} AdAndSlate(d: nat, ts: nat)
    requires Covers(Break(d), ts)
    ensures Split(d, [Flagged(AdSecond(d), "")], [Flagged(BreakClip(CFG, Break(d), [], ts), "")])
  {
    QuantaAt(d, [Spot(d)], CFG.slateUri, 0);
    QuantaAt(d, [], CFG.slateUri, ts - 100);
    assert AdAt([Spot(d)], 0) == Some((Spot(d), 0));
    hide Quanta;
  }

  lemma {:induction false} IsSplit(d: nat, budget: nat, third: nat)
    requires Covers(Break(d), third) && third > if budget == 0 then 100 else 3701
    ensures var ms := Moments(d, budget, third); Split(d, TriedAt(CFG, ms, 0), TriedAt(CFG, ms, 2))
  {
    hide Split, TriedAt;
    FirstTick(d, budget, third);
    ThirdTick(d, budget, third);
    AdAndSlate(d, third);
  }

  /** With a clock that goes back over a tick without time for a clip, a break of two seconds is split. */
  lemma {:induction false} ClockBackSplitsABreak(ms: seq<Moment>)
    requires ms == Moments(2, 0, 101)
    ensures Split(2, TriedAt(CFG, ms, 0), TriedAt(CFG, ms, 2))
  {
    hide Split, TriedAt;
    IsSplit(2, 0, 101);
  }

  /** With a clock that only goes forward and time for a clip in every tick, a break of two hours is split. */
  lemma {:induction false} LongBreakIsSplit(ms: seq<Moment>)
    requires ms == Moments(7200, 1, 3702)
    ensures Forwards(ms) && Budgeted(ms) && Split(7200, TriedAt(CFG, ms, 0), TriedAt(CFG, ms, 2))
  {
    hide Split, TriedAt;
    IsSplit(7200, 1, 3702);
  }

  // ----- two processes -----

  lemma {:induction false} UnknownSecond(d: nat, ts: nat)
    requires Covers(Break(d), ts)
    ensures Second(CFG, [Break(d)], ts, ts, Broker(map[], []), Turn(false, [])).0
         == Some(BreakClip(CFG, Break(d), [], ts))
  {
    hide BreakClip;
    var asked := Broker(map[100 := 0], [PodEntry([], Pending)]);
    assert Ask(Broker(map[], []), 100, false) == asked;
    Quiet(asked);
  }

  lemma {:induction false} NewProcess(d: nat, m: Moment)
    requires Covers(Break(d), 101) && m == Moment(101, [Break(d)], [], [], 1)
    ensures TriedAt(CFG, [m], 0) == [Flagged(BreakClip(CFG, Break(d), [], 101), "")]
  {
    UnknownSecond(d, 101);
    ClipStart(Break(d), [], 101);
    var clip := BreakClip(CFG, Break(d), [], 101);
    var c := Second(CFG, [Break(d)], 101, 101, Broker(map[], []), Turn(false, [])).1;
    assert TickerAt(CFG, [m], 0) == Ticker(Broker(map[], []), None);
    hide Second, PlanOf, Release, TickerAt, Flagged, BreakClip;
    OnePlan(Broker(map[], []), m, clip, c);
    OneRelease(Flagged(clip, ""), 101, None, 1);
  }

  /** The first moment of the break, as the run of a process of its own. */
  lemma {:induction false} OldProcess(d: nat, m: Moment)
    requires d > 0 && m == Moment(100, [Break(d)], [], [Answered(d)], 1)
    ensures TriedAt(CFG, [m], 0) == [Flagged(AdSecond(d), "")]
  {
    FirstTick(d, 0, 101);
    assert TickerAt(CFG, [m], 0) == TickerAt(CFG, Moments(d, 0, 101), 0);
    hide PlanOf, Release, TickerAt, Flagged, AdSecond;
  }

  /**
   A process that plays an ad in second 100, and a new one that goes on in second 101: it asks
   again, and until the answer arrives the break shows slate.
   */
  lemma {:induction false} RestartSplitsABreak(d: nat, m: Moment, m': Moment)
    requires d >= 2
    requires m == Moment(100, [Break(d)], [], [Answered(d)], 1) && m' == Moment(101, [Break(d)], [], [], 1)
    ensures Split(d, TriedAt(CFG, [m], 0), TriedAt(CFG, [m'], 0))
  {
    hide Split, TriedAt;
    OldProcess(d, m);
    NewProcess(d, m');
    AdAndSlate(d, 101);
  }
}
