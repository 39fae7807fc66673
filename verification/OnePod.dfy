/**
 One pod per break, over every run of ticks: whatever the ad server answers and when, and
 whatever the schedule becomes, all seconds of a break that are released come from one pod.
 */
module OnePod {
  import opened Common
  import opened Schedule
  import opened Filler
  import opened Stitcher
  import opened Plan
  import opened AdBroker
  import opened Planner

  /** A tick: its second, the schedule it reads, the answers that arrived before it, what happens
      while it plans, and how many clips it can try before its time is over. */
  datatype Moment = Moment(slot: nat, entries: seq<Entry>, before: seq<Answer>, feed: seq<Turn>, budget: nat)

  datatype Ticker = Ticker(broker: Broker, last: Option<int>)

  function PlanOf(cfg: PlanConfig, s: Ticker, m: Moment): (p: Built)
    requires Valid(s.broker)
    ensures Valid(p.broker)
  {
    ReceiveAllKeeps(s.broker, m.before);
    Build(cfg, m.entries, m.slot, ReceiveAll(s.broker, m.before), m.feed, cfg.ahead)
  }

  function ReleaseOf(cfg: PlanConfig, s: Ticker, m: Moment): Releasing
    requires Valid(s.broker)
  {
    Release(PlanOf(cfg, s, m).clips, m.slot, cfg.lead, s.last, m.budget)
  }

  function TickerAt(cfg: PlanConfig, ms: seq<Moment>, k: nat): (s: Ticker)
    requires k <= |ms|
    ensures Valid(s.broker)
  {
    if k == 0 then Ticker(Broker(map[], []), None) else
      var s := TickerAt(cfg, ms, k - 1);
      EvictKeeps(PlanOf(cfg, s, ms[k - 1]).broker, ms[k - 1].slot);
      Ticker(Evict(PlanOf(cfg, s, ms[k - 1]).broker, ms[k - 1].slot), ReleaseOf(cfg, s, ms[k - 1]).last)
  }

  /** The object that ticks: it plans with its broker, forgets old breaks and releases what is due. */
  class Engine {
    const cfg: PlanConfig
    const pods: Pods
    var last: Option<int>

    ghost function Value(): Ticker
      reads this, pods
    {
      Ticker(pods.Value(), last)
    }

    constructor (cfg: PlanConfig)
      ensures this.cfg == cfg && fresh(pods) && Value() == Ticker(Broker(map[], []), None)
    {
      this.cfg := cfg;
      pods := new Pods();
      last := None;
    }

    method Tick(m: Moment) returns (tried: seq<Clip>)
      requires Valid(Value().broker)
      modifies this, pods
      ensures Valid(Value().broker)
      ensures tried == ReleaseOf(cfg, old(Value()), m).tried
      ensures Value() ==
          Ticker(Evict(PlanOf(cfg, old(Value()), m).broker, m.slot), ReleaseOf(cfg, old(Value()), m).last)
    {
      hide Build, Release, Receive;
      ghost var b := pods.Value();
      var i := 0;
      while i < |m.before|
        invariant i <= |m.before| && last == old(last)
        invariant pods.Value() == ReceiveAll(b, m.before[..i])
      {
        assert m.before[..i + 1][..i] == m.before[..i];
        pods.Answered(m.before[i]);
        i := i + 1;
      }
      assert m.before[..i] == m.before;
      ReceiveAllKeeps(b, m.before);
      var plan := BuildPlan(cfg, m.entries, m.slot, pods, m.feed);
      EvictKeeps(pods.Value(), m.slot);
      pods.Forget(m.slot);
      tried, last := ReleaseDue(plan, m.slot, cfg.lead, last, m.budget);
    }
  }

  function PodsAt(cfg: PlanConfig, ms: seq<Moment>, k: nat): map<int, seq<AdItem>>
    requires k < |ms|
  {
    ReadyPods(PlanOf(cfg, TickerAt(cfg, ms, k), ms[k]).broker)
  }

  function TriedAt(cfg: PlanConfig, ms: seq<Moment>, k: nat): seq<Clip>
    requires k < |ms|
  {
    ReleaseOf(cfg, TickerAt(cfg, ms, k), ms[k]).tried
  }

  // ----- pods stay decided -----

  lemma {:induction false} PlanKeeps(cfg: PlanConfig, s: Ticker, m: Moment)
    requires Valid(s.broker)
    ensures Keeps(s.broker, PlanOf(cfg, s, m).broker)
    ensures var p := PlanOf(cfg, s, m);
      && p.clips == Layout(cfg, m.entries, ReadyPods(p.broker), m.slot, |p.clips|)
      && Known(m.entries, ReadyPods(p.broker), m.slot, |p.clips|)
      && (cfg.ahead >= 1 ==> p.clips != [])
  {
    hide Build, Layout, Known, ReadyPods;
    ReceiveAllKeeps(s.broker, m.before);
    var b := ReceiveAll(s.broker, m.before);
    PlanIsLayout(cfg, m.entries, m.slot, b, m.feed, cfg.ahead);
    KeepsOn(s.broker, b, PlanOf(cfg, s, m).broker);
  }

  lemma {:induction false} NextTicker(cfg: PlanConfig, ms: seq<Moment>, k: nat)
    requires k < |ms|
    ensures var s := TickerAt(cfg, ms, k);
      TickerAt(cfg, ms, k + 1) == Ticker(Evict(PlanOf(cfg, s, ms[k]).broker, ms[k].slot), ReleaseOf(cfg, s, ms[k]).last)
  {
    hide PlanOf, ReleaseOf, Valid;
  }

  lemma {:induction false} PodStays(cfg: PlanConfig, s: Ticker, m: Moment, last: Option<int>, m': Moment, b: int)
    requires Valid(s.broker) && b in ReadyPods(PlanOf(cfg, s, m).broker) && m.slot <= b + KEEP
    ensures var p := PlanOf(cfg, s, m).broker;
      && Valid(Evict(p, m.slot))
      && var q := PlanOf(cfg, Ticker(Evict(p, m.slot), last), m').broker;
         b in ReadyPods(q) && ReadyPods(q)[b] == ReadyPods(p)[b]
  {
    hide PlanOf, ReadyPods, Evict, Valid, Layout, Known;
    var p := PlanOf(cfg, s, m).broker;
    EvictKeeps(p, m.slot);
    PlanKeeps(cfg, Ticker(Evict(p, m.slot), last), m');
  }

  lemma {:induction false} PodsPersist(cfg: PlanConfig, ms: seq<Moment>, i: nat, j: nat, b: int)
    requires i <= j < |ms| && b in PodsAt(cfg, ms, i)
    requires forall m :: i <= m < j ==> ms[m].slot <= b + KEEP
    ensures b in PodsAt(cfg, ms, j) && PodsAt(cfg, ms, j)[b] == PodsAt(cfg, ms, i)[b]
    decreases j
  {
    hide PlanOf, ReadyPods, ReleaseOf, TickerAt, Evict, Valid;
    if i < j {
      PodsPersist(cfg, ms, i, j - 1, b);
      var s := TickerAt(cfg, ms, j - 1);
      NextTicker(cfg, ms, j - 1);
      PodStays(cfg, s, ms[j - 1], ReleaseOf(cfg, s, ms[j - 1]).last, ms[j], b);
    }
  }

  // ----- plans of one run -----

  /** The ad break of a second, if it has one. */
  function BreakAt(entries: seq<Entry>, ts: int): Option<int> {
    var e := FindEntry(entries, ts);
    if e.Some? && e.value.kind.AdBreak? then Some(e.value.start) else None
  }

  /** No tick from i up to j was more than an hour behind the start of the break in this second. */
  predicate NotLate(ms: seq<Moment>, i: nat, j: nat, ts: int)
    requires i <= j < |ms|
  {
    var b := BreakAt(ms[i].entries, ts);
    b.Some? ==> forall m :: i <= m < j ==> ms[m].slot <= b.value + KEEP
  }

  lemma {:induction false} SameSecond(cfg: PlanConfig, es: seq<Entry>, p: map<int, seq<AdItem>>,
      q: map<int, seq<AdItem>>, ts: nat)
    requires BreakAt(es, ts).Some? ==>
      var b := BreakAt(es, ts).value; b in p && b in q && q[b] == p[b]
    ensures ClipAt(cfg, es, p, ts) == ClipAt(cfg, es, q, ts)
  {
    hide BreakClip;
  }

  lemma {:induction false} SecondOfARun(cfg: PlanConfig, ms: seq<Moment>, i: nat, j: nat, ts: nat)
    requires i <= j < |ms| && NotLate(ms, i, j, ts)
    requires var p := PlanOf(cfg, TickerAt(cfg, ms, i), ms[i]); ms[i].slot <= ts < ms[i].slot + |p.clips|
    ensures ClipAt(cfg, ms[i].entries, PodsAt(cfg, ms, i), ts) == ClipAt(cfg, ms[i].entries, PodsAt(cfg, ms, j), ts)
  {
    hide PlanOf, TickerAt, ReadyPods, Layout, ClipAt;
    PlanKeeps(cfg, TickerAt(cfg, ms, i), ms[i]);
    var b := BreakAt(ms[i].entries, ts);
    if b.Some? {
      assert KnownAt(ms[i].entries, PodsAt(cfg, ms, i), ts);
      hide PodsAt;
      PodsPersist(cfg, ms, i, j, b.value);
    }
    SameSecond(cfg, ms[i].entries, PodsAt(cfg, ms, i), PodsAt(cfg, ms, j), ts);
  }

  /** Both ticks plan the second ts, and the later tick does not begin before the earlier one. */
  predicate SharedSecond(cfg: PlanConfig, ms: seq<Moment>, i: nat, j: nat, ts: nat)
    requires i <= j < |ms|
  {
    var (p, q) := (PlanOf(cfg, TickerAt(cfg, ms, i), ms[i]), PlanOf(cfg, TickerAt(cfg, ms, j), ms[j]));
    ms[i].slot <= ms[j].slot <= ts < ms[i].slot + |p.clips| && ts < ms[j].slot + |q.clips|
  }

  /** They plan the same clip for it, but for the flag of the later plan's first clip. */
  predicate PlannedAlike(cfg: PlanConfig, ms: seq<Moment>, i: nat, j: nat, ts: nat)
    requires i <= j < |ms| && SharedSecond(cfg, ms, i, j, ts)
  {
    var (p, q) := (PlanOf(cfg, TickerAt(cfg, ms, i), ms[i]), PlanOf(cfg, TickerAt(cfg, ms, j), ms[j]));
    var (c, c') := (p.clips[ts - ms[i].slot], q.clips[ts - ms[j].slot]);
    c.start == ts && (if ts == ms[j].slot then c'.(disc := c.disc) == c else c' == c)
  }

  /**
   Two ticks of one run that read the same schedule plan the same clip for every second they
   share, but for the flag of the later plan's first clip, as long as no tick between them was
   more than an hour behind the start of the break there.
   */
  lemma {:induction false} PlansOfARunAgree(cfg: PlanConfig, ms: seq<Moment>, i: nat, j: nat, ts: nat)
    requires i <= j < |ms| && ms[i].entries == ms[j].entries
    requires NotLate(ms, i, j, ts) && (ts > ms[j].slot ==> NotLate(ms, i, j, ts - 1))
    requires SharedSecond(cfg, ms, i, j, ts)
    ensures PlannedAlike(cfg, ms, i, j, ts)
  {
    hide PlanOf, TickerAt, ReadyPods, ClipAt, NotLate, Known, Flagged;
    PlanKeeps(cfg, TickerAt(cfg, ms, i), ms[i]);
    PlanKeeps(cfg, TickerAt(cfg, ms, j), ms[j]);
    SecondOfARun(cfg, ms, i, j, ts);
    if ts > ms[j].slot { SecondOfARun(cfg, ms, i, j, ts - 1); }
    var es, pods := ms[i].entries, PodsAt(cfg, ms, i);
    FlagOnly(ClipAt(cfg, es, pods, ts), KindBefore(cfg, es, pods, ms[i].slot, ts),
        KindBefore(cfg, es, pods, ms[j].slot, ts));
  }

  /** With a clock that goes forward and breaks of at most an hour that is always so. */
  lemma {:induction false} ForwardPlansAreNotLate(ms: seq<Moment>, i: nat, j: nat, ts: nat)
    requires i <= j < |ms| && Forwards(ms) && ms[j].slot <= ts
    requires forall e <- ms[i].entries :: e.dur <= KEEP
    ensures NotLate(ms, i, j, ts) && (ts > ms[j].slot ==> NotLate(ms, i, j, ts - 1))
  {
  }

  /** So with a clock that goes forward and breaks of at most an hour all plans of one run over one schedule agree. */
  lemma {:induction false} ForwardPlansAgree(cfg: PlanConfig, ms: seq<Moment>, i: nat, j: nat, ts: nat)
    requires i <= j < |ms| && ms[i].entries == ms[j].entries
    requires Forwards(ms) && forall e <- ms[i].entries :: e.dur <= KEEP
    requires SharedSecond(cfg, ms, i, j, ts)
    ensures PlannedAlike(cfg, ms, i, j, ts)
  {
    hide Forwards, NotLate, PlanOf, TickerAt;
    ForwardPlansAreNotLate(ms, i, j, ts);
    PlansOfARunAgree(cfg, ms, i, j, ts);
  }

  // ----- what is released -----

  /** A clip is the second of its break that the pod has there. */
  predicate Plays(cfg: PlanConfig, c: Clip, pod: seq<AdItem>) {
    && c.breakStart.Some? && 0 <= c.start - c.breakStart.value < c.breakSeconds
    && var q := Quanta(c.breakSeconds, pod, cfg.slateUri)[c.start - c.breakStart.value];
       c.kind == q.kind && c.uri == q.uri && c.offset == if q.kind == "slate" then c.start else q.offset
  }

  lemma {:induction false} BreakClipPlays(cfg: PlanConfig, e: Entry, pod: seq<AdItem>, ts: nat, kind: string)
    requires Covers(e, ts)
    ensures var c := Flagged(BreakClip(cfg, e, pod, ts), kind);
      c.breakStart == Some(e.start) && c.start == ts && Plays(cfg, c, pod)
  {
    hide Quanta;
  }

  lemma {:induction false} ClipPlays(cfg: PlanConfig, entries: seq<Entry>, pods: map<int, seq<AdItem>>, ts: nat,
      kind: string)
    requires KnownAt(entries, pods, ts)
    ensures var c := Flagged(ClipAt(cfg, entries, pods, ts), kind);
      c.start == ts && (c.breakStart.Some? ==> c.breakStart.value in pods && Plays(cfg, c, pods[c.breakStart.value]))
  {
    hide Plays, BreakClip;
    var e := FindEntry(entries, ts);
    if e.Some? && e.value.kind.AdBreak? {
      BreakClipPlays(cfg, e.value, PodOf(pods, e.value.start), ts, kind);
    }
  }

  lemma {:induction false} PlannedClipPlays(cfg: PlanConfig, entries: seq<Entry>, pods: map<int, seq<AdItem>>,
      now: nat, n: nat, c: Clip)
    requires c in Layout(cfg, entries, pods, now, n) && Known(entries, pods, now, n) && c.breakStart.Some?
    ensures c.breakStart.value in pods && Plays(cfg, c, pods[c.breakStart.value]) && now <= c.start
  {
    hide ClipAt, Flagged, Plays, KnownAt;
    var i :| 0 <= i < n && Layout(cfg, entries, pods, now, n)[i] == c;
    assert KnownAt(entries, pods, now + i);
    ClipPlays(cfg, entries, pods, now + i, KindBefore(cfg, entries, pods, now, now + i));
  }

  lemma {:induction false} TriedClipPlays(cfg: PlanConfig, ms: seq<Moment>, k: nat, c: Clip)
    requires k < |ms| && c in TriedAt(cfg, ms, k) && c.breakStart.Some?
    ensures c.breakStart.value in PodsAt(cfg, ms, k) && Plays(cfg, c, PodsAt(cfg, ms, k)[c.breakStart.value])
    ensures ms[k].slot <= c.start && !AtLeast(TickerAt(cfg, ms, k).last, c.start)
  {
    hide Layout, Known, Plays, PlanOf, ReadyPods, TickerAt, Release;
    var s, m := TickerAt(cfg, ms, k), ms[k];
    var p := PlanOf(cfg, s, m);
    PlanKeeps(cfg, s, m);
    ReleaseFacts(p.clips, m.slot, cfg.lead, s.last, m.budget);
    PlannedClipPlays(cfg, m.entries, ReadyPods(p.broker), m.slot, |p.clips|, c);
  }

  lemma {:induction false} LastGrows(cfg: PlanConfig, ms: seq<Moment>, i: nat, j: nat, t: int)
    requires i <= j <= |ms| && AtLeast(TickerAt(cfg, ms, i).last, t)
    ensures AtLeast(TickerAt(cfg, ms, j).last, t)
    decreases j
  {
    hide PlanOf, Release, TickerAt, Evict, Valid;
    if i < j {
      LastGrows(cfg, ms, i, j - 1, t);
      NextTicker(cfg, ms, j - 1);
      var s, m := TickerAt(cfg, ms, j - 1), ms[j - 1];
      ReleaseFacts(PlanOf(cfg, s, m).clips, m.slot, cfg.lead, s.last, m.budget);
    }
  }

  lemma {:induction false} TickTriesItsSecond(cfg: PlanConfig, ms: seq<Moment>, k: nat)
    requires k < |ms| && cfg.ahead >= 1 && ms[k].budget >= 1
    ensures AtLeast(TickerAt(cfg, ms, k + 1).last, ms[k].slot)
  {
    hide PlanOf, Release, ReadyPods, Known, ClipAt, TickerAt, Evict, Valid;
    var s, m := TickerAt(cfg, ms, k), ms[k];
    NextTicker(cfg, ms, k);
    PlanKeeps(cfg, s, m);
    OwnSecondIsTried(PlanOf(cfg, s, m).clips, m.slot, cfg.lead, s.last, m.budget);
  }

  /** The clock never goes back. */
  predicate Forwards(ms: seq<Moment>) { forall i, j :: 0 <= i <= j < |ms| ==> ms[i].slot <= ms[j].slot }

  /** Every tick has time for a clip. */
  predicate Budgeted(ms: seq<Moment>) { forall i :: 0 <= i < |ms| ==> ms[i].budget >= 1 }

  lemma {:induction false} NotForgotten(cfg: PlanConfig, ms: seq<Moment>, m: nat, j: nat, c: Clip)
    requires cfg.ahead >= 1 && (Forwards(ms) || Budgeted(ms))
    requires m < j < |ms| && c in TriedAt(cfg, ms, j) && c.breakStart.Some? && c.breakSeconds <= KEEP
    ensures ms[m].slot <= c.breakStart.value + KEEP
  {
    hide TriedAt, PodsAt, TickerAt;
    TriedClipPlays(cfg, ms, j, c);
    if ms[m].slot > c.breakStart.value + KEEP {
      assert c.start < ms[m].slot;
      if !Forwards(ms) {
        TickTriesItsSecond(cfg, ms, m);
        LastGrows(cfg, ms, m + 1, j, ms[m].slot);
      }
      assert false;
    }
  }

  /**
   All released seconds of a break play one and the same pod, as long as no tick between
   them was more than an hour behind the start of the break.
   */
  lemma {:induction false} OnePodPerBreak(cfg: PlanConfig, ms: seq<Moment>, i: nat, j: nat, c: Clip, c': Clip)
    returns (pod: seq<AdItem>)
    requires i <= j < |ms| && c in TriedAt(cfg, ms, i) && c' in TriedAt(cfg, ms, j)
    requires c.breakStart.Some? && c.breakStart == c'.breakStart
    requires forall m :: i <= m < j ==> ms[m].slot <= c.breakStart.value + KEEP
    ensures Plays(cfg, c, pod) && Plays(cfg, c', pod)
    ensures c.breakStart.value in PodsAt(cfg, ms, i) && pod == PodsAt(cfg, ms, i)[c.breakStart.value]
  {
    hide TriedAt, PodsAt, TickerAt, Plays;
    TriedClipPlays(cfg, ms, i, c);
    TriedClipPlays(cfg, ms, j, c');
    PodsPersist(cfg, ms, i, j, c.breakStart.value);
    pod := PodsAt(cfg, ms, i)[c.breakStart.value];
  }

  /** For a break of at most an hour a clock that does not go back is enough, or time for a clip in every tick. */
  lemma {:induction false} OnePodWithinTheHour(cfg: PlanConfig, ms: seq<Moment>, i: nat, j: nat, c: Clip, c': Clip)
    returns (pod: seq<AdItem>)
    requires cfg.ahead >= 1 && (Forwards(ms) || Budgeted(ms))
    requires i <= j < |ms| && c in TriedAt(cfg, ms, i) && c' in TriedAt(cfg, ms, j)
    requires c.breakStart.Some? && c.breakStart == c'.breakStart && c'.breakSeconds <= KEEP
    ensures Plays(cfg, c, pod) && Plays(cfg, c', pod)
    ensures c.breakStart.value in PodsAt(cfg, ms, i) && pod == PodsAt(cfg, ms, i)[c.breakStart.value]
  {
    hide TriedAt, PodsAt, TickerAt, Plays, Forwards, Budgeted;
    forall m | i <= m < j ensures ms[m].slot <= c.breakStart.value + KEEP {
      NotForgotten(cfg, ms, m, j, c');
    }
    pod := OnePodPerBreak(cfg, ms, i, j, c, c');
  }

  // ----- and only that long -----

  /** A tick more than an hour behind the start of a break forgets its pod. */
  lemma {:induction false} LateTickForgets(cfg: PlanConfig, ms: seq<Moment>, m: nat, b: int)
    requires m < |ms| && ms[m].slot > b + KEEP
    ensures b !in TickerAt(cfg, ms, m + 1).broker.pods
  {
    hide PlanOf, ReleaseOf, TickerAt, Valid;
    NextTicker(cfg, ms, m);
  }

  /** No pod arrives for the requests from number n on. */
  predicate NoPod(answers: seq<Answer>, n: nat) { forall a <- answers :: a.entry >= n ==> a.items.None? }

  predicate NoPodIn(m: Moment, n: nat) {
    NoPod(m.before, n) && forall i :: 0 <= i < |m.feed| ==> NoPod(m.feed[i].answers, n)
  }

  /** The break has not been asked for, or has been asked for as number n or later and has no creatives. */
  predicate Empty(b: Broker, start: int, n: nat) {
    n <= |b.entries|
    && (start in b.pods ==> n <= b.pods[start] < |b.entries| && b.entries[b.pods[start]].items == [])
  }

  lemma {:induction false} AskStaysEmpty(b: Broker, s: int, retry: bool, start: int, n: nat)
    requires Valid(b) && Empty(b, start, n)
    ensures Empty(Ask(b, s, retry), start, n)
  {
  }

  lemma {:induction false} GiveUpStaysEmpty(b: Broker, s: int, start: int, n: nat)
    requires Valid(b) && Empty(b, start, n)
    ensures Empty(GiveUp(b, s), start, n)
  {
  }

  lemma {:induction false} ReceiveStaysEmpty(b: Broker, a: Answer, start: int, n: nat)
    requires Valid(b) && Empty(b, start, n) && (a.entry >= n ==> a.items.None?)
    ensures Empty(Receive(b, a), start, n)
  {
  }

  lemma {:induction false} ReceiveAllStaysEmpty(b: Broker, answers: seq<Answer>, start: int, n: nat)
    requires Valid(b) && Empty(b, start, n) && NoPod(answers, n)
    ensures Empty(ReceiveAll(b, answers), start, n)
    decreases |answers|
  {
    hide Receive, Empty, Valid;
    if answers != [] {
      var rest := answers[..|answers| - 1];
      ReceiveAllStaysEmpty(b, rest, start, n);
      ReceiveAllKeeps(b, rest);
      ReceiveStaysEmpty(ReceiveAll(b, rest), answers[|answers| - 1], start, n);
    }
  }

  lemma {:induction false} SecondStaysEmpty(cfg: PlanConfig, es: seq<Entry>, now: nat, ts: nat, b: Broker, turn: Turn,
      start: int, n: nat)
    requires Valid(b) && Empty(b, start, n) && NoPod(turn.answers, n)
    ensures Empty(Second(cfg, es, now, ts, b, turn).1, start, n)
  {
    hide BreakClip, EntryClip, Ask, ReceiveAll, GiveUp, Empty, Valid, NoPod;
    var e := FindEntry(es, ts);
    if e.Some? && e.value.kind.AdBreak? {
      var s := e.value.start;
      AskKeeps(b, s, turn.retry);
      AskStaysEmpty(b, s, turn.retry, start, n);
      ReceiveAllStaysEmpty(Ask(b, s, turn.retry), turn.answers, start, n);
      AskedKeeps(b, s, turn);
      GiveUpStaysEmpty(Asked(b, s, turn), s, start, n);
    }
  }

  lemma {:induction false} BuildStaysEmpty(cfg: PlanConfig, es: seq<Entry>, now: nat, b: Broker, feed: seq<Turn>,
      k: nat, start: int, n: nat)
    requires Valid(b) && Empty(b, start, n) && forall i :: 0 <= i < |feed| ==> NoPod(feed[i].answers, n)
    ensures Empty(Build(cfg, es, now, b, feed, k).broker, start, n)
  {
    hide Second, Empty, Valid;
    if k > 0 {
      BuildStaysEmpty(cfg, es, now, b, feed, k - 1, start, n);
      var p := Build(cfg, es, now, b, feed, k - 1);
      SecondStaysEmpty(cfg, es, now, now + k - 1, p.broker, TurnAt(feed, k - 1), start, n);
    }
  }

  lemma {:induction false} PlanStaysEmpty(cfg: PlanConfig, s: Ticker, m: Moment, start: int, n: nat)
    requires Valid(s.broker) && Empty(s.broker, start, n) && NoPodIn(m, n)
    ensures Empty(PlanOf(cfg, s, m).broker, start, n)
  {
    hide Build, ReceiveAll, Empty, Valid;
    ReceiveAllKeeps(s.broker, m.before);
    ReceiveAllStaysEmpty(s.broker, m.before, start, n);
    BuildStaysEmpty(cfg, m.entries, m.slot, ReceiveAll(s.broker, m.before), m.feed, cfg.ahead, start, n);
  }

  lemma {:induction false} EvictStaysEmpty(b: Broker, now: int, start: int, n: nat)
    requires Empty(b, start, n)
    ensures Empty(Evict(b, now), start, n)
  {
  }

  lemma {:induction false} RunStaysEmpty(cfg: PlanConfig, ms: seq<Moment>, m: nat, j: nat, start: int, n: nat)
    requires m <= j <= |ms| && Empty(TickerAt(cfg, ms, m).broker, start, n)
    requires forall k :: m <= k < j ==> NoPodIn(ms[k], n)
    ensures Empty(TickerAt(cfg, ms, j).broker, start, n)
    decreases j
  {
    hide PlanOf, ReleaseOf, TickerAt, Evict, Valid, Empty, NoPodIn;
    if m < j {
      RunStaysEmpty(cfg, ms, m, j - 1, start, n);
      var s := TickerAt(cfg, ms, j - 1);
      NextTicker(cfg, ms, j - 1);
      PlanStaysEmpty(cfg, s, ms[j - 1], start, n);
      EvictStaysEmpty(PlanOf(cfg, s, ms[j - 1]).broker, ms[j - 1].slot, start, n);
    }
  }

  lemma {:induction false} EmptyPod(b: Broker, start: int, n: nat)
    requires Valid(b) && Empty(b, start, n) && start in ReadyPods(b)
    ensures ReadyPods(b)[start] == []
  {
  }

  /** A break that is not known and whose requests bring no pod plays slate in every second that is released. */
  lemma {:induction false} UnansweredIsSlate(cfg: PlanConfig, ms: seq<Moment>, m: nat, j: nat, c: Clip)
    requires m <= j < |ms| && c in TriedAt(cfg, ms, j) && c.breakStart.Some?
    requires c.breakStart.value !in TickerAt(cfg, ms, m).broker.pods
    requires forall k :: m <= k <= j ==> NoPodIn(ms[k], |TickerAt(cfg, ms, m).broker.entries|)
    ensures Plays(cfg, c, []) && c.breakStart.value in PodsAt(cfg, ms, j) &&
        PodsAt(cfg, ms, j)[c.breakStart.value] == []
  {
    hide TriedAt, TickerAt, Plays, PlanOf, ReadyPods, Valid, NoPodIn;
    var b, n := c.breakStart.value, |TickerAt(cfg, ms, m).broker.entries|;
    RunStaysEmpty(cfg, ms, m, j, b, n);
    PlanStaysEmpty(cfg, TickerAt(cfg, ms, j), ms[j], b, n);
    TriedClipPlays(cfg, ms, j, c);
    hide Empty;
    EmptyPod(PlanOf(cfg, TickerAt(cfg, ms, j), ms[j]).broker, b, n);
  }

  /**
   So the hour is exact: once a tick was more than an hour behind the start of the break, and
   no pod arrives for what is asked afterwards, every later second of it plays slate.
   */
  lemma {:induction false} ForgottenIsSlate(cfg: PlanConfig, ms: seq<Moment>, m: nat, j: nat, c: Clip)
    requires m < j < |ms| && c in TriedAt(cfg, ms, j) && c.breakStart.Some? && ms[m].slot > c.breakStart.value + KEEP
    requires forall k :: m < k <= j ==> NoPodIn(ms[k], |TickerAt(cfg, ms, m + 1).broker.entries|)
    ensures Plays(cfg, c, []) && c.breakStart.value in PodsAt(cfg, ms, j) &&
        PodsAt(cfg, ms, j)[c.breakStart.value] == []
  {
    hide TriedAt, TickerAt, PodsAt, Plays, NoPodIn;
    LateTickForgets(cfg, ms, m, c.breakStart.value);
    UnansweredIsSlate(cfg, ms, m + 1, j, c);
  }

  /** A tick between i and j that was more than an hour behind the start of the break. */
  predicate LateTick(ms: seq<Moment>, i: nat, j: nat, b: int)
    requires j <= |ms|
  {
    exists m :: i <= m < j && ms[m].slot > b + KEEP
  }

  /** When no pod arrives behind a late tick, two seconds play one pod if and only if there was none, or the pod was
      empty. */
  lemma {:induction false} OnePodIffNoLateTick(cfg: PlanConfig, ms: seq<Moment>, i: nat, j: nat, c: Clip, c': Clip)
    requires i <= j < |ms| && c in TriedAt(cfg, ms, i) && c' in TriedAt(cfg, ms, j)
    requires c.breakStart.Some? && c.breakStart == c'.breakStart
    requires forall m, k :: i <= m < k <= j && ms[m].slot > c.breakStart.value + KEEP ==>
      NoPodIn(ms[k], |TickerAt(cfg, ms, m + 1).broker.entries|)
    ensures var b := c.breakStart.value;
      && b in PodsAt(cfg, ms, i) && b in PodsAt(cfg, ms, j)
      && (PodsAt(cfg, ms, j)[b] == PodsAt(cfg, ms, i)[b] <==> !LateTick(ms, i, j, b) || PodsAt(cfg, ms, i)[b] == [])
  {
    hide TriedAt, TickerAt, PodsAt, Plays, NoPodIn;
    var b := c.breakStart.value;
    TriedClipPlays(cfg, ms, i, c);
    TriedClipPlays(cfg, ms, j, c');
    if LateTick(ms, i, j, b) {
      var m :| i <= m < j && ms[m].slot > b + KEEP;
      ForgottenIsSlate(cfg, ms, m, j, c');
    } else {
      PodsPersist(cfg, ms, i, j, b);
    }
  }

  /** A new process knows no pods: what it releases of a break that an earlier one began is slate until a pod
      arrives. */
  lemma {:induction false} RestartAsksAgain(cfg: PlanConfig, ms: seq<Moment>, j: nat, c: Clip)
    requires j < |ms| && c in TriedAt(cfg, ms, j) && c.breakStart.Some?
    requires forall k :: 0 <= k <= j ==> NoPodIn(ms[k], 0)
    ensures Plays(cfg, c, [])
  {
    hide TriedAt, Plays, NoPodIn, PlanOf, ReleaseOf;
    UnansweredIsSlate(cfg, ms, 0, j, c);
  }
}
