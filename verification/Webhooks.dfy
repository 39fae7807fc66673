/**
 Delivery of events to webhook queues, over every interleaving of publications, other
 subscribers, the sender and its workers.
 */
module Webhooks {
  import opened Common
  import opened Events

  /** The loop of the sender: the last event it handed on, its subscription and what it still replays. */
  datatype Sender = Sender(last: int, sub: nat, replay: seq<Event>, queues: seq<Queue>)

  /** A subscription of the sender: the last event handed on, the oldest in the ring and the next id of the hub. */
  datatype Resub = Resub(last: int, oldest: int, nextId: int)

  /** The hub and the sender, with the events handed on and the subscriptions so far. */
  datatype World = World(bus: Bus, sender: Sender, pushed: seq<Event>, resubs: seq<Resub>)

  /** What the worker of each queue takes while an event is pushed. */
  type Pauses = seq<(nat, nat)>

  datatype Step =
    | Publish(kind: string)
    | Replay(pauses: Pauses)
    | Receive(pauses: Pauses)
    | Resubscribe
    | Work(queue: nat)
    | Join
    | Other(sub: nat, state: Sub)

  function PauseAt(pauses: Pauses, i: nat): (nat, nat) { if i < |pauses| then pauses[i] else (0, 0) }

  function PushAll(queues: seq<Queue>, ev: Event, pauses: Pauses): (r: seq<Queue>)
    ensures |r| == |queues|
    ensures forall i :: 0 <= i < |queues| ==> r[i] == Push(queues[i], ev, PauseAt(pauses, i).0, PauseAt(pauses, i).1)
  {
    seq(|queues|, i requires 0 <= i < |queues| => Push(queues[i], ev, PauseAt(pauses, i).0, PauseAt(pauses, i).1))
  }

  method PushToAll(queues: seq<Queue>, ev: Event, pauses: Pauses) returns (r: seq<Queue>)
    ensures r == PushAll(queues, ev, pauses)
  {
    r := queues;
    for i := 0 to |queues|
      invariant |r| == |queues|
      invariant forall j :: i <= j < |r| ==> r[j] == queues[j]
      invariant forall j :: 0 <= j < i ==> r[j] == Push(queues[j], ev, PauseAt(pauses, j).0, PauseAt(pauses, j).1)
    {
      var q := PushToOne(r[i], ev, PauseAt(pauses, i).0, PauseAt(pauses, i).1);
      r := r[i := q];
    }
  }

  /** The attempts of the sender on one queue, with what the worker takes between them. */
  method PushToOne(q: Queue, ev: Event, n: nat, m: nat) returns (r: Queue)
    ensures r == Push(q, ev, n, m)
  {
    if |q.waiting| < QUEUE_BUFFER { return q.(waiting := q.waiting + [ev]); }
    r := TakeMany(q, n);
    if |r.waiting| > 0 { r := Queue(r.waiting[1..], r.taken, r.dropped + 1); }
    r := TakeMany(r, m);
    if |r.waiting| < QUEUE_BUFFER {
      r := r.(waiting := r.waiting + [ev]);
    } else {
      r := r.(dropped := r.dropped + 1);
    }
  }

  function Channel(w: World): Sub {
    if w.sender.sub < |w.bus.subs| then w.bus.subs[w.sender.sub] else Sub([], true)
  }

  function HandOn(w: World, ev: Event, replay: seq<Event>, pauses: Pauses): World {
    w.(sender := w.sender.(last := ev.id, replay := replay, queues := PushAll(w.sender.queues, ev, pauses)),
       pushed := w.pushed + [ev])
  }

  function Do(w: World, step: Step): World {
    var s := w.sender;
    match step
    case Publish(kind) => w.(bus := Published(w.bus, kind))
    case Replay(pauses) => if s.replay == [] then w else HandOn(w, s.replay[0], s.replay[1..], pauses)
    case Receive(pauses) =>
      var c := Channel(w);
      if s.replay != [] || c.buffer == [] || s.sub >= |w.bus.subs| then w
      else HandOn(w.(bus := w.bus.(subs := w.bus.subs[s.sub := c.(buffer := c.buffer[1..])])), c.buffer[0], [], pauses)
    case Resubscribe =>
      if s.replay != [] || Channel(w).buffer != [] || !Channel(w).closed then w
      else SubscribeAgain(w)
    case Work(q) => if q >= |s.queues| then w else w.(sender := s.(queues := s.queues[q := TakeOne(s.queues[q])]))
    case Join => w.(bus := Subscribed(w.bus))
    case Other(i, state) => if i == s.sub || i >= |w.bus.subs| then w
        else w.(bus := w.bus.(subs := w.bus.subs[i := state]))
  }

  function SubscribeAgain(w: World): World {
    var s, b := w.sender, w.bus;
    World(Subscribed(b), s.(sub := |b.subs|, replay := Newer(b.ring, s.last)), w.pushed,
          w.resubs + [Resub(s.last, Oldest(b), b.nextId)])
  }

  function PublishAll(b: Bus, kinds: seq<string>): Bus {
    if kinds == [] then b else Published(PublishAll(b, kinds[..|kinds| - 1]), kinds[|kinds| - 1])
  }

  /** The sender reads the last id and then subscribes; events may be published in between. */
  function Started(b: Bus, kinds: seq<string>, endpoints: nat): World {
    var queues := seq(endpoints, i => Queue([], [], 0));
    SubscribeAgain(World(PublishAll(b, kinds), Sender(b.nextId - 1, 0, [], queues), [], []))
  }

  function Run(w: World, steps: seq<Step>): World {
    if steps == [] then w else Do(Run(w, steps[..|steps| - 1]), steps[|steps| - 1])
  }

  /** The sender as an object: each method is one step of its loop. */
  class Loop {
    var last: int
    var sub: nat
    var replay: seq<Event>
    var queues: seq<Queue>

    ghost function Value(): Sender
      reads this
    {
      Sender(last, sub, replay, queues)
    }

    /** A sender that starts while nothing else is published. */
    constructor (hub: Hub, endpoints: nat)
      modifies hub
      ensures var w := Started(old(hub.Value()), [], endpoints); Value() == w.sender && hub.Value() == w.bus
    {
      var id := hub.Last();
      var r, s := hub.Subscribe(id);
      last, sub, replay := id, s, r;
      queues := seq(endpoints, i => Queue([], [], 0));
    }

    method Push(ev: Event, pauses: Pauses)
      modifies `last, `queues
      ensures Value() == old(Value()).(last := ev.id, queues := PushAll(old(queues), ev, pauses))
    {
      last := ev.id;
      queues := PushToAll(queues, ev, pauses);
    }

    /** Takes one event from the replay. */
    method ReplayOne(pauses: Pauses)
      requires replay != []
      modifies this
      ensures forall w: World :: w.sender == old(Value()) ==> Do(w, Replay(pauses)).sender == Value()
    {
      var ev := replay[0];
      replay := replay[1..];
      Push(ev, pauses);
    }

    /** The hub cut the subscription off: take up again after the last event that was handed on. */
    method Reopen(hub: Hub)
      modifies hub, this
      ensures forall w: World :: w.sender == old(Value()) && w.bus == old(hub.Value()) ==>
        SubscribeAgain(w).sender == Value() && SubscribeAgain(w).bus == hub.Value()
    {
      replay, sub := hub.Subscribe(last);
    }
  }

  // ----- what every step keeps -----

  /** The id that the sender hands on next: the one after the last, or the oldest that was left. */
  function Expected(last: int, r: Resub): int {
    if r.last == last && r.oldest > last + 1 then r.oldest else last + 1
  }

  predicate Numbered(s: seq<Event>, first: int) { forall i :: 0 <= i < |s| ==> s[i].id == first + i }

  /** What is still on its way has no hole, and while the subscription lives nothing newer is missing. */
  predicate Streams(w: World) {
    && w.resubs != [] && w.resubs[|w.resubs| - 1].last <= w.sender.last && 0 <= w.sender.last < w.bus.nextId
    && w.sender.sub < |w.bus.subs|
    && var next := Expected(w.sender.last, w.resubs[|w.resubs| - 1]);
       var stream := w.sender.replay + Channel(w).buffer;
       && Numbered(stream, next) && next + |stream| <= w.bus.nextId
       && (!Channel(w).closed ==> next + |stream| == w.bus.nextId)
  }

  /** The id before the i-th event that was handed on. */
  function Before(pushed: seq<Event>, start: int, i: nat): int
    requires i <= |pushed|
  {
    if i == 0 then start else pushed[i - 1].id
  }

  /** An event follows the one before it, or the ring had lost what is missing when the sender subscribed. */
  predicate NextOrLost(before: int, id: int, resubs: seq<Resub>) {
    id == before + 1 || (id > before + 1 && exists r <- resubs :: r.last == before && r.oldest == id)
  }

  predicate Handed(w: World) {
    && w.resubs != [] && w.sender.last == Before(w.pushed, w.resubs[0].last, |w.pushed|)
    && (forall i :: 0 <= i < |w.pushed| ==> NextOrLost(Before(w.pushed, w.resubs[0].last, i), w.pushed[i].id, w.resubs))
    && (forall r <- w.resubs :: r.oldest > r.last + 1 ==> r.nextId - 1 - r.last > w.bus.cap)
  }

  predicate Booked(w: World) { forall q <- w.sender.queues :: Accounts(q, w.pushed) && Newest(q, w.pushed) }

  predicate Good(w: World) { GoodRing(w.bus) && Streams(w) && Handed(w) && Booked(w) }

  lemma {:induction false} PublishIsGood(w: World, kind: string)
    requires Good(w)
    ensures Good(Do(w, Publish(kind)))
  {
    hide Accounts, Newest, Latest, GoodRing;
    PublishKeepsRing(w.bus, kind);
    var c, v := Channel(w), Do(w, Publish(kind));
    var ev := Event(w.bus.nextId, kind);
    assert Channel(v) == Offer(c, ev);
    if !c.closed && |c.buffer| < SUB_BUFFER {
      assert w.sender.replay + (c.buffer + [ev]) == w.sender.replay + c.buffer + [ev];
    }
  }

  lemma {:induction false} HandOnIsGood(w: World, ev: Event, replay: seq<Event>, pauses: Pauses)
    requires w.resubs != [] && ev.id == Expected(w.sender.last, w.resubs[|w.resubs| - 1]) && Handed(w) && Booked(w)
    ensures Handed(HandOn(w, ev, replay, pauses)) && Booked(HandOn(w, ev, replay, pauses))
  {
    hide Accounts, Newest, Push;
    var v := HandOn(w, ev, replay, pauses);
    forall i | 0 <= i < |v.pushed|
      ensures NextOrLost(Before(v.pushed, v.resubs[0].last, i), v.pushed[i].id, v.resubs)
    {
      if i < |w.pushed| {
        assert NextOrLost(Before(w.pushed, w.resubs[0].last, i), w.pushed[i].id, w.resubs);
      } else {
        assert w.resubs[|w.resubs| - 1] in w.resubs;
      }
    }
    forall q | q in v.sender.queues ensures Accounts(q, v.pushed) && Newest(q, v.pushed) {
      var i :| 0 <= i < |v.sender.queues| && v.sender.queues[i] == q;
      PushKeepsAccounts(w.sender.queues[i], ev, PauseAt(pauses, i).0, PauseAt(pauses, i).1, w.pushed);
    }
  }

  lemma {:induction false} ReplayIsGood(w: World, pauses: Pauses)
    requires Good(w) && w.sender.replay != []
    ensures Good(Do(w, Replay(pauses)))
  {
    hide Handed, Booked, PushAll;
    var s := w.sender;
    var stream := s.replay + Channel(w).buffer;
    assert stream[0] == s.replay[0];
    HandOnIsGood(w, s.replay[0], s.replay[1..], pauses);
    StreamMovesOn(w, stream, s.replay[0].id, s.replay[1..] + Channel(w).buffer);
  }

  lemma {:induction false} StreamMovesOn(w: World, stream: seq<Event>, id: int, rest: seq<Event>)
    requires stream != [] && w.resubs != [] && id == Expected(w.sender.last, w.resubs[|w.resubs| - 1])
    requires w.resubs[|w.resubs| - 1].last <= w.sender.last
    requires Numbered(stream, id) && |rest| == |stream| - 1 && forall i :: 0 <= i < |rest| ==> rest[i] == stream[i + 1]
    ensures Numbered(rest, id + 1) && Expected(id, w.resubs[|w.resubs| - 1]) == id + 1
  {
  }

  lemma {:induction false} ReceiveIsGood(w: World, pauses: Pauses)
    requires Good(w) && w.sender.replay == [] && Channel(w).buffer != []
    ensures Good(Do(w, Receive(pauses)))
  {
    hide Handed, Booked, PushAll, Latest;
    var s, c := w.sender, Channel(w);
    var stream := s.replay + c.buffer;
    assert stream == c.buffer;
    var v := w.(bus := w.bus.(subs := w.bus.subs[s.sub := c.(buffer := c.buffer[1..])]));
    assert Handed(v) && Booked(v) by { SameBooks(w, v); }
    HandOnIsGood(v, c.buffer[0], [], pauses);
    StreamMovesOn(w, stream, c.buffer[0].id, c.buffer[1..]);
    assert [] + c.buffer[1..] == c.buffer[1..];
  }

  lemma {:induction false} SameBooks(w: World, v: World)
    requires Handed(w) && Booked(w) && v.sender == w.sender && v.pushed == w.pushed && v.resubs == w.resubs
    requires v.bus.cap == w.bus.cap
    ensures Handed(v) && Booked(v)
  {
  }

  lemma {:induction false} SubscribeIsGood(w: World)
    requires GoodRing(w.bus) && w.sender.last < w.bus.nextId
    requires w.resubs != [] ==> Handed(w)
    requires w.resubs == [] ==> w.pushed == []
    requires 0 <= w.sender.last && Booked(w)
    ensures Good(SubscribeAgain(w))
  {
    hide Accounts;
    var v, s := SubscribeAgain(w), w.sender;
    NewerIsSuffix(w.bus.ring, Oldest(w.bus), s.last);
    assert v.sender.replay + Channel(v).buffer == v.sender.replay;
    var r := Resub(s.last, Oldest(w.bus), w.bus.nextId);
    assert v.resubs[|v.resubs| - 1] == r;
    forall x | x in v.resubs ensures x.oldest > x.last + 1 ==> x.nextId - 1 - x.last > w.bus.cap {
      assert x in w.resubs || x == r;
    }
    forall i | 0 <= i < |v.pushed|
      ensures NextOrLost(Before(v.pushed, v.resubs[0].last, i), v.pushed[i].id, v.resubs)
    {
      assert NextOrLost(Before(w.pushed, w.resubs[0].last, i), w.pushed[i].id, w.resubs);
      MoreResubs(Before(w.pushed, w.resubs[0].last, i), w.pushed[i].id, w.resubs, r);
    }
  }

  lemma {:induction false} MoreResubs(before: int, id: int, resubs: seq<Resub>, r: Resub)
    requires NextOrLost(before, id, resubs)
    ensures NextOrLost(before, id, resubs + [r])
  {
    if id != before + 1 {
      var x :| x in resubs && x.last == before && x.oldest == id;
      assert x in resubs + [r];
    }
  }

  lemma {:induction false} OthersAreGood(w: World, step: Step)
    requires Good(w) && (step.Work? || step.Join? || step.Other?)
    ensures Good(Do(w, step))
  {
    hide Accounts, Newest, TakeOne;
    var v := Do(w, step);
    assert Channel(v) == Channel(w);
    if step.Work? && step.queue < |w.sender.queues| {
      TakeKeepsAccounts(w.sender.queues[step.queue], w.pushed);
      TakeKeepsNewest(w.sender.queues[step.queue], w.pushed);
    }
  }

  lemma {:induction false} StepIsGood(w: World, step: Step)
    requires Good(w)
    ensures Good(Do(w, step))
  {
    hide Handed, Booked, GoodRing;
    match step {
      case Publish(kind) => PublishIsGood(w, kind);
      case Replay(pauses) => if w.sender.replay != [] { ReplayIsGood(w, pauses); }
      case Receive(pauses) => if w.sender.replay == [] && Channel(w).buffer != [] { ReceiveIsGood(w, pauses); }
      case Resubscribe => SubscribeIsGood(w);
      case _ => OthersAreGood(w, step);
    }
  }

  lemma {:induction false} PublishAllKeepsRing(b: Bus, kinds: seq<string>)
    requires GoodRing(b)
    ensures GoodRing(PublishAll(b, kinds)) && b.nextId <= PublishAll(b, kinds).nextId
    decreases |kinds|
  {
    hide GoodRing;
    if kinds != [] {
      PublishAllKeepsRing(b, kinds[..|kinds| - 1]);
      PublishKeepsRing(PublishAll(b, kinds[..|kinds| - 1]), kinds[|kinds| - 1]);
    }
  }

  lemma {:induction false} StartIsGood(b: Bus, kinds: seq<string>, endpoints: nat)
    requires GoodRing(b)
    ensures Good(Started(b, kinds, endpoints))
  {
    hide PublishAll, GoodRing, Streams, Handed, Booked;
    PublishAllKeepsRing(b, kinds);
    var queues := seq(endpoints, i => Queue([], [], 0));
    var w := World(PublishAll(b, kinds), Sender(b.nextId - 1, 0, [], queues), [], []);
    NothingBooked(w);
    assert b.nextId >= 1 by { FirstId(b); }
    SubscribeIsGood(w);
  }

  lemma {:induction false} FirstId(b: Bus)
    requires GoodRing(b)
    ensures b.nextId >= 1
  {
  }

  lemma {:induction false} NothingBooked(w: World)
    requires w.pushed == [] && forall q <- w.sender.queues :: q == Queue([], [], 0)
    ensures Booked(w)
  {
  }

  lemma {:induction false} RunIsGood(b: Bus, kinds: seq<string>, endpoints: nat, steps: seq<Step>)
    requires GoodRing(b)
    ensures Good(Run(Started(b, kinds, endpoints), steps))
    decreases |steps|
  {
    hide Good, Do, Started;
    if steps == [] {
      StartIsGood(b, kinds, endpoints);
    } else {
      RunIsGood(b, kinds, endpoints, steps[..|steps| - 1]);
      StepIsGood(Run(Started(b, kinds, endpoints), steps[..|steps| - 1]), steps[|steps| - 1]);
    }
  }

  // ----- what the receivers get -----

  lemma {:induction false} IdsGrow(w: World, i: nat, j: nat)
    requires Handed(w) && i < j < |w.pushed|
    ensures w.pushed[i].id < w.pushed[j].id
    decreases j
  {
    assert NextOrLost(Before(w.pushed, w.resubs[0].last, j), w.pushed[j].id, w.resubs);
    if i < j - 1 { IdsGrow(w, i, j - 1); }
  }

  /**
   In every run the ids handed on strictly increase, an id is missing only when the ring
   had lost it as the sender subscribed, and each queue accounts for every event: it waits
   among the newest, was taken in order, or was dropped and counted. The newest one never is.
   */
  lemma {:induction false} EventsAreDelivered(b: Bus, kinds: seq<string>, endpoints: nat, steps: seq<Step>)
    requires GoodRing(b)
    ensures var w := Run(Started(b, kinds, endpoints), steps);
      && w.resubs != []
      && (forall i, j :: 0 <= i < j < |w.pushed| ==> w.pushed[i].id < w.pushed[j].id)
      && (forall i :: 0 <= i < |w.pushed| ==>
            NextOrLost(Before(w.pushed, w.resubs[0].last, i), w.pushed[i].id, w.resubs))
      && (forall r <- w.resubs :: r.oldest > r.last + 1 ==> r.nextId - 1 - r.last > w.bus.cap)
      && (forall q <- w.sender.queues :: Accounts(q, w.pushed) && Newest(q, w.pushed))
  {
    hide Run, Started, NextOrLost, Accounts, Newest;
    RunIsGood(b, kinds, endpoints, steps);
    var w := Run(Started(b, kinds, endpoints), steps);
    forall i, j | 0 <= i < j < |w.pushed| ensures w.pushed[i].id < w.pushed[j].id {
      IdsGrow(w, i, j);
    }
  }

  /** Subscriptions that found everything since the last event in the ring. */
  predicate Complete(resubs: seq<Resub>) { forall r <- resubs :: r.oldest <= r.last + 1 }

  lemma {:induction false} NoLoss(before: int, id: int, resubs: seq<Resub>)
    requires NextOrLost(before, id, resubs) && Complete(resubs)
    ensures id == before + 1
  {
  }

  lemma {:induction false} HandedAt(w: World, i: nat)
    requires Handed(w) && i < |w.pushed|
    ensures NextOrLost(Before(w.pushed, w.resubs[0].last, i), w.pushed[i].id, w.resubs)
  {
  }

  /** Nothing is lost as long as every subscription was in time. */
  lemma {:induction false} InTimeNothingIsLost(w: World, i: nat)
    requires w.resubs != [] && Handed(w) && Complete(w.resubs) && i < |w.pushed|
    ensures w.pushed[i].id == w.resubs[0].last + 1 + i
    decreases i
  {
    hide Handed, NextOrLost, Complete;
    HandedAt(w, i);
    NoLoss(Before(w.pushed, w.resubs[0].last, i), w.pushed[i].id, w.resubs);
    if i > 0 { InTimeNothingIsLost(w, i - 1); }
  }

  /** The next event after a subscription skips an id if and only if the ring had lost one. */
  lemma {:induction false} LostIffTooLate(w: World, pauses: Pauses)
    requires Good(w) && w.sender.replay == [] && Channel(w).buffer == [] && Channel(w).closed
    ensures var v := Do(w, Resubscribe);
      v.sender.replay != [] ==>
        (Do(v, Replay(pauses)).sender.last == w.sender.last + 1 <==> Oldest(w.bus) <= w.sender.last + 1)
  {
    hide Handed, Booked, PushAll;
    SubscribeIsGood(w);
    var v := Do(w, Resubscribe);
    if v.sender.replay != [] {
      assert (v.sender.replay + Channel(v).buffer)[0] == v.sender.replay[0];
      assert v.resubs[|v.resubs| - 1] == Resub(w.sender.last, Oldest(w.bus), w.bus.nextId);
    }
  }

  // ----- what a queue drops -----

  /** The pauses of a step that hands an event on, if it does. */
  function HandedOn(w: World, step: Step): Option<Pauses> {
    match step
    case Replay(pauses) => if w.sender.replay != [] then Some(pauses) else None
    case Receive(pauses) =>
      if w.sender.replay == [] && w.sender.sub < |w.bus.subs| && w.bus.subs[w.sender.sub].buffer != [] then Some(pauses)
      else None
    case _ => None
  }

  /** The step pushes into this queue while 512 events wait in it, and the worker does not take them all meanwhile. */
  predicate Overflows(w: World, step: Step, i: nat) {
    && i < |w.sender.queues| && |w.sender.queues[i].waiting| == 512
    && HandedOn(w, step).Some? && PauseAt(HandedOn(w, step).value, i).0 < 512
  }

  function Overflowed(w: World, steps: seq<Step>, i: nat): nat {
    if steps == [] then 0
    else
      var k := |steps| - 1;
      Overflowed(w, steps[..k], i) + if Overflows(Run(w, steps[..k]), steps[k], i) then 1 else 0
  }

  lemma {:induction false} StepDrops(w: World, step: Step, i: nat)
    requires i < |w.sender.queues| && |w.sender.queues[i].waiting| <= 512
    ensures |Do(w, step).sender.queues| == |w.sender.queues|
    ensures Do(w, step).sender.queues[i].dropped ==
      w.sender.queues[i].dropped + if Overflows(w, step, i) then 1 else 0
  {
    if HandedOn(w, step).Some? {
      var pauses := HandedOn(w, step).value;
      var ev := if step.Replay? then w.sender.replay[0] else Channel(w).buffer[0];
      PushDropsOnlyWhenFull(w.sender.queues[i], ev, PauseAt(pauses, i).0, PauseAt(pauses, i).1);
      hide Push;
    }
  }

  /** In every run a queue has dropped exactly as many events as were pushed into it while it was full. */
  lemma {:induction false} DropsAreOverflows(b: Bus, kinds: seq<string>, endpoints: nat, steps: seq<Step>, i: nat)
    requires GoodRing(b) && i < endpoints
    ensures var w := Started(b, kinds, endpoints);
      && |Run(w, steps).sender.queues| == endpoints
      && Run(w, steps).sender.queues[i].dropped == Overflowed(w, steps, i)
    decreases |steps|
  {
    hide Do, Overflows, GoodRing, PublishAll;
    if steps != [] {
      var k := |steps| - 1;
      DropsAreOverflows(b, kinds, endpoints, steps[..k], i);
      var w := Run(Started(b, kinds, endpoints), steps[..k]);
      RunIsGood(b, kinds, endpoints, steps[..k]);
      assert |w.sender.queues[i].waiting| <= 512 by { assert w.sender.queues[i] in w.sender.queues; }
      StepDrops(w, steps[k], i);
    }
  }

  lemma {:induction false} AllInOrder(a: seq<Event>, b: seq<Event>)
    requires InOrder(a, b)
    ensures |a| <= |b| && (|a| == |b| ==> a == b)
  {
    if a != [] && b != [] {
      if a[|a| - 1] == b[|b| - 1] {
        AllInOrder(a[..|a| - 1], b[..|b| - 1]);
        assert a == a[..|a| - 1] + [a[|a| - 1]] && b == b[..|b| - 1] + [b[|b| - 1]];
      } else {
        AllInOrder(a, b[..|b| - 1]);
      }
    }
  }

  /** What was handed on and not yet taken from this queue. */
  function Behind(w: World, i: nat): int
    requires i < |w.sender.queues|
  {
    |w.pushed| - |w.sender.queues[i].taken|
  }

  lemma {:induction false} NeverOverflowed(w: World, steps: seq<Step>, i: nat)
    requires forall k :: 0 <= k < |steps| ==> !Overflows(Run(w, steps[..k]), steps[k], i)
    ensures Overflowed(w, steps, i) == 0
    decreases |steps|
  {
    hide Run, Overflows;
    if steps != [] {
      var n := |steps| - 1;
      forall k | 0 <= k < n ensures !Overflows(Run(w, steps[..n][..k]), steps[..n][k], i) {
        assert steps[..n][..k] == steps[..k];
      }
      NeverOverflowed(w, steps[..n], i);
    }
  }

  /** An endpoint that is never 512 events behind loses nothing: every event was taken, in order, or waits. */
  lemma {:induction false} KeepingUpLosesNothing(b: Bus, kinds: seq<string>, endpoints: nat, steps: seq<Step>, i: nat)
    requires GoodRing(b) && i < endpoints
    requires forall k :: 0 <= k < |steps| ==>
      var w := Run(Started(b, kinds, endpoints), steps[..k]); i < |w.sender.queues| && Behind(w, i) < 512
    ensures var w := Run(Started(b, kinds, endpoints), steps);
      i < |w.sender.queues| && w.sender.queues[i].taken + w.sender.queues[i].waiting == w.pushed
  {
    hide Run, GoodRing, Do, Started;
    var start := Started(b, kinds, endpoints);
    forall k | 0 <= k < |steps| ensures !Overflows(Run(start, steps[..k]), steps[k], i) {
      var w := Run(start, steps[..k]);
      RunIsGood(b, kinds, endpoints, steps[..k]);
      assert Accounts(w.sender.queues[i], w.pushed) by { assert w.sender.queues[i] in w.sender.queues; }
      assert |w.sender.queues[i].waiting| <= Behind(w, i);
    }
    NeverOverflowed(start, steps, i);
    DropsAreOverflows(b, kinds, endpoints, steps, i);
    var w := Run(start, steps);
    RunIsGood(b, kinds, endpoints, steps);
    var q := w.sender.queues[i];
    assert Accounts(q, w.pushed) by { assert q in w.sender.queues; }
    AllInOrder(q.taken, w.pushed[..|w.pushed| - |q.waiting|]);
    assert w.pushed == w.pushed[..|w.pushed| - |q.waiting|] + w.pushed[|w.pushed| - |q.waiting|..];
  }
}
