/**
 The event hub and the webhook sender, as atomic steps under the hub's lock and on the
 channels between the sender and its workers.

 The hub keeps the last events in a ring and hands new ones to subscriptions; one whose
 buffer is full is cut off. The sender subscribes again after the last event it handed on.
 Each endpoint has its own queue, and a full queue drops its oldest event.
 */
module Events {
  datatype Event = Event(id: int, kind: string)

  /** A channel of events: closed when it was cut off, but what is in it can still be read. */
  datatype Sub = Sub(buffer: seq<Event>, closed: bool)

  const SUB_BUFFER := 256
  const QUEUE_BUFFER := 512

  // ----- the hub -----

  datatype Bus = Bus(ring: seq<Event>, cap: nat, nextId: int, subs: seq<Sub>)

  function Latest(ring: seq<Event>, n: nat): seq<Event> { if |ring| > n then ring[|ring| - n..] else ring }

  function Offer(s: Sub, ev: Event): Sub {
    if s.closed then s
    else if |s.buffer| < SUB_BUFFER then s.(buffer := s.buffer + [ev])
    else s.(closed := true)
  }

  function OfferAll(subs: seq<Sub>, ev: Event): (r: seq<Sub>)
    ensures |r| == |subs| && forall i :: 0 <= i < |subs| ==> r[i] == Offer(subs[i], ev)
  {
    seq(|subs|, i requires 0 <= i < |subs| => Offer(subs[i], ev))
  }

  function Published(h: Bus, kind: string): Bus {
    var ev := Event(h.nextId, kind);
    Bus(Latest(h.ring + [ev], h.cap), h.cap, h.nextId + 1, OfferAll(h.subs, ev))
  }

  function Newer(ring: seq<Event>, after: int): seq<Event> {
    if ring == [] then []
    else Newer(ring[..|ring| - 1], after) + if ring[|ring| - 1].id > after then [ring[|ring| - 1]] else []
  }

  /** A new subscription is the last one of the list. */
  function Subscribed(h: Bus): Bus { h.(subs := h.subs + [Sub([], false)]) }

  /** The ring holds the latest events, without a hole, and all of them until it is full. */
  predicate GoodRing(h: Bus) {
    && h.cap >= 1 && h.nextId >= 1 && |h.ring| <= h.cap && |h.ring| < h.nextId
    && (forall i :: 0 <= i < |h.ring| ==> h.ring[i].id == h.nextId - |h.ring| + i)
    && (|h.ring| < h.cap ==> |h.ring| == h.nextId - 1)
  }

  function Oldest(h: Bus): int { h.nextId - |h.ring| }

  class Hub {
    var ring: seq<Event>
    const cap: nat
    var nextId: int
    var subs: seq<Sub>

    ghost function Value(): Bus
      reads this
    {
      Bus(ring, cap, nextId, subs)
    }

    constructor (capacity: int)
      ensures GoodRing(Value()) && ring == [] && nextId == 1 && subs == []
      ensures cap == if capacity < 1 then 1000 else capacity
    {
      cap := if capacity < 1 then 1000 else capacity;
      ring, nextId, subs := [], 1, [];
    }

    method Publish(kind: string) returns (ev: Event)
      modifies this
      ensures ev == Event(old(nextId), kind) && Value() == Published(old(Value()), kind)
    {
      ev := Event(nextId, kind);
      nextId := nextId + 1;
      ring := ring + [ev];
      if |ring| > cap { ring := ring[|ring| - cap..]; }
      ghost var before := subs;
      var i := 0;
      while i < |subs|
        invariant i <= |subs| == |before| && ring == Latest(old(ring) + [ev], cap) && nextId == old(nextId) + 1
        invariant forall j :: 0 <= j < |subs| ==> subs[j] == if j < i then Offer(before[j], ev) else before[j]
      {
        if !subs[i].closed {
          if |subs[i].buffer| < SUB_BUFFER {
            subs := subs[i := subs[i].(buffer := subs[i].buffer + [ev])];
          } else {
            subs := subs[i := subs[i].(closed := true)];
          }
        }
        i := i + 1;
      }
      assert subs == OfferAll(before, ev);
    }

    method Subscribe(after: int) returns (replay: seq<Event>, sub: nat)
      modifies `subs
      ensures replay == Newer(ring, after) && sub == |old(subs)| && Value() == Subscribed(old(Value()))
    {
      replay := [];
      var i := 0;
      while i < |ring|
        invariant i <= |ring| && subs == old(subs)
        invariant replay == Newer(ring[..i], after)
      {
        assert ring[..i + 1][..i] == ring[..i];
        if ring[i].id > after { replay := replay + [ring[i]]; }
        i := i + 1;
      }
      assert ring[..i] == ring;
      sub := |subs|;
      subs := subs + [Sub([], false)];
    }

    method Close(sub: nat)
      requires sub < |subs|
      modifies `subs
      ensures subs == old(subs)[sub := old(subs)[sub].(closed := true)]
    {
      if !subs[sub].closed { subs := subs[sub := subs[sub].(closed := true)]; }
    }

    method Last() returns (id: int)
      ensures id == nextId - 1
    {
      return nextId - 1;
    }
  }

  lemma {:induction false} PublishKeepsRing(h: Bus, kind: string)
    requires GoodRing(h)
    ensures GoodRing(Published(h, kind)) && Oldest(h) <= Oldest(Published(h, kind))
  {
  }

  /** A replay is the end of the ring: it starts right after the last event seen, or at the oldest one left. */
  lemma {:induction false} NewerIsSuffix(ring: seq<Event>, first: int, after: int)
    requires forall i :: 0 <= i < |ring| ==> ring[i].id == first + i
    requires after < first + |ring|
    ensures var k := if after + 1 > first then after + 1 - first else 0;
      k <= |ring| && Newer(ring, after) == ring[k..]
    decreases |ring|
  {
    if ring != [] {
      var n := |ring| - 1;
      var k := if after + 1 > first then after + 1 - first else 0;
      if after < first + n {
        NewerIsSuffix(ring[..n], first, after);
        hide Newer;
        NewerOne(ring, after);
        assert ring[k..] == ring[..n][k..] + [ring[n]];
      } else {
        hide Newer;
        NothingNewer(ring, after);
        assert ring[k..] == [];
      }
    }
  }

  lemma {:induction false} NewerOne(ring: seq<Event>, after: int)
    requires ring != [] && ring[|ring| - 1].id > after
    ensures Newer(ring, after) == Newer(ring[..|ring| - 1], after) + [ring[|ring| - 1]]
  {
  }

  lemma {:induction false} NothingNewer(ring: seq<Event>, after: int)
    requires forall i :: 0 <= i < |ring| ==> ring[i].id <= after
    ensures Newer(ring, after) == []
    decreases |ring|
  {
    if ring != [] { NothingNewer(ring[..|ring| - 1], after); }
  }

  // ----- the queue of an endpoint -----

  /** What waits, what the worker took in order, and how many events were dropped. */
  datatype Queue = Queue(waiting: seq<Event>, taken: seq<Event>, dropped: nat)

  function TakeOne(q: Queue): Queue {
    if q.waiting == [] then q else Queue(q.waiting[1..], q.taken + [q.waiting[0]], q.dropped)
  }

  function TakeMany(q: Queue, n: nat): Queue { if n == 0 then q else TakeOne(TakeMany(q, n - 1)) }

  function DropOldest(q: Queue): Queue {
    if q.waiting == [] then q else Queue(q.waiting[1..], q.taken, q.dropped + 1)
  }

  /** An event for a queue; the worker may take events between the attempts to send. */
  function Push(q: Queue, ev: Event, n: nat, m: nat): Queue {
    if |q.waiting| < QUEUE_BUFFER then q.(waiting := q.waiting + [ev])
    else
      var r := TakeMany(DropOldest(TakeMany(q, n)), m);
      if |r.waiting| < QUEUE_BUFFER then r.(waiting := r.waiting + [ev]) else r.(dropped := r.dropped + 1)
  }

  /** The accounts of a queue that was given these events: nothing is lost uncounted, and what waits is the newest. */
  predicate Accounts(q: Queue, pushed: seq<Event>) {
    && |q.waiting| <= QUEUE_BUFFER
    && |pushed| == |q.waiting| + |q.taken| + q.dropped
    && q.waiting == pushed[|pushed| - |q.waiting|..]
    && InOrder(q.taken, pushed[..|pushed| - |q.waiting|])
  }

  /** The newest event was not dropped: it waits, or it was the last one taken. */
  predicate Newest(q: Queue, pushed: seq<Event>) {
    pushed != [] ==>
      var ev := pushed[|pushed| - 1];
      if q.waiting != [] then q.waiting[|q.waiting| - 1] == ev else q.taken != [] && q.taken[|q.taken| - 1] == ev
  }

  /** The events of a appear in b, in the same order. */
  predicate InOrder(a: seq<Event>, b: seq<Event>) {
    if a == [] then true
    else if b == [] then false
    else if a[|a| - 1] == b[|b| - 1] then InOrder(a[..|a| - 1], b[..|b| - 1])
    else InOrder(a, b[..|b| - 1])
  }

  lemma {:induction false} OneMoreInOrder(a: seq<Event>, b: seq<Event>, ev: Event)
    requires InOrder(a, b)
    ensures InOrder(a + [ev], b + [ev])
  {
    assert (a + [ev])[..|a|] == a && (b + [ev])[..|b|] == b;
  }

  lemma {:induction false} SkippedInOrder(a: seq<Event>, b: seq<Event>, ev: Event)
    requires InOrder(a, b)
    ensures InOrder(a, b + [ev])
    decreases |a| + |b|, 1
  {
    assert (b + [ev])[..|b|] == b;
    if a != [] && a[|a| - 1] == ev {
      assert b != [];
      InitInOrder(a, b);
    }
  }

  lemma {:induction false} InitInOrder(a: seq<Event>, b: seq<Event>)
    requires a != [] && InOrder(a, b)
    ensures InOrder(a[..|a| - 1], b)
    decreases |a| + |b|, 0
  {
    var a', b' := a[..|a| - 1], b[..|b| - 1];
    assert b == b' + [b[|b| - 1]];
    if a[|a| - 1] == b[|b| - 1] {
      SkippedInOrder(a', b', b[|b| - 1]);
    } else {
      InitInOrder(a, b');
      SkippedInOrder(a', b', b[|b| - 1]);
    }
  }

  lemma {:induction false} TakeKeepsAccounts(q: Queue, pushed: seq<Event>)
    requires Accounts(q, pushed)
    ensures Accounts(TakeOne(q), pushed)
  {
    if q.waiting != [] {
      var n := |pushed| - |q.waiting|;
      OneMoreInOrder(q.taken, pushed[..n], q.waiting[0]);
      assert pushed[..n + 1] == pushed[..n] + [q.waiting[0]];
    }
  }

  lemma {:induction false} TakeKeepsNewest(q: Queue, pushed: seq<Event>)
    requires Newest(q, pushed)
    ensures Newest(TakeOne(q), pushed)
  {
  }

  lemma {:induction false} TakesKeepAccounts(q: Queue, n: nat, pushed: seq<Event>)
    requires Accounts(q, pushed)
    ensures Accounts(TakeMany(q, n), pushed) && |TakeMany(q, n).waiting| <= |q.waiting|
  {
    if n > 0 {
      TakesKeepAccounts(q, n - 1, pushed);
      TakeKeepsAccounts(TakeMany(q, n - 1), pushed);
    }
  }

  lemma {:induction false} DropKeepsAccounts(q: Queue, pushed: seq<Event>)
    requires Accounts(q, pushed)
    ensures Accounts(DropOldest(q), pushed) && |DropOldest(q).waiting| < QUEUE_BUFFER
  {
    if q.waiting != [] {
      var n := |pushed| - |q.waiting|;
      SkippedInOrder(q.taken, pushed[..n], q.waiting[0]);
      assert pushed[..n + 1] == pushed[..n] + [q.waiting[0]];
    }
  }

  lemma {:induction false} RoomForOne(q: Queue, ev: Event, pushed: seq<Event>)
    requires Accounts(q, pushed) && |q.waiting| < QUEUE_BUFFER
    ensures Accounts(q.(waiting := q.waiting + [ev]), pushed + [ev])
  {
    var n := |pushed| - |q.waiting|;
    assert (pushed + [ev])[n..] == pushed[n..] + [ev];
    assert (pushed + [ev])[..n] == pushed[..n];
  }

  /** Whatever the worker does meanwhile, an event that is pushed is kept: only older ones are dropped, and counted. */
  lemma {:induction false} PushKeepsAccounts(q: Queue, ev: Event, n: nat, m: nat, pushed: seq<Event>)
    requires Accounts(q, pushed)
    ensures var r := Push(q, ev, n, m);
      && Accounts(r, pushed + [ev]) && Newest(r, pushed + [ev])
      && r.waiting != [] && r.waiting[|r.waiting| - 1] == ev
  {
    hide TakeMany, DropOldest, Accounts;
    if |q.waiting| < QUEUE_BUFFER {
      RoomForOne(q, ev, pushed);
    } else {
      TakesKeepAccounts(q, n, pushed);
      var q1 := DropOldest(TakeMany(q, n));
      DropKeepsAccounts(TakeMany(q, n), pushed);
      TakesKeepAccounts(q1, m, pushed);
      RoomForOne(TakeMany(q1, m), ev, pushed);
    }
  }

  // ----- what a push drops -----

  function Fewer(a: nat, b: nat): nat { if a < b then a else b }

  lemma {:induction false} TakenMany(q: Queue, n: nat)
    ensures var k := Fewer(n, |q.waiting|);
      TakeMany(q, n) == Queue(q.waiting[k..], q.taken + q.waiting[..k], q.dropped)
  {
    if n == 0 {
      assert q.waiting[0..] == q.waiting && q.taken + q.waiting[..0] == q.taken;
    } else {
      TakenMany(q, n - 1);
      if n <= |q.waiting| {
        assert q.waiting[..n] == q.waiting[..n - 1] + [q.waiting[n - 1]];
        assert q.taken + q.waiting[..n] == q.taken + q.waiting[..n - 1] + [q.waiting[n - 1]];
      }
    }
  }

  /**
   A push into a queue with room loses nothing. Into a full one it loses the event that is
   the oldest when room is made, and only that; it loses none if the worker took all before.
   */
  lemma {:induction false} PushDropsOnlyWhenFull(q: Queue, ev: Event, n: nat, m: nat)
    requires |q.waiting| <= 512
    ensures var r := Push(q, ev, n, m);
      if |q.waiting| < 512 then r == q.(waiting := q.waiting + [ev])
      else if n >= 512 then r == Queue([ev], q.taken + q.waiting, q.dropped)
      else
        var k := n + 1 + Fewer(m, 511 - n);
        && r.dropped == q.dropped + 1
        && r.taken == q.taken + q.waiting[..n] + q.waiting[n + 1..k]
        && r.waiting == q.waiting[k..] + [ev]
  {
    if |q.waiting| == 512 {
      TakenMany(q, n);
      var d := DropOldest(TakeMany(q, n));
      TakenMany(d, m);
      hide TakeMany;
      if n < 512 {
        assert d.waiting == q.waiting[n + 1..];
        var k := Fewer(m, 511 - n);
        assert d.waiting[..k] == q.waiting[n + 1..n + 1 + k] && d.waiting[k..] == q.waiting[n + 1 + k..];
      } else {
        assert q.waiting[..512] == q.waiting && q.waiting[512..] == [];
        assert d.taken + d.waiting[..0] == d.taken && [] + [ev] == [ev];
      }
    }
  }
}
