/**
 A run in which the sender misses an event: a burst fills its subscription, it is cut off,
 and before it subscribes again the ring of the hub has turned over.
 */
module LostEvent {
  import opened Events
  import opened Webhooks

  const BUS := Bus([], 1, 1, [])

  /** n publications and then k reads. */
  function Steps(n: nat, k: nat): seq<Step> {
    if k > 0 then Steps(n, k - 1) + [Receive([])]
    else if n > 0 then Steps(n - 1, 0) + [Publish("burst")]
    else []
  }

  function Start(): World { Started(BUS, [], 1) }

  lemma {:induction false} OneMore(w: World, steps: seq<Step>, step: Step)
    ensures Run(w, steps + [step]) == Do(Run(w, steps), step)
  {
    hide Do;
    assert (steps + [step])[..|steps|] == steps;
  }

  /** The world after n publications and k reads: what the subscription holds and what was handed on. */
  predicate Burst(w: World, n: nat, k: nat) {
    && Good(w) && w.bus.cap == 1 && w.bus.nextId == n + 1 && w.resubs == [Resub(0, 1, 1)]
    && w.sender.sub == 0 && |w.bus.subs| == 1 && w.sender.replay == [] && w.sender.last == k == |w.pushed|
    && |Channel(w).buffer| == (if n <= SUB_BUFFER then n else SUB_BUFFER) - k
    && (Channel(w).closed <==> n > SUB_BUFFER)
  }

  lemma {:induction false} StartOfBurst()
    ensures Burst(Start(), 0, 0)
  {
    StartIsGood(BUS, [], 1);
    hide Good;
    assert Newer([], 0) == [];
  }

  lemma {:induction false} PublishInBurst(w: World, n: nat)
    requires Burst(w, n, 0)
    ensures Burst(Do(w, Publish("burst")), n + 1, 0)
  {
    PublishIsGood(w, "burst");
    hide Good, Latest;
  }

  lemma {:induction false} ReadInBurst(w: World, n: nat, k: nat)
    requires Burst(w, n, k) && k < n && k < SUB_BUFFER
    ensures Burst(Do(w, Receive([])), n, k + 1)
  {
    ReceiveIsGood(w, []);
    assert w.sender.replay + Channel(w).buffer == Channel(w).buffer;
    assert Channel(w).buffer[0].id == k + 1;
    hide Good, PushAll;
  }

  lemma {:induction false} Reached(n: nat, k: nat)
    requires k <= n && k <= SUB_BUFFER
    ensures Burst(Run(Start(), Steps(n, k)), n, k)
    decreases n + k
  {
    hide Burst, Do, Start, Run;
    if k > 0 {
      Reached(n, k - 1);
      OneMore(Start(), Steps(n, k - 1), Receive([]));
      ReadInBurst(Run(Start(), Steps(n, k - 1)), n, k - 1);
    } else if n > 0 {
      Reached(n - 1, 0);
      OneMore(Start(), Steps(n - 1, 0), Publish("burst"));
      PublishInBurst(Run(Start(), Steps(n - 1, 0)), n - 1);
    } else {
      StartOfBurst();
      NoSteps(Start());
    }
  }

  lemma {:induction false} NoSteps(w: World)
    ensures Run(w, []) == w
  {
  }

  /** A burst of 257 events, all that the subscription holds is read, and one event more. */
  function CutOff(): World { Do(Run(Start(), Steps(SUB_BUFFER + 1, SUB_BUFFER)), Publish("late")) }

  /** After a late subscription the sender goes on with the oldest event of the ring. */
  lemma {:induction false} GoesOnWithOldest(w: World)
    requires Good(w) && w.sender.replay == [] && Channel(w).buffer == [] && Channel(w).closed
    requires w.bus.ring != [] && Oldest(w.bus) > w.sender.last + 1
    ensures Do(Do(w, Resubscribe), Replay([])).sender.last == Oldest(w.bus)
  {
    hide Handed, Booked, Streams, PushAll, Newer;
    NewerIsSuffix(w.bus.ring, Oldest(w.bus), w.sender.last);
    assert w.bus.ring[0..] == w.bus.ring;
  }

  lemma {:induction false} RingTurnsOver(v: World, n: nat, k: nat)
    requires Burst(v, n, k) && n > SUB_BUFFER && k == SUB_BUFFER
    ensures var w := Do(v, Publish("late"));
      && Good(w) && w.sender.replay == [] && Channel(w).buffer == [] && Channel(w).closed
      && w.sender.last == k && w.bus.ring != [] && Oldest(w.bus) == n + 1
  {
    PublishIsGood(v, "late");
    hide Streams, Handed, Booked;
  }

  /** The sender has handed on event 256, the ring starts at 258, and 258 is what it hands on next. */
  lemma {:induction false} EventIsLost()
    ensures var w := CutOff();
      && Good(w) && w.sender.replay == [] && Channel(w).buffer == [] && Channel(w).closed
      && w.sender.last == 256 && Oldest(w.bus) == 258
      && Do(Do(w, Resubscribe), Replay([])).sender.last == 258
  {
    hide Start, Steps, Run, Burst, Good, Do, Channel;
    Reached(SUB_BUFFER + 1, SUB_BUFFER);
    RingTurnsOver(Run(Start(), Steps(SUB_BUFFER + 1, SUB_BUFFER)), SUB_BUFFER + 1, SUB_BUFFER);
    GoesOnWithOldest(CutOff());
  }
}
