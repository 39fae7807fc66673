/**
 The broker that asks the ad server for the pods of breaks in the background. Its entries
 are shared with the requests in flight, which may answer at any moment, also after their
 entry was given up or forgotten: an entry is a place in a list, a request knows its place.
 */
module AdBroker {
  import opened Common
  import opened Filler

  datatype PodState = Ready | Pending | Failed

  datatype PodEntry = PodEntry(items: seq<AdItem>, state: PodState)

  /** The answer to the request of an entry: a pod, or None when the request failed. */
  datatype Answer = Answer(entry: nat, items: Option<seq<AdItem>>)

  /** What happens around one question of the planner: whether a failed request is old enough to
      be repeated, and what arrives while the planner waits. */
  datatype Turn = Turn(retry: bool, answers: seq<Answer>)

  datatype Broker = Broker(pods: map<int, nat>, entries: seq<PodEntry>)

  const KEEP := 3600

  predicate Valid(b: Broker) {
    && (forall s <- b.pods :: b.pods[s] < |b.entries|)
    && (forall s, t :: s in b.pods && t in b.pods && s != t ==> b.pods[s] != b.pods[t])
  }

  function Ask(b: Broker, start: int, retry: bool): Broker
    requires Valid(b)
  {
    if start !in b.pods then Broker(b.pods[start := |b.entries|], b.entries + [PodEntry([], Pending)])
    else
      var k := b.pods[start];
      if b.entries[k].state == Failed && retry then b.(entries := b.entries[k := b.entries[k].(state := Pending)])
      else b
  }

  /** An answer is used only while its entry waits for it. */
  function Receive(b: Broker, a: Answer): Broker {
    if a.entry >= |b.entries| || b.entries[a.entry].state != Pending then b
    else if a.items.None? then b.(entries := b.entries[a.entry := b.entries[a.entry].(state := Failed)])
    else b.(entries := b.entries[a.entry := PodEntry(a.items.value, Ready)])
  }

  function ReceiveAll(b: Broker, answers: seq<Answer>): Broker {
    if answers == [] then b else Receive(ReceiveAll(b, answers[..|answers| - 1]), answers[|answers| - 1])
  }

  function GiveUp(b: Broker, start: int): Broker
    requires Valid(b)
  {
    if start !in b.pods then Broker(b.pods[start := |b.entries|], b.entries + [PodEntry([], Ready)])
    else b.(entries := b.entries[b.pods[start] := PodEntry([], Ready)])
  }

  function Evict(b: Broker, now: int): Broker { b.(pods := map s | s in b.pods && s >= now - KEEP :: b.pods[s]) }

  /** The pods that are decided. */
  function ReadyPods(b: Broker): map<int, seq<AdItem>>
    requires Valid(b)
  {
    map s | s in b.pods && b.entries[b.pods[s]].state == Ready :: b.entries[b.pods[s]].items
  }

  /** What was decided in b is so in c. */
  predicate Keeps(b: Broker, c: Broker)
    requires Valid(b) && Valid(c)
  {
    forall s <- ReadyPods(b) :: s in ReadyPods(c) && ReadyPods(c)[s] == ReadyPods(b)[s]
  }

  lemma {:induction false} AskKeeps(b: Broker, start: int, retry: bool)
    requires Valid(b)
    ensures Valid(Ask(b, start, retry)) && Keeps(b, Ask(b, start, retry)) && start in Ask(b, start, retry).pods
  {
  }

  lemma {:induction false} ReceiveKeeps(b: Broker, a: Answer)
    requires Valid(b)
    ensures Valid(Receive(b, a)) && Keeps(b, Receive(b, a)) && Receive(b, a).pods == b.pods
    ensures |Receive(b, a).entries| == |b.entries|
  {
  }

  lemma {:induction false} ReceiveAllKeeps(b: Broker, answers: seq<Answer>)
    requires Valid(b)
    ensures var c := ReceiveAll(b, answers);
      Valid(c) && Keeps(b, c) && c.pods == b.pods && |c.entries| == |b.entries|
    decreases |answers|
  {
    hide Receive;
    if answers != [] {
      ReceiveAllKeeps(b, answers[..|answers| - 1]);
      ReceiveKeeps(ReceiveAll(b, answers[..|answers| - 1]), answers[|answers| - 1]);
    }
  }

  lemma {:induction false} GivenUp(b: Broker, start: int, s: int)
    requires Valid(b) && start !in ReadyPods(b)
    ensures Valid(GiveUp(b, start))
    ensures s in ReadyPods(GiveUp(b, start)) <==> s == start || s in ReadyPods(b)
    ensures s in ReadyPods(GiveUp(b, start)) ==>
      ReadyPods(GiveUp(b, start))[s] == if s == start then [] else ReadyPods(b)[s]
  {
  }

  /** Giving up decides an undecided break for slate and touches no other. */
  lemma {:induction false} GiveUpKeeps(b: Broker, start: int)
    requires Valid(b) && start !in ReadyPods(b)
    ensures Valid(GiveUp(b, start)) && Keeps(b, GiveUp(b, start))
    ensures ReadyPods(GiveUp(b, start)) == ReadyPods(b)[start := []]
  {
    hide ReadyPods, GiveUp, Valid;
    GivenUp(b, start, start);
    forall s ensures (s in ReadyPods(GiveUp(b, start)) <==> s == start || s in ReadyPods(b)) {
      GivenUp(b, start, s);
    }
    forall s | s in ReadyPods(GiveUp(b, start))
      ensures ReadyPods(GiveUp(b, start))[s] == if s == start then [] else ReadyPods(b)[s]
    {
      GivenUp(b, start, s);
    }
  }

  lemma {:induction false} EvictKeeps(b: Broker, now: int)
    requires Valid(b)
    ensures Valid(Evict(b, now))
    ensures forall s :: s in ReadyPods(Evict(b, now)) <==> s in ReadyPods(b) && s >= now - KEEP
    ensures forall s :: s in ReadyPods(Evict(b, now)) ==> ReadyPods(Evict(b, now))[s] == ReadyPods(b)[s]
  {
  }

  lemma {:induction false} KeepsOn(a: Broker, b: Broker, c: Broker)
    requires Valid(a) && Valid(b) && Valid(c) && Keeps(a, b) && Keeps(b, c)
    ensures Keeps(a, c)
  {
  }

  // ----- one question -----

  /** The broker while the planner waits, until it looks at its entry again. */
  function Asked(b: Broker, start: int, turn: Turn): Broker
    requires Valid(b)
  {
    ReceiveAll(Ask(b, start, turn.retry), turn.answers)
  }

  lemma {:induction false} AskedKeeps(b: Broker, start: int, turn: Turn)
    requires Valid(b)
    ensures var c := Asked(b, start, turn);
      Valid(c) && Keeps(b, c) && start in c.pods && c.pods[start] < |c.entries|
  {
    hide Ask, ReceiveAll, ReadyPods;
    AskKeeps(b, start, turn.retry);
    ReceiveAllKeeps(Ask(b, start, turn.retry), turn.answers);
    KeepsOn(b, Ask(b, start, turn.retry), Asked(b, start, turn));
  }

  // ----- what an answer does -----

  /** The first answer to a request, if it arrives. */
  function FirstAnswer(answers: seq<Answer>, k: nat): Option<Option<seq<AdItem>>> {
    if answers == [] then None
    else
      var n := |answers| - 1;
      var first := FirstAnswer(answers[..n], k);
      if first.None? && answers[n].entry == k then Some(answers[n].items) else first
  }

  lemma {:induction false} ReceivedIs(b: Broker, answers: seq<Answer>, k: nat)
    requires k < |b.entries|
    ensures |ReceiveAll(b, answers).entries| == |b.entries|
    ensures var (en, r) := (b.entries[k], ReceiveAll(b, answers).entries[k]);
      if en.state != Pending then r == en
      else
        match FirstAnswer(answers, k)
        case None => r == en
        case Some(None) => r == PodEntry(en.items, Failed)
        case Some(Some(pod)) => r == PodEntry(pod, Ready)
    decreases |answers|
  {
    if answers != [] {
      ReceivedIs(b, answers[..|answers| - 1], k);
    }
  }

  /** The break waits for its pod: it is new, its request is on the way, or it failed and is repeated. */
  predicate Waits(b: Broker, start: int, retry: bool)
    requires Valid(b)
  {
    start in b.pods ==>
      var state := b.entries[b.pods[start]].state; state == Pending || (state == Failed && retry)
  }

  /**
   A break that waits for its pod becomes ready with the first pod that arrives, fails with the
   first request that fails, and goes on waiting otherwise. A decided pod and a failure
   that is too young to be repeated stay, whatever arrives.
   */
  lemma {:induction false} FirstAnswerDecides(b: Broker, start: int, turn: Turn)
    requires Valid(b)
    ensures var k := if start in b.pods then b.pods[start] else |b.entries|;
      var c := Asked(b, start, turn);
      && start in c.pods && c.pods[start] == k < |c.entries|
      && if Waits(b, start, turn.retry) then (
           match FirstAnswer(turn.answers, k)
           case None => c.entries[k].state == Pending
           case Some(None) => c.entries[k].state == Failed
           case Some(Some(pod)) => c.entries[k] == PodEntry(pod, Ready)
         ) else c.entries[k] == b.entries[k] && (c.entries[k].state == Ready || c.entries[k].state == Failed)
  {
    AskedKeeps(b, start, turn);
    ReceiveAllKeeps(Ask(b, start, turn.retry), turn.answers);
    var k := if start in b.pods then b.pods[start] else |b.entries|;
    ReceivedIs(Ask(b, start, turn.retry), turn.answers, k);
    hide ReceiveAll, FirstAnswer, Keeps;
  }

  // ----- the object -----

  class Pods {
    var pods: map<int, nat>
    var entries: seq<PodEntry>

    ghost function Value(): Broker
      reads this
    {
      Broker(pods, entries)
    }

    constructor ()
      ensures Value() == Broker(map[], []) && Valid(Value())
    {
      pods, entries := map[], [];
    }

    /** A request that is over. */
    method Answered(a: Answer)
      modifies `entries
      ensures Value() == Receive(old(Value()), a)
    {
      if a.entry < |entries| && entries[a.entry].state == Pending {
        if a.items.None? {
          entries := entries[a.entry := entries[a.entry].(state := Failed)];
        } else {
          entries := entries[a.entry := PodEntry(a.items.value, Ready)];
        }
      }
    }

    /** The pod of a break, and its state after the answers that arrived meanwhile. */
    method Pod(start: int, turn: Turn) returns (en: PodEntry)
      requires Valid(Value())
      modifies this
      ensures Valid(Value()) && Value() == Asked(old(Value()), start, turn)
      ensures start in pods && en == entries[pods[start]]
    {
      AskedKeeps(Value(), start, turn);
      ghost var before := Value();
      var k;
      if start !in pods {
        k := |entries|;
        entries := entries + [PodEntry([], Pending)];
        pods := pods[start := k];
      } else {
        k := pods[start];
        if entries[k].state == Failed && turn.retry { entries := entries[k := entries[k].(state := Pending)]; }
      }
      ghost var asked := Value();
      assert asked == Ask(before, start, turn.retry);
      AskKeeps(before, start, turn.retry);
      var i := 0;
      while i < |turn.answers|
        invariant i <= |turn.answers|
        invariant pods == asked.pods && |entries| == |asked.entries|
        invariant Value() == ReceiveAll(asked, turn.answers[..i])
      {
        assert turn.answers[..i + 1][..i] == turn.answers[..i];
        Answered(turn.answers[i]);
        i := i + 1;
      }
      assert turn.answers[..i] == turn.answers;
      return entries[k];
    }

    method Abandon(start: int)
      requires Valid(Value())
      modifies this
      ensures Value() == GiveUp(old(Value()), start)
    {
      if start !in pods {
        entries := entries + [PodEntry([], Ready)];
        pods := pods[start := |entries| - 1];
      } else {
        entries := entries[pods[start] := PodEntry([], Ready)];
      }
    }

    method Forget(now: int)
      modifies `pods
      ensures Value() == Evict(old(Value()), now)
    {
      pods := map s | s in pods && s >= now - KEEP :: pods[s];
    }
  }
}
