/**
 How often an event is delivered under one idempotency key. The key prevents a second row
 and not a second message, so the count goes by the answers given and the replays, and the
 worker can deliver every message it has not given up.
 */
module Duplicates {
  import opened Prelude
  import opened EventStore
  import opened Pipeline
  import opened Overlap
  import opened Draining

  /** The message carries an event under the key. */
  predicate Under(b: Broker, n: Serial, key: string) {
    CarriesEvent(b, n) && EffectiveKey(b.bodies[n].event) == key
  }

  ghost function MessagesUnder(b: Broker, key: string): set<Serial> {
    set n | n in b.bodies && Under(b, n, key)
  }

  // ---- Messages are counted by answers and replays ---------------------------------------------

  /** The move answers a request under the key with 202. */
  predicate Accepts(s: Sys, m: Move, key: string) {
    m.Publish? && m.up && Can(s, m) && EffectiveKey(s.front.ingests[m.h].event) == key
  }

  /** The move publishes an event under the key again. */
  predicate Repeats(s: Sys, m: Move, key: string) {
    m.ReplayPublish? && m.up && Can(s, m) && EffectiveKey(s.front.replays[m.k].current.value) == key
  }

  /** The number of 202 answers given in the run for requests under the key. */
  function Accepted(moves: seq<Move>, key: string): nat {
    if moves == [] then 0
    else
      var before, m := moves[..|moves| - 1], moves[|moves| - 1];
      Accepted(before, key) + if Accepts(Execute(before), m, key) then 1 else 0
  }

  /** The number of times a replay published an event under the key. */
  function Repeated(moves: seq<Move>, key: string): nat {
    if moves == [] then 0
    else
      var before, m := moves[..|moves| - 1], moves[|moves| - 1];
      Repeated(before, key) + if Repeats(Execute(before), m, key) then 1 else 0
  }

  lemma EnqueueAddsMessage(b: Broker, n: Serial, e: Event, key: string)
    requires n !in b.bodies
    ensures |MessagesUnder(Enqueue(b, n, Webhook(e)), key)| == |MessagesUnder(b, key)| + if EffectiveKey(e) == key then 1 else 0
  {
    var b' := Enqueue(b, n, Webhook(e));
    var added := if EffectiveKey(e) == key then {n} else {};
    forall m
      ensures m in MessagesUnder(b', key) <==> m in MessagesUnder(b, key) || m in added
    {
      EnqueueKeepsOthers(b, n, e, m);
    }
    assert MessagesUnder(b', key) == MessagesUnder(b, key) + added;
    assert n !in MessagesUnder(b, key);
  }

  lemma EnqueueKeepsOthers(b: Broker, n: Serial, e: Event, m: Serial)
    ensures var b' := Enqueue(b, n, Webhook(e));
            if m == n then m in b'.bodies && b'.bodies[m] == Webhook(e)
            else (m in b'.bodies <==> m in b.bodies) && (m in b.bodies ==> b'.bodies[m] == b.bodies[m])
  {
  }

  /** Moves that publish no event leave the messages under a key alone. */
  lemma OthersAddNoMessage(s: Sys, m: Move, key: string)
    requires !(Can(s, m) && (m.Publish? || m.ReplayPublish?) && m.up)
    ensures MessagesUnder(Do(s, m).broker, key) == MessagesUnder(s.broker, key)
  {
    var b, b' := s.broker, Do(s, m).broker;
    assert forall n :: Under(b', n, key) <==> Under(b, n, key);
  }

  lemma MoveAddsMessage(s: Sys, m: Move, key: string)
    ensures |MessagesUnder(Do(s, m).broker, key)|
         == |MessagesUnder(s.broker, key)| + (if Accepts(s, m, key) then 1 else 0) + (if Repeats(s, m, key) then 1 else 0)
  {
    if Can(s, m) && m.Publish? && m.up {
      EnqueueAddsMessage(s.broker, m.n, s.front.ingests[m.h].event, key);
    } else if Can(s, m) && m.ReplayPublish? && m.up {
      EnqueueAddsMessage(s.broker, m.n, s.front.replays[m.k].current.value, key);
    } else {
      OthersAddNoMessage(s, m, key);
    }
  }

  /** In every run the messages under a key number exactly its 202 answers and its replays. */
  lemma {:induction false} MessagesAreCounted(moves: seq<Move>, key: string)
    ensures |MessagesUnder(Execute(moves).broker, key)| == Accepted(moves, key) + Repeated(moves, key)
  {
    if moves == [] {
      assert MessagesUnder(INITIAL.broker, key) == {};
    } else {
      MessagesAreCounted(moves[..|moves| - 1], key);
      MoveAddsMessage(Execute(moves[..|moves| - 1]), moves[|moves| - 1], key);
    }
  }

  // ---- Which of them can be delivered ---------------------------------------------------------------

  /** Messages under the key that got a 2xx. */
  ghost function DeliveredUnder(b: Broker, key: string): set<Serial> {
    set n | n in b.bodies && Under(b, n, key) && n in b.answered
  }

  /** Messages under the key that got a 2xx or may still get one. */
  ghost function Deliverable(b: Broker, key: string): set<Serial> {
    set n | n in b.bodies && Under(b, n, key) && (n in b.answered || Open(b, n))
  }

  ghost predicate NoPublish(moves: seq<Move>) {
    forall m <- moves :: !m.Publish? && !m.ReplayPublish?
  }

  lemma MoveAddsNoDeliverable(s: Sys, m: Move, key: string)
    requires BrokerOk(s.broker) && !m.Publish? && !m.ReplayPublish?
    ensures Deliverable(Do(s, m).broker, key) <= Deliverable(s.broker, key)
  {
    var b, b' := s.broker, Do(s, m).broker;
    forall n | n in Deliverable(b', key)
      ensures n in Deliverable(b, key)
    {
      NoneReopens(s, m, n);
    }
  }

  /** No move but a publish gives a message its chance back. */
  lemma NoneReopens(s: Sys, m: Move, n: Serial)
    requires BrokerOk(s.broker) && !m.Publish? && !m.ReplayPublish? && CarriesEvent(Do(s, m).broker, n)
    ensures CarriesEvent(s.broker, n) && Do(s, m).broker.bodies[n] == s.broker.bodies[n]
    ensures n in Do(s, m).broker.answered || Open(Do(s, m).broker, n) ==> n in s.broker.answered || Open(s.broker, n)
  {
  }

  lemma {:induction false} DeliverableStays(s: Sys, more: seq<Move>, key: string)
    requires Ready(s) && NoPublish(more)
    ensures Deliverable(Continue(s, more).broker, key) <= Deliverable(s.broker, key)
    decreases |more|
  {
    if more != [] {
      var shorter, m := more[..|more| - 1], more[|more| - 1];
      DeliverableStays(s, shorter, key);
      ContinueKeepsReady(s, shorter);
      assert m in more;
      MoveAddsNoDeliverable(Continue(s, shorter), m, key);
    }
  }

  /** Bodies stay, answers stay, and whatever was open is open or answered. */
  ghost predicate NothingGivenUp(b: Broker, b': Broker) {
    && b'.bodies == b.bodies && b.answered <= b'.answered
    && forall n :: Open(b, n) && CarriesEvent(b, n) ==> Open(b', n) || n in b'.answered
  }

  lemma DeliverableKept(b: Broker, b': Broker, key: string)
    requires NothingGivenUp(b, b')
    ensures Deliverable(b, key) <= Deliverable(b', key) && DeliveredUnder(b, key) <= DeliveredUnder(b', key)
  {
    assert forall n :: Under(b', n, key) <==> Under(b, n, key);
  }

  lemma FreedGivesNothingUp(s: Sys, s': Sys, x: Serial)
    requires BrokerOk(s.broker) && x in s.broker.inflight && Freed(s, s', x)
    ensures NothingGivenUp(s.broker, s'.broker)
  {
    forall n | Open(s.broker, n) && CarriesEvent(s.broker, n)
      ensures Open(s'.broker, n) || n in s'.broker.answered
    {
      if n != x {
        assert n in s.broker.inflight ==> n in s'.broker.inflight && s'.broker.inflight[n] == s.broker.inflight[n];
      }
    }
  }

  /** A message that may still be delivered can be, without giving any other up. */
  lemma DeliverOne(s: Sys, n: Serial) returns (more: seq<Move>)
    requires Ready(s) && Open(s.broker, n) && CarriesEvent(s.broker, n)
    ensures WorkerOnly(more) && NothingGivenUp(s.broker, Continue(s, more).broker) && n in Continue(s, more).broker.answered
  {
    if n in s.broker.inflight {
      more := SettleOne(s, n);
      FreedGivesNothingUp(s, Continue(s, more), n);
    } else {
      var take := TakeOne(s, n);
      var s1 := Continue(s, take);
      ContinueKeepsReady(s, take);
      var rest := SettleOne(s1, n);
      FreedGivesNothingUp(s1, Continue(s1, rest), n);
      ContinueTwice(s, take, rest);
      more := take + rest;
      NothingGivenUpTwice(s.broker, s1.broker, Continue(s, more).broker);
    }
  }

  lemma NothingGivenUpTwice(a: Broker, b: Broker, c: Broker)
    requires NothingGivenUp(a, b) && NothingGivenUp(b, c)
    ensures NothingGivenUp(a, c)
  {
    forall n | Open(a, n) && CarriesEvent(a, n)
      ensures Open(c, n) || n in c.answered
    {
      assert Open(b, n) || n in b.answered;
    }
  }

  /** All messages under a key that may still be delivered can all be. */
  lemma {:induction false} DeliverAll(s: Sys, key: string) returns (more: seq<Move>)
    requires Ready(s)
    ensures WorkerOnly(more) && Deliverable(s.broker, key) <= DeliveredUnder(Continue(s, more).broker, key)
    decreases |Deliverable(s.broker, key) - DeliveredUnder(s.broker, key)|
  {
    var left := Deliverable(s.broker, key) - DeliveredUnder(s.broker, key);
    if left == {} {
      more := [];
    } else {
      var n :| n in left;
      var first := DeliverOne(s, n);
      var s1 := Continue(s, first);
      ContinueKeepsReady(s, first);
      WorkerPublishesNothing(first);
      DeliverableStays(s, first, key);
      DeliverableKept(s.broker, s1.broker, key);
      assert Under(s1.broker, n, key) && n in DeliveredUnder(s1.broker, key);
      FewerLeft(left, Deliverable(s1.broker, key) - DeliveredUnder(s1.broker, key), n);
      var rest := DeliverAll(s1, key);
      ContinueTwice(s, first, rest);
      more := first + rest;
    }
  }

  lemma FewerLeft(left: set<Serial>, left': set<Serial>, n: Serial)
    requires left' <= left && n in left && n !in left'
    ensures |left'| < |left|
  {
    SubsetSize(left', left - {n});
  }

  lemma WorkerPublishesNothing(moves: seq<Move>)
    requires WorkerOnly(moves)
    ensures NoPublish(moves)
  {
  }

  /** After some more moves that publish nothing, at most `n` messages under the key have been delivered. */
  ghost predicate DeliveredAtMost(moves: seq<Move>, more: seq<Move>, key: string, n: nat) {
    NoPublish(more) ==> |DeliveredUnder(Execute(moves + more).broker, key)| <= n
  }

  /**
   Whatever the worker does from here, at most `n` messages under the key get a 2xx, if and only
   if at most `n` have got one or may still get one.
   */
  lemma DeliveredAtMostIff(moves: seq<Move>, key: string, n: nat)
    ensures (forall more :: DeliveredAtMost(moves, more, key, n)) <==> |Deliverable(Execute(moves).broker, key)| <= n
  {
    var s := Execute(moves);
    ReachableReady(moves);
    if |Deliverable(s.broker, key)| <= n {
      forall more
        ensures DeliveredAtMost(moves, more, key, n)
      {
        if NoPublish(more) {
          DeliverableStays(s, more, key);
          ContinueIsExecute(moves, more);
          SubsetSize(DeliveredUnder(Execute(moves + more).broker, key), Deliverable(s.broker, key));
        }
      }
    } else {
      var more := DeliverAll(s, key);
      WorkerPublishesNothing(more);
      ContinueIsExecute(moves, more);
      SubsetSize(Deliverable(s.broker, key), DeliveredUnder(Execute(moves + more).broker, key));
      assert !DeliveredAtMost(moves, more, key, n);
    }
  }

  /** No message under the key has been given up. */
  ghost predicate NoneGivenUp(b: Broker, key: string) {
    forall n :: n in b.bodies && Under(b, n, key) ==> n in b.answered || Open(b, n)
  }

  /**
   As long as no message under the key has been given up, it is delivered at most `n` times
   whatever the worker does, if and only if it was accepted and replayed at most `n` times. With
   `n` one: delivery is at most once exactly when the key is accepted and replayed at most once.
   */
  lemma AtMostOnceIffAcceptedOnce(moves: seq<Move>, key: string, n: nat)
    requires NoneGivenUp(Execute(moves).broker, key)
    ensures (forall more :: DeliveredAtMost(moves, more, key, n)) <==> Accepted(moves, key) + Repeated(moves, key) <= n
  {
    DeliveredAtMostIff(moves, key, n);
    MessagesAreCounted(moves, key);
    assert Deliverable(Execute(moves).broker, key) == MessagesUnder(Execute(moves).broker, key);
  }

  /** In any case a key is delivered no more often than it was accepted and replayed. */
  lemma DeliveriesAreAccepted(moves: seq<Move>, key: string)
    ensures |DeliveredUnder(Execute(moves).broker, key)| <= Accepted(moves, key) + Repeated(moves, key)
  {
    MessagesAreCounted(moves, key);
    SubsetSize(DeliveredUnder(Execute(moves).broker, key), MessagesUnder(Execute(moves).broker, key));
  }

  // ---- A duplicate request ---------------------------------------------------------------------------

  lemma MoveKeepsIngest(s: Sys, m: Move, h: Handler)
    requires h in s.front.ingests && !(m.Publish? && m.h == h)
    ensures h in Do(s, m).front.ingests && Do(s, m).front.ingests[h] == s.front.ingests[h]
  {
  }

  lemma {:induction false} IngestStays(s: Sys, more: seq<Move>, h: Handler)
    requires h in s.front.ingests && forall m <- more :: !(m.Publish? && m.h == h)
    ensures h in Continue(s, more).front.ingests && Continue(s, more).front.ingests[h] == s.front.ingests[h]
    decreases |more|
  {
    if more != [] {
      var shorter, m := more[..|more| - 1], more[|more| - 1];
      IngestStays(s, shorter, h);
      assert m in more;
      MoveKeepsIngest(Continue(s, shorter), m, h);
    }
  }

  /**
   Delivery is not deduplicated: in every run, whatever happens between the save and the publish
   of a request, its event is answered 202 and goes to the queue, whether or not its key was
   already stored; only whether it gets a row depends on that.
   */
  lemma DuplicateIsStillQueued(moves: seq<Move>, h: Handler, e: Event, between: seq<Move>, n: Serial)
    requires Can(Execute(moves), Save(h, e)) && forall m <- between :: !(m.Publish? && m.h == h)
    requires n !in Execute(moves + [Save(h, e)] + between).broker.bodies
    ensures var s := Execute(moves + [Save(h, e)] + between + [Publish(h, n, true)]);
            && EffectiveKey(e) in s.front.accepted
            && n in s.broker.queued && n in s.broker.bodies && s.broker.bodies[n] == Webhook(e)
            && (e.id in s.ledger.rows <==> !KeyTaken(Execute(moves).ledger.rows, EffectiveKey(e)))
  {
    var saved := moves + [Save(h, e)];
    ExecuteOneMore(moves, Save(h, e));
    var s1 := Execute(saved);
    assert s1 == DoSave(Execute(moves), h, e);
    assert s1.front.ingests[h] == Ingest(e, !KeyTaken(Execute(moves).ledger.rows, EffectiveKey(e)));
    IngestStays(s1, between, h);
    ContinueIsExecute(saved, between);
    ReachableConsistent(saved + between);
    var s2 := Execute(saved + between);
    assert IngestKnown(s2.ledger, s2.front.ingests[h]);
    ExecuteOneMore(saved + between, Publish(h, n, true));
    assert Do(s2, Publish(h, n, true)) == DoPublish(s2, h, n, true);
  }

  // ---- One key, two deliveries, in the concrete ---------------------------------------------------------

  const FIRST: Event := Event("a", "key", "url", "payload", "same")
  const SECOND: Event := Event("b", "key", "url", "payload", "same")

  /** Two requests under one key are accepted. */
  const ACCEPTED: seq<Move> := [] + [Save(0, FIRST)] + [Publish(0, 0, true)] + [Save(1, SECOND)] + [Publish(1, 1, true)]

  const WAITING: Sys :=
    Sys(Ledger(map["a" := Row("same", "key", "url", "payload", Pending, None)], {"a", "b"}, map["a" := ByMessage(0)], 0, 0),
        Broker(map[0 := Webhook(FIRST), 1 := Webhook(SECOND)], {0, 1}, map[], {}, {}, {}),
        Front(map[], map[], {"same"}))

  lemma FirstIsStored()
    ensures Do(Do(INITIAL, Save(0, FIRST)), Publish(0, 0, true))
         == WAITING.(ledger := WAITING.ledger.(used := {"a"}), broker := Broker(map[0 := Webhook(FIRST)], {0}, map[], {}, {}, {}))
  {
    var s := Do(INITIAL, Save(0, FIRST));
    assert !KeyTaken(INITIAL.ledger.rows, "same");
    assert s == DoSave(INITIAL, 0, FIRST);
    assert s.front.ingests == map[0 := Ingest(FIRST, true)];
    assert Do(s, Publish(0, 0, true)) == DoPublish(s, 0, 0, true);
  }

  lemma SecondIsNot(s: Sys)
    requires s == WAITING.(ledger := WAITING.ledger.(used := {"a"}), broker := Broker(map[0 := Webhook(FIRST)], {0}, map[], {}, {}, {}))
    ensures Do(Do(s, Save(1, SECOND)), Publish(1, 1, true)) == WAITING
  {
    assert s.ledger.rows["a"].idempotencyKey == "same";
    assert KeyTaken(s.ledger.rows, "same");
    var s1 := Do(s, Save(1, SECOND));
    assert s1 == DoSave(s, 1, SECOND);
    assert s1.front.ingests == map[1 := Ingest(SECOND, false)];
    assert Do(s1, Publish(1, 1, true)) == DoPublish(s1, 1, 1, true);
  }

  lemma BothAreAccepted()
    ensures Execute(ACCEPTED) == WAITING
  {
    ExecuteTwoMore([], Save(0, FIRST), Publish(0, 0, true));
    FirstIsStored();
    ExecuteTwoMore([] + [Save(0, FIRST)] + [Publish(0, 0, true)], Save(1, SECOND), Publish(1, 1, true));
    SecondIsNot(Execute([] + [Save(0, FIRST)] + [Publish(0, 0, true)]));
  }

  /** A message taken, delivered with a 2xx and acknowledged. */
  ghost predicate Handled(s: Sys, s': Sys, n: Serial) {
    && s'.broker == s.broker.(queued := s.broker.queued - {n}, acked := s.broker.acked + {n}, answered := s.broker.answered + {n})
    && s'.ledger.rows.Keys == s.ledger.rows.Keys && s'.front == s.front
  }

  lemma DeliverWriteSettle(s: Sys, n: Serial)
    requires InPhase(s.broker, n, Granted) && CarriesEvent(s.broker, n)
    ensures var s' := Do(Do(Do(s, Deliver(n, true)), Write(n, true, "")), Settle(n));
            && s'.broker == s.broker.(inflight := s.broker.inflight - {n}, acked := s.broker.acked + {n}, answered := s.broker.answered + {n})
            && s'.ledger.rows.Keys == s.ledger.rows.Keys && s'.front == s.front
  {
    var decided := s.(broker := Answer(s.broker, n, true));
    assert Do(s, Deliver(n, true)) == decided;
    var written := DoWrite(decided, n, true, "");
    assert Do(decided, Write(n, true, "")) == written;
    assert written.broker == Advance(decided.broker, n, Written(true));
    assert written.broker.inflight - {n} == s.broker.inflight - {n};
  }

  lemma HandleOne(moves: seq<Move>, n: Serial)
    requires var s := Execute(moves); n in s.broker.queued && s.broker.inflight == map[] && CarriesEvent(s.broker, n)
    ensures Handled(Execute(moves), Execute(moves + [Take(n)] + [Gate(n, true)] + [Deliver(n, true)] + [Write(n, true, "")] + [Settle(n)]), n)
  {
    var s := Execute(moves);
    ExecuteFourMore(moves, Take(n), Gate(n, true), Deliver(n, true), Write(n, true, ""));
    ExecuteOneMore(moves + [Take(n)] + [Gate(n, true)] + [Deliver(n, true)] + [Write(n, true, "")], Settle(n));
    TakeAndGate(s, n, true);
    DeliverWriteSettle(Gated(s, n, true), n);
    assert Gated(s, n, true).broker.inflight - {n} == map[];
  }

  const TWICE: seq<Move> :=
    (ACCEPTED + [Take(0)] + [Gate(0, true)] + [Deliver(0, true)] + [Write(0, true, "")] + [Settle(0)])
    + [Take(1)] + [Gate(1, true)] + [Deliver(1, true)] + [Write(1, true, "")] + [Settle(1)]

  lemma {:induction false} NoReplayNoRepeat(moves: seq<Move>, key: string)
    requires forall m <- moves :: !m.ReplayPublish?
    ensures Repeated(moves, key) == 0
  {
    if moves != [] {
      assert moves[|moves| - 1] in moves;
      NoReplayNoRepeat(moves[..|moves| - 1], key);
    }
  }

  /** One key accepted twice: one row, and both messages delivered with a 2xx and acknowledged. */
  lemma OneKeyDeliveredTwice()
    ensures var s := Execute(TWICE);
            && Accepted(TWICE, "same") == 2 && Repeated(TWICE, "same") == 0
            && s.ledger.rows.Keys == {"a"}
            && DeliveredUnder(s.broker, "same") == {0, 1} && s.broker.acked == {0, 1}
  {
    BothAreHandled();
    BothAreUnderKey(Execute(TWICE).broker);
    MessagesAreCounted(TWICE, "same");
    NoReplayNoRepeat(TWICE, "same");
  }

  lemma BothAreHandled()
    ensures Execute(TWICE).broker == WAITING.broker.(queued := {}, acked := {0, 1}, answered := {0, 1})
    ensures Execute(TWICE).ledger.rows.Keys == {"a"}
  {
    var once := ACCEPTED + [Take(0)] + [Gate(0, true)] + [Deliver(0, true)] + [Write(0, true, "")] + [Settle(0)];
    BothAreAccepted();
    HandleOne(ACCEPTED, 0);
    var b := Execute(once).broker;
    assert b.queued == {1} && b.acked == {0} && b.answered == {0};
    HandleOne(once, 1);
  }

  lemma BothAreUnderKey(b: Broker)
    requires b == WAITING.broker.(queued := {}, acked := {0, 1}, answered := {0, 1})
    ensures MessagesUnder(b, "same") == {0, 1} == DeliveredUnder(b, "same")
  {
    assert Under(b, 0, "same") && Under(b, 1, "same");
  }
}
