/**
 What can always happen next: from every reachable state of the pipeline the worker can
 settle any delivery it has in hand and take any message that is queued. The exact
 conditions in `RowFate` and `Duplicates` build their continuations from these.
 */
module Draining {
  import opened Prelude
  import opened EventStore
  import opened Pipeline
  import opened Overlap

  /** A delivery that has got past the malformed-body check carries an event. */
  ghost predicate EventsInHand(b: Broker) {
    forall n :: n in b.inflight && !b.inflight[n].Taken? ==> CarriesEvent(b, n)
  }

  /** What every reachable state has. */
  ghost predicate Ready(s: Sys) {
    Consistent(s) && BrokerOk(s.broker) && TakenOff(s.front) && EventsInHand(s.broker)
  }

  lemma MoveKeepsInHand(s: Sys, m: Move)
    requires EventsInHand(s.broker) && BrokerOk(s.broker)
    ensures EventsInHand(Do(s, m).broker)
  {
  }

  lemma MoveKeepsReady(s: Sys, m: Move)
    requires Ready(s)
    ensures Ready(Do(s, m))
  {
    MoveKeepsConsistent(s, m);
    MoveKeepsBroker(s, m);
    MoveKeepsTakenOff(s, m);
    MoveKeepsInHand(s, m);
  }

  lemma {:induction false} ReachableReady(moves: seq<Move>)
    ensures Ready(Execute(moves))
  {
    if moves != [] {
      ReachableReady(moves[..|moves| - 1]);
      MoveKeepsReady(Execute(moves[..|moves| - 1]), moves[|moves| - 1]);
    }
  }

  /** The first of some more moves. */
  lemma ContinueFirst(s: Sys, m: Move, more: seq<Move>)
    ensures Continue(s, [m] + more) == Continue(Do(s, m), more)
  {
    ContinueTwice(s, [m], more);
    ContinueOneMore(s, [], m);
    assert [] + [m] == [m];
  }

  /** A number larger than all of these. */
  lemma {:induction false} LargerNumber(ns: set<nat>) returns (n: nat)
    ensures forall x <- ns :: x < n
    decreases |ns|
  {
    if ns == {} {
      n := 0;
    } else {
      var x :| x in ns;
      var m := LargerNumber(ns - {x});
      n := if m > x then m else x + 1;
      assert forall y <- ns :: y == x || y in ns - {x};
    }
  }

  lemma NewSerial(b: Broker) returns (n: Serial)
    ensures n !in b.bodies
  {
    n := LargerNumber(b.bodies.Keys);
    assert n !in b.bodies.Keys;
  }

  /** Nothing but the worker moves. */
  ghost predicate WorkerOnly(moves: seq<Move>) {
    forall m <- moves :: m.Take? || m.Reject? || m.Gate? || m.Deliver? || m.Write? || m.Settle?
  }

  // ---- Settling a delivery in hand ------------------------------------------------------------

  /** Delivery `x` has been settled, with a 2xx if it was not decided yet, and its status not written. */
  ghost predicate Freed(s: Sys, s': Sys, x: Serial) {
    && s'.ledger.rows == s.ledger.rows && s'.front == s.front
    && s'.broker.bodies == s.broker.bodies && s'.broker.queued == s.broker.queued
    && s'.broker.inflight == s.broker.inflight - {x}
    && s.broker.answered <= s'.broker.answered <= s.broker.answered + {x}
    && (Open(s.broker, x) && CarriesEvent(s.broker, x) ==> x in s'.broker.answered)
  }

  /** Whether the delivery gets a 2xx is still to be seen. */
  predicate Open(b: Broker, n: Serial) {
    n in b.queued || (n in b.inflight && (b.inflight[n].Taken? || b.inflight[n].Granted?))
  }

  /** Delivery `x` moved on in hand, to `phase`. */
  ghost predicate MovedOn(s: Sys, s': Sys, x: Serial, phase: Phase) {
    && s'.ledger.rows == s.ledger.rows && s'.front == s.front
    && s'.broker.bodies == s.broker.bodies && s'.broker.queued == s.broker.queued
    && s'.broker.inflight == s.broker.inflight[x := phase]
    && s'.broker.answered == if phase == Decided(true) then s.broker.answered + {x} else s.broker.answered
  }

  lemma FreedLater(s: Sys, s': Sys, s'': Sys, x: Serial, phase: Phase)
    requires MovedOn(s, s', x, phase) && Freed(s', s'', x)
    requires phase == Granted || phase == Decided(true)
    requires phase == Granted ==> CarriesEvent(s.broker, x)
    ensures Freed(s, s'', x)
  {
    assert s'.broker.inflight - {x} == s.broker.inflight - {x};
  }

  lemma SettleWritten(s: Sys, x: Serial)
    requires x in s.broker.inflight && s.broker.inflight[x].Written? && x !in s.broker.queued
    ensures Freed(s, Do(s, Settle(x)), x)
  {
  }

  lemma SettleDecided(s: Sys, x: Serial) returns (more: seq<Move>)
    requires Ready(s) && x in s.broker.inflight && s.broker.inflight[x].Decided?
    ensures WorkerOnly(more) && Freed(s, Continue(s, more), x)
  {
    var write := Write(x, false, "");
    var s1 := Do(s, write);
    assert s1 == DoWrite(s, x, false, "");
    assert s1.broker == Advance(s.broker, x, Written(s.broker.inflight[x].ok));
    assert s1.broker.inflight - {x} == s.broker.inflight - {x};
    SettleWritten(s1, x);
    more := [write] + [Settle(x)];
    ContinueOneMore(s1, [], Settle(x));
    assert [] + [Settle(x)] == [Settle(x)];
    ContinueFirst(s, write, [Settle(x)]);
  }

  lemma SettleGranted(s: Sys, x: Serial) returns (more: seq<Move>)
    requires Ready(s) && InPhase(s.broker, x, Granted)
    ensures WorkerOnly(more) && Freed(s, Continue(s, more), x)
  {
    var s1 := Do(s, Deliver(x, true));
    MoveKeepsReady(s, Deliver(x, true));
    assert MovedOn(s, s1, x, Decided(true));
    var rest := SettleDecided(s1, x);
    FreedLater(s, s1, Continue(s1, rest), x, Decided(true));
    ContinueFirst(s, Deliver(x, true), rest);
    more := [Deliver(x, true)] + rest;
  }

  lemma SettleTaken(s: Sys, x: Serial) returns (more: seq<Move>)
    requires Ready(s) && InPhase(s.broker, x, Taken)
    ensures WorkerOnly(more) && Freed(s, Continue(s, more), x)
  {
    if CarriesEvent(s.broker, x) {
      var s1 := Do(s, Gate(x, true));
      MoveKeepsReady(s, Gate(x, true));
      assert MovedOn(s, s1, x, Granted);
      var rest := SettleGranted(s1, x);
      FreedLater(s, s1, Continue(s1, rest), x, Granted);
      ContinueFirst(s, Gate(x, true), rest);
      more := [Gate(x, true)] + rest;
    } else {
      ContinueOneMore(s, [], Reject(x));
      more := [] + [Reject(x)];
    }
  }

  /** Any delivery in hand can be settled, leaving rows and queue alone; if it was still open it gets a 2xx. */
  lemma SettleOne(s: Sys, x: Serial) returns (more: seq<Move>)
    requires Ready(s) && x in s.broker.inflight
    ensures WorkerOnly(more) && Freed(s, Continue(s, more), x)
  {
    match s.broker.inflight[x]
    case Taken => more := SettleTaken(s, x);
    case Granted => more := SettleGranted(s, x);
    case Decided(_) => more := SettleDecided(s, x);
    case Written(_) => more := SettleAtOnce(s, x);
  }

  lemma SettleAtOnce(s: Sys, x: Serial) returns (more: seq<Move>)
    requires Ready(s) && x in s.broker.inflight && s.broker.inflight[x].Written?
    ensures WorkerOnly(more) && Freed(s, Continue(s, more), x)
  {
    SettleWritten(s, x);
    ContinueOneMore(s, [], Settle(x));
    more := [] + [Settle(x)];
  }

  // ---- Taking a message ---------------------------------------------------------------------------

  /** Message `n` has been taken; at most one other delivery was settled to make room for it. */
  ghost predicate TakenUp(s: Sys, s': Sys, n: Serial) {
    && s'.ledger.rows == s.ledger.rows && s'.front == s.front
    && s'.broker.bodies == s.broker.bodies
    && InPhase(s'.broker, n, Taken)
    && s.broker.answered <= s'.broker.answered
    && (forall x :: Open(s.broker, x) && CarriesEvent(s.broker, x) ==> Open(s'.broker, x) || x in s'.broker.answered)
  }

  lemma TakeWithRoom(s: Sys, n: Serial)
    requires Ready(s) && n in s.broker.queued && |s.broker.inflight| < PREFETCH
    ensures TakenUp(s, Do(s, Take(n)), n)
  {
    assert Do(s, Take(n)).broker == Dequeue(s.broker, n);
  }

  lemma {:induction false} ContinueKeepsReady(s: Sys, more: seq<Move>)
    requires Ready(s)
    ensures Ready(Continue(s, more))
    decreases |more|
  {
    if more != [] {
      ContinueKeepsReady(s, more[..|more| - 1]);
      MoveKeepsReady(Continue(s, more[..|more| - 1]), more[|more| - 1]);
    }
  }

  /** Any queued message can be taken, after making room if the window is full. */
  lemma TakeOne(s: Sys, n: Serial) returns (more: seq<Move>)
    requires Ready(s) && n in s.broker.queued
    ensures WorkerOnly(more) && TakenUp(s, Continue(s, more), n)
  {
    if |s.broker.inflight| < PREFETCH {
      TakeWithRoom(s, n);
      ContinueOneMore(s, [], Take(n));
      more := [] + [Take(n)];
    } else {
      assert |s.broker.inflight| == |s.broker.inflight.Keys|;
      var x :| x in s.broker.inflight;
      var room := SettleOne(s, x);
      var s1 := Continue(s, room);
      ContinueKeepsReady(s, room);
      RoomMade(s.broker.inflight, x);
      TakeWithRoom(s1, n);
      TakenUpLater(s, s1, Do(s1, Take(n)), x, n);
      ContinueOneMore(s, room, Take(n));
      more := room + [Take(n)];
    }
  }

  lemma RoomMade(inflight: map<Serial, Phase>, x: Serial)
    requires x in inflight
    ensures |inflight - {x}| == |inflight| - 1
  {
    assert (inflight - {x}).Keys == inflight.Keys - {x};
    assert |inflight| == |inflight.Keys| && |inflight - {x}| == |(inflight - {x}).Keys|;
  }

  lemma TakenUpLater(s: Sys, s1: Sys, s2: Sys, x: Serial, n: Serial)
    requires BrokerOk(s.broker) && x in s.broker.inflight && n in s.broker.queued
    requires Freed(s, s1, x) && TakenUp(s1, s2, n)
    ensures TakenUp(s, s2, n)
  {
    forall y | Open(s.broker, y) && CarriesEvent(s.broker, y)
      ensures Open(s2.broker, y) || y in s2.broker.answered
    {
      if y != x {
        assert Open(s1.broker, y);
      }
    }
  }
}
