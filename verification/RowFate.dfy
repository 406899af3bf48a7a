/**
 What can still become of a row, over every continuation of every run and with replays that
 may overlap: exactly when a delivered row stays delivered, when a pending row is pending for
 good, and when a row never has more than one unresolved message.
 */
module RowFate {
  import opened Prelude
  import opened EventStore
  import opened Pipeline
  import opened Overlap
  import opened Draining

  ghost predicate HasStatus(s: Sys, id: Id, status: Status) {
    id in s.ledger.rows && s.ledger.rows[id].status == status
  }

  /** Message `n` is about the row and has yet to write its status. */
  ghost predicate IsUnresolved(s: Sys, n: Serial, id: Id) {
    CarriesEvent(s.broker, n) && s.broker.bodies[n].event.id == id && Live(s.broker, n)
  }

  // ---- A claim can make the row fail ----------------------------------------------------------

  lemma FailByWrite(s: Sys, n: Serial, id: Id)
    requires id in s.ledger.rows && IsUnresolved(s, n, id) && InPhase(s.broker, n, Decided(false))
    ensures HasStatus(Do(s, Write(n, true, "")), id, Failed)
  {
    assert Do(s, Write(n, true, "")) == DoWrite(s, n, true, "");
  }

  /** A delivery in hand that has not got its 2xx can fail. */
  lemma FailInHand(s: Sys, n: Serial, id: Id) returns (more: seq<Move>)
    requires id in s.ledger.rows && IsUnresolved(s, n, id)
    requires n in s.broker.inflight && s.broker.inflight[n] != Decided(true) && !s.broker.inflight[n].Written?
    ensures HasStatus(Continue(s, more), id, Failed)
  {
    var write := Write(n, true, "");
    match s.broker.inflight[n]
    case Decided(_) =>
      FailByWrite(s, n, id);
      ContinueOneMore(s, [], write);
      more := [] + [write];
    case Granted =>
      var s1 := Do(s, Deliver(n, false));
      assert s1 == s.(broker := Answer(s.broker, n, false));
      FailByWrite(s1, n, id);
      more := TwoMoves(s, Deliver(n, false), write);
    case Taken =>
      var s1 := Do(s, Gate(n, false));
      assert s1 == s.(broker := Advance(s.broker, n, Decided(false)));
      FailByWrite(s1, n, id);
      more := TwoMoves(s, Gate(n, false), write);
  }

  lemma TwoMoves(s: Sys, a: Move, b: Move) returns (more: seq<Move>)
    ensures more == [a, b] && Continue(s, more) == Do(Do(s, a), b)
  {
    more := [a, b];
    ContinueOneMore(s, [], a);
    ContinueOneMore(s, [] + [a], b);
    assert [] + [a] + [b] == [a, b];
  }

  lemma FailFromQueue(s: Sys, n: Serial, id: Id) returns (more: seq<Move>)
    requires Ready(s) && id in s.ledger.rows && IsUnresolved(s, n, id) && n in s.broker.queued
    ensures HasStatus(Continue(s, more), id, Failed)
  {
    var take := TakeOne(s, n);
    var rest := FailInHand(Continue(s, take), n, id);
    ContinueTwice(s, take, rest);
    more := take + rest;
  }

  lemma FailByMessage(s: Sys, n: Serial, id: Id) returns (more: seq<Move>)
    requires Ready(s) && id in s.ledger.rows && IsUnresolved(s, n, id) && !InPhase(s.broker, n, Decided(true))
    ensures HasStatus(Continue(s, more), id, Failed)
  {
    if n in s.broker.queued {
      more := FailFromQueue(s, n, id);
    } else {
      more := FailInHand(s, n, id);
    }
  }

  /** A handler that has inserted the row can publish it. */
  lemma FailByHandler(s: Sys, h: Handler, id: Id) returns (more: seq<Move>)
    requires Ready(s) && id in s.ledger.rows && h in HandlersOf(s.front, id)
    ensures HasStatus(Continue(s, more), id, Failed)
  {
    var n := NewSerial(s.broker);
    var publish := Publish(h, n, true);
    var s1 := Do(s, publish);
    assert s1 == DoPublish(s, h, n, true);
    MoveKeepsReady(s, publish);
    assert IsUnresolved(s1, n, id);
    var rest := FailFromQueue(s1, n, id);
    ContinueFirst(s, publish, rest);
    more := [publish] + rest;
  }

  /** A replay that has reset the row can publish it. */
  lemma FailByCurrent(s: Sys, k: Session, id: Id) returns (more: seq<Move>)
    requires Ready(s) && id in s.ledger.rows && k in s.front.replays
    requires s.front.replays[k].current.Some? && s.front.replays[k].current.value.id == id
    ensures HasStatus(Continue(s, more), id, Failed)
  {
    var n := NewSerial(s.broker);
    var publish := ReplayPublish(k, n, true);
    var s1 := Do(s, publish);
    assert s1 == DoReplayPublish(s, k, n, true);
    MoveKeepsReady(s, publish);
    assert IsUnresolved(s1, n, id);
    var rest := FailFromQueue(s1, n, id);
    ContinueFirst(s, publish, rest);
    more := [publish] + rest;
  }

  /** A replay whose list has the row can come to it. */
  lemma FailByIdleReplay(s: Sys, k: Session, id: Id) returns (more: seq<Move>)
    requires Ready(s) && k in s.front.replays && s.front.replays[k].current.None? && id in s.front.replays[k].todo
    ensures HasStatus(Continue(s, more), id, Failed)
  {
    assert ReplayKnown(s.ledger, s.front.replays[k]);
    var reset := ReplayReset(k, id, true);
    var s1 := Do(s, reset);
    assert s1 == DoReplayReset(s, k, id, true);
    MoveKeepsReady(s, reset);
    var rest := FailByCurrent(s1, k, id);
    ContinueFirst(s, reset, rest);
    more := [reset] + rest;
  }

  /** A replay that is busy with another event can fail to publish that and go on. */
  lemma FailByReplay(s: Sys, k: Session, id: Id) returns (more: seq<Move>)
    requires Ready(s) && id in s.ledger.rows && k in SessionsOf(s.front, id)
    ensures HasStatus(Continue(s, more), id, Failed)
  {
    var r := s.front.replays[k];
    if r.current.Some? && r.current.value.id == id {
      more := FailByCurrent(s, k, id);
    } else if r.current.None? {
      more := FailByIdleReplay(s, k, id);
    } else {
      var n := NewSerial(s.broker);
      var publish := ReplayPublish(k, n, false);
      var s1 := Do(s, publish);
      assert s1 == DoReplayPublish(s, k, n, false);
      MoveKeepsReady(s, publish);
      var rest := FailByIdleReplay(s1, k, id);
      ContinueFirst(s, publish, rest);
      more := [publish] + rest;
    }
  }

  /** Nobody will publish the row again, and what is left of its messages has got a 2xx. */
  ghost predicate OnlySuccessesLeft(s: Sys, id: Id) {
    && HandlersOf(s.front, id) == {} && SessionsOf(s.front, id) == {}
    && forall n :: IsUnresolved(s, n, id) ==> InPhase(s.broker, n, Decided(true))
  }

  /** Otherwise some continuation makes the row fail. */
  lemma CanFail(s: Sys, id: Id) returns (more: seq<Move>)
    requires Ready(s) && id in s.ledger.rows && !OnlySuccessesLeft(s, id)
    ensures HasStatus(Continue(s, more), id, Failed)
  {
    if h :| h in HandlersOf(s.front, id) {
      more := FailByHandler(s, h, id);
    } else if k :| k in SessionsOf(s.front, id) {
      more := FailByReplay(s, k, id);
    } else {
      var n :| IsUnresolved(s, n, id) && !InPhase(s.broker, n, Decided(true));
      more := FailByMessage(s, n, id);
    }
  }

  // ---- When a delivered row stays delivered -----------------------------------------------------

  ghost predicate Safe(s: Sys, id: Id) {
    HasStatus(s, id, Success) && OnlySuccessesLeft(s, id)
  }

  lemma MoveKeepsNoHandlers(s: Sys, m: Move, id: Id)
    requires Consistent(s) && id in s.ledger.rows && HandlersOf(s.front, id) == {}
    ensures HandlersOf(Do(s, m).front, id) == {}
  {
    var f, f' := s.front, Do(s, m).front;
    forall h | h in f'.ingests && f'.ingests[h].inserted
      ensures f'.ingests[h].event.id != id
    {
      if h in f.ingests {
        assert h !in HandlersOf(f, id);
      }
    }
  }

  /** What a move makes of a replay in progress. */
  lemma MoveKeepsAway(s: Sys, m: Move, id: Id, k: Session)
    requires Consistent(s) && id in s.ledger.rows && s.ledger.rows[id].status != Failed
    requires k in s.front.replays ==> !IsAbout(s.front.replays[k], id)
    ensures k in Do(s, m).front.replays ==> !IsAbout(Do(s, m).front.replays[k], id)
  {
    if Can(s, m) && m.ReplayReset? && m.k == k {
      assert ReplayKnown(s.ledger, s.front.replays[k]);
    }
  }

  /** No request about the row is left after a move that found none. */
  lemma MoveKeepsUnclaimed(s: Sys, m: Move, id: Id)
    requires Ready(s) && id in s.ledger.rows && s.ledger.rows[id].status != Failed
    requires HandlersOf(s.front, id) == {} && SessionsOf(s.front, id) == {}
    ensures HandlersOf(Do(s, m).front, id) == {} && SessionsOf(Do(s, m).front, id) == {}
  {
    MoveKeepsNoHandlers(s, m, id);
    forall k | k in Do(s, m).front.replays
      ensures !IsAbout(Do(s, m).front.replays[k], id)
    {
      assert k !in SessionsOf(s.front, id);
      MoveKeepsAway(s, m, id, k);
    }
  }

  /** A message that is new after a move is of an event that a request was about. */
  lemma NewMessageIsClaimed(s: Sys, m: Move, id: Id, n: Serial)
    requires IngestsKnown(s.ledger, s.front) && id in s.ledger.rows && n !in s.broker.bodies
    requires CarriesEvent(Do(s, m).broker, n) && Do(s, m).broker.bodies[n].event.id == id
    ensures HandlersOf(s.front, id) != {} || SessionsOf(s.front, id) != {}
  {
    if m.Publish? {
      assert IngestKnown(s.ledger, s.front.ingests[m.h]);
      assert m.h in HandlersOf(s.front, id);
    } else {
      assert m.ReplayPublish? && m.k in SessionsOf(s.front, id);
    }
  }

  /** A message that stays unresolved moves on by its own moves only. */
  lemma MoveKeepsMessage(s: Sys, m: Move, n: Serial)
    requires BrokerOk(s.broker) && n in s.broker.bodies && Live(Do(s, m).broker, n)
    ensures Do(s, m).broker.bodies[n] == s.broker.bodies[n] && Live(s.broker, n)
    ensures InPhase(s.broker, n, Decided(true)) ==> InPhase(Do(s, m).broker, n, Decided(true))
  {
  }

  /** A message that is unresolved after such a move was so before it, and keeps its 2xx. */
  lemma MoveKeepsMessages(s: Sys, m: Move, id: Id, n: Serial)
    requires Ready(s) && id in s.ledger.rows && HandlersOf(s.front, id) == {} && SessionsOf(s.front, id) == {}
    requires IsUnresolved(Do(s, m), n, id)
    ensures IsUnresolved(s, n, id)
    ensures InPhase(s.broker, n, Decided(true)) ==> InPhase(Do(s, m).broker, n, Decided(true))
  {
    if n !in s.broker.bodies {
      NewMessageIsClaimed(s, m, id, n);
    } else {
      MoveKeepsMessage(s, m, n);
    }
  }

  lemma MoveKeepsSuccessRow(s: Sys, m: Move, id: Id)
    requires Ready(s) && Safe(s, id)
    ensures HasStatus(Do(s, m), id, Success)
  {
    if Can(s, m) {
      if m.ReplayReset? {
        assert m.k !in SessionsOf(s.front, id);
      } else if m.Write? {
        assert s.broker.bodies[m.n].event.id == id ==> IsUnresolved(s, m.n, id);
      }
    }
  }

  lemma MoveKeepsSafe(s: Sys, m: Move, id: Id)
    requires Ready(s) && Safe(s, id)
    ensures Safe(Do(s, m), id)
  {
    MoveKeepsSuccessRow(s, m, id);
    MoveKeepsUnclaimed(s, m, id);
    forall n | IsUnresolved(Do(s, m), n, id)
      ensures InPhase(Do(s, m).broker, n, Decided(true))
    {
      MoveKeepsMessages(s, m, id, n);
    }
  }

  lemma {:induction false} SafeStays(s: Sys, more: seq<Move>, id: Id)
    requires Ready(s) && Safe(s, id)
    ensures Safe(Continue(s, more), id)
    decreases |more|
  {
    if more != [] {
      SafeStays(s, more[..|more| - 1], id);
      ContinueKeepsReady(s, more[..|more| - 1]);
      MoveKeepsSafe(Continue(s, more[..|more| - 1]), more[|more| - 1], id);
    }
  }

  ghost predicate StatusAfter(moves: seq<Move>, more: seq<Move>, id: Id, status: Status) {
    HasStatus(Execute(moves + more), id, status)
  }

  /**
   A delivered row stays delivered, whatever follows, if and only if no handler and no replay
   is still about to publish it and each of its unresolved messages has got its 2xx.
   */
  lemma SuccessIsForGoodIff(moves: seq<Move>, id: Id)
    requires HasStatus(Execute(moves), id, Success)
    ensures (forall more :: StatusAfter(moves, more, id, Success)) <==> OnlySuccessesLeft(Execute(moves), id)
  {
    var s := Execute(moves);
    ReachableReady(moves);
    if OnlySuccessesLeft(s, id) {
      forall more
        ensures StatusAfter(moves, more, id, Success)
      {
        SafeStays(s, more, id);
        ContinueIsExecute(moves, more);
      }
    } else {
      var more := CanFail(s, id);
      ContinueIsExecute(moves, more);
      assert !StatusAfter(moves, more, id, Success);
    }
  }

  // ---- When a pending row is pending for good -----------------------------------------------------

  ghost predicate Abandoned(s: Sys, id: Id) {
    HasStatus(s, id, Pending) && Claims(s, id) == 0
  }

  /** No claims: no request about the row, and no unresolved message of it. */
  lemma UnclaimedMeans(s: Sys, id: Id)
    requires BrokerOk(s.broker)
    ensures Claims(s, id) == 0 <==>
              HandlersOf(s.front, id) == {} && SessionsOf(s.front, id) == {} && forall n :: !IsUnresolved(s, n, id)
  {
    if Claims(s, id) == 0 {
      forall n
        ensures !IsUnresolved(s, n, id)
      {
        assert n !in Unresolved(s, id);
      }
    } else if HandlersOf(s.front, id) == {} && SessionsOf(s.front, id) == {} {
      var n :| n in Unresolved(s, id);
      assert IsUnresolved(s, n, id);
    }
  }

  lemma MoveKeepsAbandoned(s: Sys, m: Move, id: Id)
    requires Ready(s) && Abandoned(s, id)
    ensures Abandoned(Do(s, m), id)
  {
    MoveAddsClaims(s, m, id);
    UnclaimedMeans(s, id);
    MoveKeepsRow(s, m, id);
  }

  /** Without claims a row is not touched. */
  lemma MoveKeepsRow(s: Sys, m: Move, id: Id)
    requires Consistent(s) && id in s.ledger.rows && SessionsOf(s.front, id) == {} && forall n :: !IsUnresolved(s, n, id)
    ensures id in Do(s, m).ledger.rows && Do(s, m).ledger.rows[id] == s.ledger.rows[id]
  {
    if Can(s, m) {
      if m.ReplayReset? {
        assert m.k !in SessionsOf(s.front, id);
      } else if m.Write? {
        assert !IsUnresolved(s, m.n, id);
      }
    }
  }

  lemma {:induction false} AbandonedStays(s: Sys, more: seq<Move>, id: Id)
    requires Ready(s) && Abandoned(s, id)
    ensures Abandoned(Continue(s, more), id)
    decreases |more|
  {
    if more != [] {
      AbandonedStays(s, more[..|more| - 1], id);
      ContinueKeepsReady(s, more[..|more| - 1]);
      MoveKeepsAbandoned(Continue(s, more[..|more| - 1]), more[|more| - 1], id);
    }
  }

  /** A claim can settle the row, as delivered if it has got its 2xx and as failed otherwise. */
  lemma CanSettle(s: Sys, id: Id) returns (more: seq<Move>)
    requires Ready(s) && id in s.ledger.rows && Claims(s, id) > 0
    ensures HasStatus(Continue(s, more), id, Failed) || HasStatus(Continue(s, more), id, Success)
  {
    if !OnlySuccessesLeft(s, id) {
      more := CanFail(s, id);
    } else {
      UnclaimedMeans(s, id);
      var n :| IsUnresolved(s, n, id);
      var write := Write(n, true, "");
      assert Do(s, write) == DoWrite(s, n, true, "");
      ContinueOneMore(s, [], write);
      more := [] + [write];
    }
  }

  /**
   A pending row stays pending, whatever follows, if and only if it has no claims: no handler or
   replay is about to publish it and no message of it is unresolved. So a publish or status
   write that fails leaves its row pending for good exactly when nothing else claims the row.
   */
  lemma PendingIsForGoodIff(moves: seq<Move>, id: Id)
    requires HasStatus(Execute(moves), id, Pending)
    ensures (forall more :: StatusAfter(moves, more, id, Pending)) <==> Claims(Execute(moves), id) == 0
  {
    var s := Execute(moves);
    ReachableReady(moves);
    if Claims(s, id) == 0 {
      forall more
        ensures StatusAfter(moves, more, id, Pending)
      {
        AbandonedStays(s, more, id);
        ContinueIsExecute(moves, more);
      }
    } else {
      var more := CanSettle(s, id);
      ContinueIsExecute(moves, more);
      assert !StatusAfter(moves, more, id, Pending);
    }
  }

  // ---- How many messages of a row can be unresolved ------------------------------------------------

  /** Requests that have yet to publish the row. */
  ghost function Waiting(f: Front, id: Id): nat {
    |HandlersOf(f, id)| + |SessionsOf(f, id)|
  }

  ghost predicate NoNewReplay(moves: seq<Move>) {
    forall m <- moves :: !m.ReplayStart?
  }

  /** The move turns one waiting request into an unresolved message. */
  ghost predicate Converts(s: Sys, s': Sys, id: Id) {
    && id in s'.ledger.rows
    && Waiting(s'.front, id) == Waiting(s.front, id) - 1
    && |Unresolved(s', id)| == |Unresolved(s, id)| + 1
  }

  lemma HandlerConverts(s: Sys, h: Handler, id: Id, n: Serial)
    requires Ready(s) && id in s.ledger.rows && h in HandlersOf(s.front, id) && n !in s.broker.bodies
    ensures Converts(s, Do(s, Publish(h, n, true)), id)
  {
    var s' := DoPublish(s, h, n, true);
    assert Do(s, Publish(h, n, true)) == s';
    UnresolvedAfterPublish(s, s', n, s.front.ingests[h].event, true, id);
    FrontAfterPublish(s, s'.front, h, id);
    assert n !in Unresolved(s, id);
  }

  lemma CurrentConverts(s: Sys, k: Session, id: Id, n: Serial)
    requires Ready(s) && id in s.ledger.rows && k in s.front.replays && n !in s.broker.bodies
    requires s.front.replays[k].current.Some? && s.front.replays[k].current.value.id == id
    ensures Converts(s, Do(s, ReplayPublish(k, n, true)), id)
  {
    var s' := DoReplayPublish(s, k, n, true);
    assert Do(s, ReplayPublish(k, n, true)) == s';
    UnresolvedAfterPublish(s, s', n, s.front.replays[k].current.value, true, id);
    SessionsAfterPublish(s.front, k, id);
    assert HandlersOf(s'.front, id) == HandlersOf(s.front, id);
    assert n !in Unresolved(s, id);
  }

  /** Requests and messages of the row are as many as before. */
  ghost predicate Alike(s: Sys, s': Sys, id: Id) {
    id in s'.ledger.rows && Waiting(s'.front, id) == Waiting(s.front, id) && Unresolved(s', id) == Unresolved(s, id)
  }

  lemma ResetIsAlike(s: Sys, k: Session, id: Id)
    requires Ready(s) && k in s.front.replays && s.front.replays[k].current.None? && id in s.front.replays[k].todo
    ensures var s' := Do(s, ReplayReset(k, id, true));
            && Alike(s, s', id) && k in s'.front.replays
            && s'.front.replays[k].current.Some? && s'.front.replays[k].current.value.id == id
  {
    var s' := DoReplayReset(s, k, id, true);
    assert Do(s, ReplayReset(k, id, true)) == s';
    assert ReplayKnown(s.ledger, s.front.replays[k]);
    assert HandlersOf(s'.front, id) == HandlersOf(s.front, id);
    assert SessionsOf(s'.front, id) == SessionsOf(s.front, id);
    assert Unresolved(s', id) == Unresolved(s, id);
  }

  lemma GivingUpIsAlike(s: Sys, k: Session, id: Id, n: Serial)
    requires Ready(s) && id in s.ledger.rows && k in s.front.replays && n !in s.broker.bodies
    requires s.front.replays[k].current.Some? && s.front.replays[k].current.value.id != id
    ensures var s' := Do(s, ReplayPublish(k, n, false));
            && Alike(s, s', id) && k in s'.front.replays
            && s'.front.replays[k] == s.front.replays[k].(current := None)
  {
    var s' := DoReplayPublish(s, k, n, false);
    assert Do(s, ReplayPublish(k, n, false)) == s';
    UnresolvedAfterPublish(s, s', n, s.front.replays[k].current.value, false, id);
    SessionsAfterPublish(s.front, k, id);
    assert HandlersOf(s'.front, id) == HandlersOf(s.front, id);
  }

  lemma ConvertsLater(s: Sys, s': Sys, s'': Sys, id: Id)
    requires Alike(s, s', id) && Converts(s', s'', id)
    ensures Converts(s, s'', id)
  {
  }

  /** A replay that has reset the row, or has it on its list, can publish it. */
  lemma IdleConverts(s: Sys, k: Session, id: Id) returns (more: seq<Move>)
    requires Ready(s) && k in s.front.replays && s.front.replays[k].current.None? && id in s.front.replays[k].todo
    ensures NoNewReplay(more) && Converts(s, Continue(s, more), id)
  {
    var reset := ReplayReset(k, id, true);
    var s1 := Do(s, reset);
    ResetIsAlike(s, k, id);
    MoveKeepsReady(s, reset);
    var n := NewSerial(s1.broker);
    var publish := ReplayPublish(k, n, true);
    CurrentConverts(s1, k, id, n);
    more := TwoMoves(s, reset, publish);
    ConvertsLater(s, s1, Continue(s, more), id);
  }

  lemma SessionConverts(s: Sys, k: Session, id: Id) returns (more: seq<Move>)
    requires Ready(s) && id in s.ledger.rows && k in SessionsOf(s.front, id)
    ensures NoNewReplay(more) && Converts(s, Continue(s, more), id)
  {
    var r := s.front.replays[k];
    var n := NewSerial(s.broker);
    if r.current.Some? && r.current.value.id == id {
      CurrentConverts(s, k, id, n);
      ContinueOneMore(s, [], ReplayPublish(k, n, true));
      more := [] + [ReplayPublish(k, n, true)];
    } else if r.current.None? {
      more := IdleConverts(s, k, id);
    } else {
      var publish := ReplayPublish(k, n, false);
      var s1 := Do(s, publish);
      GivingUpIsAlike(s, k, id, n);
      MoveKeepsReady(s, publish);
      var rest := IdleConverts(s1, k, id);
      ContinueFirst(s, publish, rest);
      more := [publish] + rest;
      ConvertsLater(s, s1, Continue(s, more), id);
    }
  }

  lemma OneConverts(s: Sys, id: Id) returns (more: seq<Move>)
    requires Ready(s) && id in s.ledger.rows && Waiting(s.front, id) > 0
    ensures NoNewReplay(more) && Converts(s, Continue(s, more), id)
  {
    if h :| h in HandlersOf(s.front, id) {
      var n := NewSerial(s.broker);
      HandlerConverts(s, h, id, n);
      ContinueOneMore(s, [], Publish(h, n, true));
      more := [] + [Publish(h, n, true)];
    } else {
      var k :| k in SessionsOf(s.front, id);
      more := SessionConverts(s, k, id);
    }
  }

  /** Without any new replay, all claims on a row can come to be unresolved messages at once. */
  lemma {:induction false} AllConvert(s: Sys, id: Id) returns (more: seq<Move>)
    requires Ready(s) && id in s.ledger.rows
    ensures NoNewReplay(more) && |Unresolved(Continue(s, more), id)| == Claims(s, id)
    decreases Waiting(s.front, id)
  {
    if Waiting(s.front, id) == 0 {
      more := [];
    } else {
      var first := OneConverts(s, id);
      ContinueKeepsReady(s, first);
      var rest := AllConvert(Continue(s, first), id);
      ContinueTwice(s, first, rest);
      more := first + rest;
    }
  }

  /** Without a new replay the claims on a row do not grow. */
  lemma {:induction false} ClaimsStay(s: Sys, more: seq<Move>, id: Id)
    requires Ready(s) && id in s.ledger.rows && NoNewReplay(more)
    ensures id in Continue(s, more).ledger.rows && Claims(Continue(s, more), id) <= Claims(s, id)
    decreases |more|
  {
    if more != [] {
      var shorter, m := more[..|more| - 1], more[|more| - 1];
      ClaimsStay(s, shorter, id);
      ContinueKeepsReady(s, shorter);
      assert m in more;
      MoveAddsClaims(Continue(s, shorter), m, id);
      MoveKeepsConsistent(Continue(s, shorter), m);
    }
  }

  /** After some more moves without a new replay the row has at most `n` unresolved messages. */
  ghost predicate AtMostAfter(moves: seq<Move>, more: seq<Move>, id: Id, n: nat) {
    NoNewReplay(more) ==> |Unresolved(Execute(moves + more), id)| <= n
  }

  /**
   However long the run goes on without a new replay, a row has at most `n` unresolved messages,
   if and only if it has at most `n` claims now. With `n` one: it is never queued twice exactly
   when at most one of its messages, handlers and replays is outstanding.
   */
  lemma UnresolvedAtMostIff(moves: seq<Move>, id: Id, n: nat)
    requires id in Execute(moves).ledger.rows
    ensures (forall more :: AtMostAfter(moves, more, id, n)) <==> Claims(Execute(moves), id) <= n
  {
    var s := Execute(moves);
    ReachableReady(moves);
    if Claims(s, id) <= n {
      forall more
        ensures AtMostAfter(moves, more, id, n)
      {
        if NoNewReplay(more) {
          ClaimsStay(s, more, id);
          ContinueIsExecute(moves, more);
        }
      }
    } else {
      var more := AllConvert(s, id);
      ContinueIsExecute(moves, more);
      assert !AtMostAfter(moves, more, id, n);
    }
  }
}
