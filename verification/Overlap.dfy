/**
 Replays of one API key that overlap. Nothing in the gateway serialises them, so two may
 pick up the same failed row. This module bounds the messages a row can have and shows what
 goes wrong; `RowFate` says exactly when it can.
 */
module Overlap {
  import opened Prelude
  import opened EventStore
  import opened Pipeline

  // ---- How many messages a row can have -------------------------------------------------------

  /** Handlers that have inserted the row and have yet to publish it. */
  ghost function HandlersOf(f: Front, id: Id): set<Handler> {
    set h | h in f.ingests && f.ingests[h].inserted && f.ingests[h].event.id == id
  }

  ghost predicate IsAbout(r: Replay, id: Id) {
    id in r.todo || (r.current.Some? && r.current.value.id == id)
  }

  /** Replays that have picked the row up and have yet to publish it. */
  ghost function SessionsOf(f: Front, id: Id): set<Session> {
    set k | k in f.replays && IsAbout(f.replays[k], id)
  }

  /** All that can still change the row: unresolved messages, and requests that will publish one. */
  ghost function Claims(s: Sys, id: Id): nat {
    |Unresolved(s, id)| + |HandlersOf(s.front, id)| + |SessionsOf(s.front, id)|
  }

  /** The move starts a replay that picks the row up. */
  ghost predicate Picks(s: Sys, m: Move, id: Id) {
    m.ReplayStart? && Can(s, m) && PicksUp(s.ledger.rows, m.apiKey, m.only, id)
  }

  /** How often in the run a replay picked the row up while something else could still change it. */
  ghost function Overlaps(moves: seq<Move>, id: Id): nat {
    if moves == [] then 0
    else
      var before, m := moves[..|moves| - 1], moves[|moves| - 1];
      Overlaps(before, id) + if Picks(Execute(before), m, id) && Claims(Execute(before), id) > 0 then 1 else 0
  }

  /** A replay has taken the event it is publishing off its list. */
  ghost predicate TakenOff(f: Front) {
    forall k :: k in f.replays && f.replays[k].current.Some? ==> f.replays[k].current.value.id !in f.replays[k].todo
  }

  lemma MoveKeepsTakenOff(s: Sys, m: Move)
    requires Consistent(s) && TakenOff(s.front)
    ensures TakenOff(Do(s, m).front)
  {
    if Can(s, m) && m.ReplayReset? {
      assert ReplayKnown(s.ledger, s.front.replays[m.k]);
    }
  }

  lemma {:induction false} ReachableTakenOff(moves: seq<Move>)
    ensures TakenOff(Execute(moves).front)
  {
    if moves != [] {
      ReachableTakenOff(moves[..|moves| - 1]);
      ReachableConsistent(moves[..|moves| - 1]);
      MoveKeepsTakenOff(Execute(moves[..|moves| - 1]), moves[|moves| - 1]);
    }
  }

  /** A publish, or the failure of one, adds at most its own message. */
  lemma UnresolvedAfterPublish(s: Sys, s': Sys, n: Serial, e: Event, up: bool, id: Id)
    requires BrokerOk(s.broker) && n !in s.broker.bodies
    requires s'.broker == if up then Enqueue(s.broker, n, Webhook(e)) else s.broker
    ensures Unresolved(s', id) == if up && e.id == id then Unresolved(s, id) + {n} else Unresolved(s, id)
  {
  }

  lemma PublishKeepsClaims(s: Sys, h: Handler, n: Serial, up: bool, id: Id)
    requires Consistent(s) && BrokerOk(s.broker) && Can(s, Publish(h, n, up)) && id in s.ledger.rows
    ensures Claims(DoPublish(s, h, n, up), id) <= Claims(s, id)
  {
    var s' := DoPublish(s, h, n, up);
    var e := s.front.ingests[h].event;
    UnresolvedAfterPublish(s, s', n, e, up, id);
    FrontAfterPublish(s, s'.front, h, id);
  }

  lemma FrontAfterPublish(s: Sys, f: Front, h: Handler, id: Id)
    requires Consistent(s) && h in s.front.ingests && id in s.ledger.rows
    requires f.ingests == s.front.ingests - {h} && f.replays == s.front.replays
    ensures SessionsOf(f, id) == SessionsOf(s.front, id)
    ensures |HandlersOf(f, id)| == |HandlersOf(s.front, id)| - if s.front.ingests[h].event.id == id then 1 else 0
  {
    assert HandlersOf(f, id) == HandlersOf(s.front, id) - {h};
    if s.front.ingests[h].event.id == id {
      assert IngestKnown(s.ledger, s.front.ingests[h]);
      assert h in HandlersOf(s.front, id);
    } else {
      assert h !in HandlersOf(s.front, id);
    }
  }

  lemma ReplayPublishKeepsClaims(s: Sys, k: Session, n: Serial, up: bool, id: Id)
    requires TakenOff(s.front) && BrokerOk(s.broker) && Can(s, ReplayPublish(k, n, up))
    ensures Claims(DoReplayPublish(s, k, n, up), id) <= Claims(s, id)
  {
    var s' := DoReplayPublish(s, k, n, up);
    var e := s.front.replays[k].current.value;
    UnresolvedAfterPublish(s, s', n, e, up, id);
    assert HandlersOf(s'.front, id) == HandlersOf(s.front, id);
    SessionsAfterPublish(s.front, k, id);
  }

  lemma SessionsAfterPublish(f: Front, k: Session, id: Id)
    requires TakenOff(f) && k in f.replays && f.replays[k].current.Some?
    ensures var f' := f.(replays := f.replays[k := f.replays[k].(current := None)]);
            |SessionsOf(f', id)| == |SessionsOf(f, id)| - if f.replays[k].current.value.id == id then 1 else 0
  {
    var f' := f.(replays := f.replays[k := f.replays[k].(current := None)]);
    if f.replays[k].current.value.id == id {
      assert k in SessionsOf(f, id);
      assert SessionsOf(f', id) == SessionsOf(f, id) - {k};
    } else {
      assert SessionsOf(f', id) == SessionsOf(f, id);
    }
  }

  lemma ReplayResetKeepsClaims(s: Sys, k: Session, x: Id, up: bool, id: Id)
    requires Consistent(s) && Can(s, ReplayReset(k, x, up))
    ensures Claims(DoReplayReset(s, k, x, up), id) <= Claims(s, id)
  {
    var s' := DoReplayReset(s, k, x, up);
    assert ReplayKnown(s.ledger, s.front.replays[k]);
    assert Unresolved(s', id) == Unresolved(s, id);
    assert HandlersOf(s'.front, id) == HandlersOf(s.front, id);
    SubsetSize(SessionsOf(s'.front, id), SessionsOf(s.front, id));
  }

  lemma ReplayStartAddsClaim(s: Sys, k: Session, apiKey: string, only: Option<Id>, id: Id)
    requires Can(s, ReplayStart(k, apiKey, only))
    ensures Claims(DoReplayStart(s, k, apiKey, only), id) == Claims(s, id) + if PicksUp(s.ledger.rows, apiKey, only, id) then 1 else 0
  {
    var s' := DoReplayStart(s, k, apiKey, only);
    assert Unresolved(s', id) == Unresolved(s, id);
    assert HandlersOf(s'.front, id) == HandlersOf(s.front, id);
    NewSession(s.front, k, s'.front.replays[k], id);
  }

  lemma NewSession(f: Front, k: Session, r: Replay, id: Id)
    requires k !in f.replays
    ensures |SessionsOf(f.(replays := f.replays[k := r]), id)| == |SessionsOf(f, id)| + if IsAbout(r, id) then 1 else 0
  {
    var f' := f.(replays := f.replays[k := r]);
    assert k !in SessionsOf(f, id);
    if IsAbout(r, id) {
      assert SessionsOf(f', id) == SessionsOf(f, id) + {k};
    } else {
      assert SessionsOf(f', id) == SessionsOf(f, id);
    }
  }

  lemma SaveKeepsClaims(s: Sys, h: Handler, e: Event, id: Id)
    requires Consistent(s) && Can(s, Save(h, e)) && id in s.ledger.rows
    ensures Claims(DoSave(s, h, e), id) == Claims(s, id)
  {
    var s' := DoSave(s, h, e);
    assert Unresolved(s', id) == Unresolved(s, id);
    assert HandlersOf(s'.front, id) == HandlersOf(s.front, id);
    assert SessionsOf(s'.front, id) == SessionsOf(s.front, id);
  }

  /** Moves of the queue and the worker make no message live. */
  lemma WorkerKeepsClaims(s: Sys, m: Move, id: Id)
    requires Can(s, m) && BrokerOk(s.broker)
    requires m.Intrude? || m.Take? || m.Reject? || m.Gate? || m.Deliver? || m.Write? || m.Settle?
    ensures Claims(Do(s, m), id) <= Claims(s, id)
  {
    assert Do(s, m).front == s.front;
    SubsetSize(Unresolved(Do(s, m), id), Unresolved(s, id));
  }

  lemma ReplayEndKeepsClaims(s: Sys, k: Session, id: Id)
    requires Can(s, ReplayEnd(k))
    ensures Claims(Do(s, ReplayEnd(k)), id) <= Claims(s, id)
  {
    var s' := Do(s, ReplayEnd(k));
    assert Unresolved(s', id) == Unresolved(s, id);
    assert HandlersOf(s'.front, id) == HandlersOf(s.front, id);
    SubsetSize(SessionsOf(s'.front, id), SessionsOf(s.front, id));
  }

  /** Claims on a stored row are only added by a replay that picks it up. */
  lemma MoveAddsClaims(s: Sys, m: Move, id: Id)
    requires Consistent(s) && BrokerOk(s.broker) && TakenOff(s.front) && id in s.ledger.rows
    ensures Claims(Do(s, m), id) <= Claims(s, id) + if Picks(s, m, id) then 1 else 0
  {
    if Can(s, m) {
      match m
      case Save(h, e) => SaveKeepsClaims(s, h, e, id);
      case Publish(h, n, up) => PublishKeepsClaims(s, h, n, up, id);
      case ReplayStart(k, apiKey, only) => ReplayStartAddsClaim(s, k, apiKey, only, id);
      case ReplayReset(k, x, up) => ReplayResetKeepsClaims(s, k, x, up, id);
      case ReplayPublish(k, n, up) => ReplayPublishKeepsClaims(s, k, n, up, id);
      case ReplayEnd(k) => ReplayEndKeepsClaims(s, k, id);
      case _ => WorkerKeepsClaims(s, m, id);
    }
  }

  lemma NewRowIsSaved(s: Sys, m: Move, id: Id)
    requires id !in s.ledger.rows && id in Do(s, m).ledger.rows
    ensures m.Save? && Can(s, m) && m.event.id == id && !KeyTaken(s.ledger.rows, EffectiveKey(m.event))
  {
  }

  /** A row begins with one claim, its handler's. */
  lemma NewRowHasOneClaim(s: Sys, h: Handler, e: Event)
    requires Consistent(s) && Can(s, Save(h, e)) && !KeyTaken(s.ledger.rows, EffectiveKey(e))
    ensures Claims(DoSave(s, h, e), e.id) == 1
  {
    var s' := DoSave(s, h, e);
    assert forall k :: k in s.front.replays ==> ReplayKnown(s.ledger, s.front.replays[k]);
    assert Unresolved(s', e.id) == {};
    assert HandlersOf(s'.front, e.id) == {h};
    assert SessionsOf(s'.front, e.id) == {};
  }

  /**
   However replays overlap, a row has at most one claim more than there were overlaps, that is
   replays that picked it up while something else could still change it.
   */
  lemma {:induction false} ClaimsBound(moves: seq<Move>, id: Id)
    requires id in Execute(moves).ledger.rows
    ensures Claims(Execute(moves), id) <= 1 + Overlaps(moves, id)
  {
    if moves != [] {
      var before, m := moves[..|moves| - 1], moves[|moves| - 1];
      ClaimStep(before, m, id);
      if id in Execute(before).ledger.rows {
        ClaimsBound(before, id);
      }
    }
  }

  lemma ClaimStep(before: seq<Move>, m: Move, id: Id)
    requires id in Do(Execute(before), m).ledger.rows
    ensures var s := Execute(before);
            Claims(Do(s, m), id) <= if id in s.ledger.rows then Claims(s, id) + (if Picks(s, m, id) then 1 else 0) else 1
  {
    var s := Execute(before);
    ReachableConsistent(before);
    ReachableBroker(before);
    ReachableTakenOff(before);
    if id in s.ledger.rows {
      MoveAddsClaims(s, m, id);
    } else {
      NewRowIsSaved(s, m, id);
      NewRowHasOneClaim(s, m.h, m.event);
    }
  }

  /** So a row's unresolved messages are at most one more than its overlaps. */
  lemma UnresolvedBound(moves: seq<Move>, id: Id)
    requires id in Execute(moves).ledger.rows
    ensures |Unresolved(Execute(moves), id)| <= 1 + Overlaps(moves, id)
  {
    ClaimsBound(moves, id);
  }

  /** A failed row whose client has no replay in progress has no claims. */
  lemma FailedIsUnclaimed(s: Sys, id: Id)
    requires Accounted(s) && id in s.ledger.rows && s.ledger.rows[id].status == Failed
    requires forall k :: k in s.front.replays ==> s.front.replays[k].apiKey != s.ledger.rows[id].apiKey
    ensures Claims(s, id) == 0
  {
    HolderDecides(s, id);
    assert forall k :: k in s.front.replays ==> ReplayHeld(s.ledger, k, s.front.replays[k]);
    assert HandlersOf(s.front, id) == {};
    assert SessionsOf(s.front, id) == {};
  }

  /** Replays of each API key one at a time never overlap. */
  lemma {:induction false} SerialRunsDoNotOverlap(moves: seq<Move>, id: Id)
    requires SerialRun(moves)
    ensures Overlaps(moves, id) == 0
  {
    if moves != [] {
      var before, m := moves[..|moves| - 1], moves[|moves| - 1];
      SerialRunsDoNotOverlap(before, id);
      if Picks(Execute(before), m, id) {
        ReachableAccount(before);
        FailedIsUnclaimed(Execute(before), id);
      }
    }
  }

  predicate Delivered(l: Ledger, id: Id) {
    id in l.rows && l.rows[id].status == Success
  }

  // ---- Two overlapping replays, in the concrete -------------------------------------------------

  const EVENT: Event := Event("e", "key", "url", "payload", "")

  /** The event as its row gives it back: under its effective key. */
  const STORED: Event := Event("e", "key", "url", "payload", "e")

  /** The event is ingested, refused by the breaker and dead-lettered. */
  const FAILING: seq<Move> :=
    [] + [Save(0, EVENT)] + [Publish(0, 0, true)] + [Take(0)] + [Gate(0, false)] + [Write(0, true, "open")] + [Settle(0)]

  /** Two replays of the client start, and the first one publishes the event again. */
  const BOTH: seq<Move> :=
    FAILING + [ReplayStart(0, "key", None)] + [ReplayStart(1, "key", None)] + [ReplayReset(0, "e", true)] + [ReplayPublish(0, 1, true)]

  function RowWith(status: Status, error: Option<string>): Row {
    Row("e", "key", "url", "payload", status, error)
  }

  const FAILED: Sys :=
    Sys(Ledger(map["e" := RowWith(Failed, Some("open"))], {"e"}, map[], 0, 0),
        Broker(map[0 := Webhook(EVENT)], {}, map[], {}, {0}, {}),
        Front(map[], map[], {"e"}))

  const REPUBLISHED: Sys :=
    Sys(Ledger(map["e" := RowWith(Pending, None)], {"e"}, map["e" := ByMessage(1)], 0, 0),
        Broker(map[0 := Webhook(EVENT), 1 := Webhook(STORED)], {1}, map[], {}, {0}, {}),
        Front(map[], map[0 := Replay("key", map[], None), 1 := Replay("key", map["e" := STORED], None)], {"e"}))

  lemma ExecuteOneMore(moves: seq<Move>, m: Move)
    ensures Execute(moves + [m]) == Do(Execute(moves), m)
  {
    assert (moves + [m])[..|moves|] == moves;
  }

  lemma ExecuteTwoMore(moves: seq<Move>, a: Move, b: Move)
    ensures Execute(moves + [a] + [b]) == Do(Do(Execute(moves), a), b)
  {
    ExecuteOneMore(moves, a);
    ExecuteOneMore(moves + [a], b);
  }

  lemma ExecuteFourMore(moves: seq<Move>, a: Move, b: Move, c: Move, d: Move)
    ensures Execute(moves + [a] + [b] + [c] + [d]) == Do(Do(Do(Do(Execute(moves), a), b), c), d)
  {
    ExecuteTwoMore(moves, a, b);
    ExecuteTwoMore(moves + [a] + [b], c, d);
  }

  const PUBLISHED: Sys :=
    Sys(Ledger(map["e" := RowWith(Pending, None)], {"e"}, map["e" := ByMessage(0)], 0, 0),
        Broker(map[0 := Webhook(EVENT)], {0}, map[], {}, {}, {}),
        Front(map[], map[], {"e"}))

  lemma SavedAndPublished()
    ensures Do(Do(INITIAL, Save(0, EVENT)), Publish(0, 0, true)) == PUBLISHED
  {
    var s := Do(INITIAL, Save(0, EVENT));
    assert !KeyTaken(INITIAL.ledger.rows, "e");
    assert s == DoSave(INITIAL, 0, EVENT);
    assert s.front.ingests == map[0 := Ingest(EVENT, true)];
  }

  /** A delivery that is taken and asks the breaker. */
  function Gated(s: Sys, n: Serial, pass: bool): Sys {
    s.(broker := s.broker.(queued := s.broker.queued - {n},
                           inflight := s.broker.inflight[n := if pass then Granted else Decided(false)]))
  }

  lemma TakeAndGate(s: Sys, n: Serial, pass: bool)
    requires n in s.broker.queued && |s.broker.inflight| < PREFETCH && CarriesEvent(s.broker, n)
    ensures Do(Do(s, Take(n)), Gate(n, pass)) == Gated(s, n, pass)
  {
    var taken := s.(broker := Dequeue(s.broker, n));
    assert Do(s, Take(n)) == taken;
    assert taken.broker.inflight[n := if pass then Granted else Decided(false)]
        == s.broker.inflight[n := if pass then Granted else Decided(false)];
  }

  lemma WriteAndSettle(s: Sys)
    requires s == Gated(PUBLISHED, 0, false)
    ensures Do(Do(s, Write(0, true, "open")), Settle(0)) == FAILED
  {
    var written := DoWrite(s, 0, true, "open");
    assert Do(s, Write(0, true, "open")) == written;
    assert written.ledger == FAILED.ledger;
    assert written.broker.inflight - {0} == map[];
  }

  lemma RefusedAndSettled()
    ensures Do(Do(Do(Do(PUBLISHED, Take(0)), Gate(0, false)), Write(0, true, "open")), Settle(0)) == FAILED
  {
    TakeAndGate(PUBLISHED, 0, false);
    WriteAndSettle(Gated(PUBLISHED, 0, false));
  }

  lemma FailingFails()
    ensures Execute(FAILING) == FAILED
  {
    ExecuteTwoMore([], Save(0, EVENT), Publish(0, 0, true));
    SavedAndPublished();
    ExecuteFourMore([] + [Save(0, EVENT)] + [Publish(0, 0, true)], Take(0), Gate(0, false), Write(0, true, "open"), Settle(0));
    RefusedAndSettled();
  }

  lemma StartingPicksUp(k: Session, f: Front)
    requires k !in f.replays
    ensures Do(FAILED.(front := f), ReplayStart(k, "key", None))
         == FAILED.(front := f.(replays := f.replays[k := Replay("key", map["e" := STORED], None)]))
  {
    var rows := FAILED.ledger.rows;
    assert PicksUp(rows, "key", None, "e") && EventOf("e", rows["e"]) == STORED;
    assert (map id | id in rows && PicksUp(rows, "key", None, id) :: EventOf(id, rows[id])) == map["e" := STORED];
  }

  const WAITING: Replay := Replay("key", map["e" := STORED], None)

  const STARTED: Sys := FAILED.(front := Front(map[], map[0 := WAITING, 1 := WAITING], {"e"}))

  lemma FirstPublishes()
    ensures Do(Do(STARTED, ReplayReset(0, "e", true)), ReplayPublish(0, 1, true)) == REPUBLISHED
  {
    var reset := DoReplayReset(STARTED, 0, "e", true);
    assert Do(STARTED, ReplayReset(0, "e", true)) == reset;
    assert WAITING.todo - {"e"} == map[];
    assert reset.front == Front(map[], map[0 := Replay("key", map[], Some(STORED)), 1 := WAITING], {"e"});
    assert reset.ledger.rows == map["e" := RowWith(Pending, None)];
    assert Do(reset, ReplayPublish(0, 1, true)) == DoReplayPublish(reset, 0, 1, true);
  }

  lemma BothStart()
    ensures Execute(BOTH) == REPUBLISHED
  {
    ExecuteFourMore(FAILING, ReplayStart(0, "key", None), ReplayStart(1, "key", None), ReplayReset(0, "e", true), ReplayPublish(0, 1, true));
    BothAreStarted();
    FirstPublishes();
  }

  lemma BothAreStarted()
    ensures Do(Do(Execute(FAILING), ReplayStart(0, "key", None)), ReplayStart(1, "key", None)) == STARTED
  {
    FailingFails();
    StartingPicksUp(0, FAILED.front);
    var one := FAILED.front.(replays := map[0 := WAITING]);
    assert FAILED.front.replays[0 := WAITING] == map[0 := WAITING];
    StartingPicksUp(1, one);
    assert one.replays[1 := WAITING] == map[0 := WAITING, 1 := WAITING];
  }

  /** With overlapping replays a row that a failed publish left stuck is not stuck for good: the other replay goes on. */
  lemma OverlapRevivesOrphan()
    ensures var stuck := FAILING + [ReplayStart(0, "key", None)] + [ReplayStart(1, "key", None)]
                         + [ReplayReset(0, "e", true)] + [ReplayPublish(0, 1, false)];
            && "e" in Orphans(Execute(stuck))
            && "e" !in Orphans(Execute(stuck + [ReplayReset(1, "e", true)]))
  {
    var stuck := FAILING + [ReplayStart(0, "key", None)] + [ReplayStart(1, "key", None)]
                 + [ReplayReset(0, "e", true)] + [ReplayPublish(0, 1, false)];
    ExecuteFourMore(FAILING, ReplayStart(0, "key", None), ReplayStart(1, "key", None), ReplayReset(0, "e", true), ReplayPublish(0, 1, false));
    BothAreStarted();
    FirstIsStuck();
    ExecuteOneMore(stuck, ReplayReset(1, "e", true));
    SecondTakesOver(Execute(stuck));
  }

  lemma FirstIsStuck()
    ensures var s := Do(Do(STARTED, ReplayReset(0, "e", true)), ReplayPublish(0, 1, false));
            && "e" in Orphans(s)
            && s.front.replays == map[0 := Replay("key", map[], None), 1 := WAITING]
  {
    var reset := DoReplayReset(STARTED, 0, "e", true);
    assert Do(STARTED, ReplayReset(0, "e", true)) == reset;
    assert WAITING.todo - {"e"} == map[];
    var s := DoReplayPublish(reset, 0, 1, false);
    assert Do(reset, ReplayPublish(0, 1, false)) == s;
    assert s.front == Front(map[], map[0 := Replay("key", map[], None), 1 := WAITING], {"e"});
    assert s.broker == FAILED.broker;
    assert Unresolved(s, "e") == {};
  }

  lemma SecondTakesOver(s: Sys)
    requires s.front.replays == map[0 := Replay("key", map[], None), 1 := WAITING]
    ensures "e" !in Orphans(Do(s, ReplayReset(1, "e", true)))
  {
    var s' := Do(s, ReplayReset(1, "e", true));
    assert s' == DoReplayReset(s, 1, "e", true);
    assert 1 in s'.front.replays && s'.front.replays[1].current == Some(STORED);
    assert AboutToPublish(s', "e");
  }

  /** Both replays publish: one row, two unresolved messages. */
  lemma OverlappingReplaysDuplicate()
    ensures var s := Execute(BOTH + [ReplayReset(1, "e", true)] + [ReplayPublish(1, 2, true)]);
            "e" in s.ledger.rows && {1, 2} <= Unresolved(s, "e")
  {
    BothStart();
    ExecuteOneMore(BOTH, ReplayReset(1, "e", true));
    ExecuteOneMore(BOTH + [ReplayReset(1, "e", true)], ReplayPublish(1, 2, true));
  }

  /** The first replay's message is delivered, and the second replay makes the row pending again. */
  lemma OverlappingReplayUndoesSuccess()
    ensures var delivered := BOTH + [Take(1)] + [Gate(1, true)] + [Deliver(1, true)] + [Write(1, true, "")];
            && Delivered(Execute(delivered).ledger, "e")
            && Execute(delivered + [ReplayReset(1, "e", true)]).ledger.rows == map["e" := RowWith(Pending, None)]
  {
    BothStart();
    var delivered := BOTH + [Take(1)] + [Gate(1, true)] + [Deliver(1, true)] + [Write(1, true, "")];
    ExecuteFourMore(BOTH, Take(1), Gate(1, true), Deliver(1, true), Write(1, true, ""));
    RepublishedIsDelivered();
    ExecuteOneMore(delivered, ReplayReset(1, "e", true));
    SecondResets(Execute(delivered));
  }

  lemma RepublishedIsDelivered()
    ensures var s := Do(Do(Do(Do(REPUBLISHED, Take(1)), Gate(1, true)), Deliver(1, true)), Write(1, true, ""));
            s.ledger.rows == map["e" := RowWith(Success, None)] && s.front == REPUBLISHED.front
  {
    TakeAndGate(REPUBLISHED, 1, true);
    DeliverAndWrite(Gated(REPUBLISHED, 1, true));
  }

  lemma DeliverAndWrite(s: Sys)
    requires s == Gated(REPUBLISHED, 1, true)
    ensures var s' := Do(Do(s, Deliver(1, true)), Write(1, true, ""));
            s'.ledger.rows == map["e" := RowWith(Success, None)] && s'.front == REPUBLISHED.front
  {
    var decided := s.(broker := Answer(s.broker, 1, true));
    assert Do(s, Deliver(1, true)) == decided;
    assert Do(decided, Write(1, true, "")) == DoWrite(decided, 1, true, "");
  }

  lemma SecondResets(s: Sys)
    requires s.ledger.rows == map["e" := RowWith(Success, None)] && s.front == REPUBLISHED.front
    ensures Do(s, ReplayReset(1, "e", true)).ledger.rows == map["e" := RowWith(Pending, None)]
  {
  }
}
