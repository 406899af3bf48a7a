/**
 The webhook pipeline as one transition system: ingest handlers and replays at the
 gateway, the events table, the message queue with its dead-letter queue, and the
 worker's deliveries. Every interleaving is a sequence of moves; database writes and
 publishes may fail at any of them.

 There are no crashes and no redeliveries, and a failed write or publish has no effect.
 Replays of one API key may overlap; results that need them one at a time say so
 (`SerialRun`), and `Overlap` has what holds when they do overlap.
 */
module Pipeline {
  import opened Prelude
  import opened EventStore

  type Serial = nat   // a message, numbered as it is published
  type Handler = nat  // an ingest request in progress
  type Session = nat  // a replay request in progress

  const PREFETCH: nat := 100

  // ---- The queue ---------------------------------------------------------------------------

  datatype Body = Webhook(event: Event) | Malformed

  /** Where a delivery stands between being taken and being settled. */
  datatype Phase =
    | Taken
    | Granted                // the breaker let it through
    | Decided(ok: bool)      // delivered or given up; a refused delivery is given up at once
    | Written(ok: bool)      // status write attempted

  datatype Broker = Broker(
    bodies: map<Serial, Body>,       // everything published
    queued: set<Serial>,
    inflight: map<Serial, Phase>,
    acked: set<Serial>,
    dead: set<Serial>,               // dead-letter queue
    answered: set<Serial>)           // deliveries that got a 2xx

  function Enqueue(b: Broker, n: Serial, body: Body): Broker {
    b.(bodies := b.bodies[n := body], queued := b.queued + {n})
  }

  function Dequeue(b: Broker, n: Serial): Broker {
    b.(queued := b.queued - {n}, inflight := b.inflight[n := Taken])
  }

  function Advance(b: Broker, n: Serial, phase: Phase): Broker {
    b.(inflight := b.inflight[n := phase])
  }

  function Answer(b: Broker, n: Serial, ok: bool): Broker {
    b.(inflight := b.inflight[n := Decided(ok)], answered := if ok then b.answered + {n} else b.answered)
  }

  function SettleIt(b: Broker, n: Serial, ack: bool): Broker {
    b.(inflight := b.inflight - {n},
       acked := if ack then b.acked + {n} else b.acked,
       dead := if ack then b.dead else b.dead + {n})
  }

  /** The message may still change its row: it is queued, or its delivery has not reached the status write. */
  predicate Live(b: Broker, n: Serial) {
    n in b.queued || (n in b.inflight && !b.inflight[n].Written?)
  }

  // ---- The table, with an account of who answers for each pending row ------------------------

  datatype Holder =
    | ByHandler(handler: Handler)
    | ByReplay(session: Session)
    | ByMessage(serial: Serial)
    | Lost                            // nobody: a publish or a status write failed

  datatype Ledger = Ledger(
    rows: Rows,
    used: set<Id>,                    // event ids handed out
    holder: map<Id, Holder>,
    publishFailures: nat,             // of inserted or replayed events
    writeFailures: nat)               // worker status writes of stored events

  function Hold(l: Ledger, id: Id, holder: Holder): Ledger {
    l.(holder := l.holder[id := holder])
  }

  // ---- The gateway -------------------------------------------------------------------------

  datatype Ingest = Ingest(event: Event, inserted: bool)

  /** A replay in progress: the failed events it read, and the one it has reset but not yet published. */
  datatype Replay = Replay(apiKey: string, todo: map<Id, Event>, current: Option<Event>)

  datatype Front = Front(
    ingests: map<Handler, Ingest>,
    replays: map<Session, Replay>,
    accepted: set<string>)            // effective keys answered with 202

  datatype Sys = Sys(ledger: Ledger, broker: Broker, front: Front)

  const INITIAL: Sys :=
    Sys(Ledger(map[], {}, map[], 0, 0), Broker(map[], {}, map[], {}, {}, {}), Front(map[], map[], {}))

  datatype Move =
    | Save(h: Handler, event: Event)
    | Publish(h: Handler, n: Serial, up: bool)
    | ReplayStart(k: Session, apiKey: string, only: Option<Id>)
    | ReplayReset(k: Session, id: Id, up: bool)
    | ReplayPublish(k: Session, n: Serial, up: bool)
    | ReplayEnd(k: Session)
    | Intrude(n: Serial)              // a body that is no webhook event turns up in the queue
    | Take(n: Serial)
    | Reject(n: Serial)
    | Gate(n: Serial, pass: bool)
    | Deliver(n: Serial, ok: bool)
    | Write(n: Serial, up: bool, error: string)
    | Settle(n: Serial)

  function DoSave(s: Sys, h: Handler, e: Event): Sys {
    var inserted := !KeyTaken(s.ledger.rows, EffectiveKey(e));
    var l := s.ledger.(rows := Insert(s.ledger.rows, e), used := s.ledger.used + {e.id});
    s.(ledger := if inserted then Hold(l, e.id, ByHandler(h)) else l,
       front := s.front.(ingests := s.front.ingests[h := Ingest(e, inserted)]))
  }

  /** Publishes the event and answers 202, or answers 500 and leaves an inserted row pending. */
  function DoPublish(s: Sys, h: Handler, n: Serial, up: bool): Sys
    requires h in s.front.ingests
  {
    var e, inserted := s.front.ingests[h].event, s.front.ingests[h].inserted;
    var f := s.front.(ingests := s.front.ingests - {h});
    if up then
      Sys(if inserted then Hold(s.ledger, e.id, ByMessage(n)) else s.ledger,
          Enqueue(s.broker, n, Webhook(e)),
          f.(accepted := f.accepted + {EffectiveKey(e)}))
    else
      Sys(if inserted then Hold(s.ledger, e.id, Lost).(publishFailures := s.ledger.publishFailures + 1) else s.ledger,
          s.broker, f)
  }

  /** The failed events a replay picks up: those of the client, or the one asked for. */
  predicate PicksUp(rows: Rows, apiKey: string, only: Option<Id>, id: Id) {
    Replayable(rows, apiKey, id) && (only.None? || only.value == id)
  }

  function DoReplayStart(s: Sys, k: Session, apiKey: string, only: Option<Id>): Sys {
    var rows := s.ledger.rows;
    var todo := map id | id in rows && PicksUp(rows, apiKey, only, id) :: EventOf(id, rows[id]);
    s.(front := s.front.(replays := s.front.replays[k := Replay(apiKey, todo, None)]))
  }

  /** Resets the status; when that fails the loop goes on with the next event. */
  function DoReplayReset(s: Sys, k: Session, id: Id, up: bool): Sys
    requires k in s.front.replays && id in s.front.replays[k].todo
  {
    var r := s.front.replays[k];
    var todo := r.todo - {id};
    if up then
      s.(ledger := Hold(s.ledger, id, ByReplay(k)).(rows := SetStatus(s.ledger.rows, id, Pending, "")),
         front := s.front.(replays := s.front.replays[k := r.(todo := todo, current := Some(r.todo[id]))]))
    else
      s.(front := s.front.(replays := s.front.replays[k := r.(todo := todo)]))
  }

  function DoReplayPublish(s: Sys, k: Session, n: Serial, up: bool): Sys
    requires k in s.front.replays && s.front.replays[k].current.Some?
  {
    var r := s.front.replays[k];
    var e := r.current.value;
    var f := s.front.(replays := s.front.replays[k := r.(current := None)]);
    if up then Sys(Hold(s.ledger, e.id, ByMessage(n)), Enqueue(s.broker, n, Webhook(e)), f)
    else Sys(Hold(s.ledger, e.id, Lost).(publishFailures := s.ledger.publishFailures + 1), s.broker, f)
  }

  /** The worker's status write; without a row it changes nothing, up or down. */
  function DoWrite(s: Sys, n: Serial, up: bool, error: string): Sys
    requires n in s.broker.inflight && s.broker.inflight[n].Decided?
    requires n in s.broker.bodies && s.broker.bodies[n].Webhook?
  {
    var ok := s.broker.inflight[n].ok;
    var id := s.broker.bodies[n].event.id;
    var b := Advance(s.broker, n, Written(ok));
    if id !in s.ledger.rows then s.(broker := b)
    else if up then
      s.(broker := b,
         ledger := s.ledger.(rows := SetStatus(s.ledger.rows, id, if ok then Success else Failed, error),
                             holder := s.ledger.holder - {id}))
    else
      s.(broker := b, ledger := Hold(s.ledger, id, Lost).(writeFailures := s.ledger.writeFailures + 1))
  }

  predicate InPhase(b: Broker, n: Serial, phase: Phase) {
    n in b.inflight && b.inflight[n] == phase
  }

  predicate CarriesEvent(b: Broker, n: Serial) {
    n in b.bodies && b.bodies[n].Webhook?
  }

  predicate Can(s: Sys, m: Move) {
    var b := s.broker;
    match m
    case Save(h, e) => h !in s.front.ingests && e.id !in s.ledger.used && e.url != "" && e.payload != "" && e.apiKey != ""
    case Publish(h, n, _) => h in s.front.ingests && n !in b.bodies
    case ReplayStart(k, _, _) => k !in s.front.replays
    case ReplayReset(k, id, _) => k in s.front.replays && id in s.front.replays[k].todo && s.front.replays[k].current.None?
    case ReplayPublish(k, n, _) => k in s.front.replays && s.front.replays[k].current.Some? && n !in b.bodies
    case ReplayEnd(k) => k in s.front.replays && s.front.replays[k].todo == map[] && s.front.replays[k].current.None?
    case Intrude(n) => n !in b.bodies
    case Take(n) => n in b.queued && |b.inflight| < PREFETCH
    case Reject(n) => InPhase(b, n, Taken) && !CarriesEvent(b, n)
    case Gate(n, _) => InPhase(b, n, Taken) && CarriesEvent(b, n)
    case Deliver(n, _) => InPhase(b, n, Granted)
    case Write(n, _, _) => n in b.inflight && b.inflight[n].Decided? && CarriesEvent(b, n)
    case Settle(n) => n in b.inflight && b.inflight[n].Written?
  }

  /** One step of the pipeline; a move that is not possible changes nothing. */
  function Do(s: Sys, m: Move): Sys {
    if !Can(s, m) then s
    else
      match m
      case Save(h, e) => DoSave(s, h, e)
      case Publish(h, n, up) => DoPublish(s, h, n, up)
      case ReplayStart(k, apiKey, only) => DoReplayStart(s, k, apiKey, only)
      case ReplayReset(k, id, up) => DoReplayReset(s, k, id, up)
      case ReplayPublish(k, n, up) => DoReplayPublish(s, k, n, up)
      case ReplayEnd(k) => s.(front := s.front.(replays := s.front.replays - {k}))
      case Intrude(n) => s.(broker := Enqueue(s.broker, n, Malformed))
      case Take(n) => s.(broker := Dequeue(s.broker, n))
      case Reject(n) => s.(broker := SettleIt(s.broker, n, false))
      case Gate(n, pass) => s.(broker := Advance(s.broker, n, if pass then Granted else Decided(false)))
      case Deliver(n, ok) => s.(broker := Answer(s.broker, n, ok))
      case Write(n, up, error) => DoWrite(s, n, up, error)
      case Settle(n) => s.(broker := SettleIt(s.broker, n, s.broker.inflight[n].ok))
  }

  /** The state after any sequence of moves. */
  function Execute(moves: seq<Move>): Sys {
    if moves == [] then INITIAL else Do(Execute(moves[..|moves| - 1]), moves[|moves| - 1])
  }

  /** The state after some more moves. */
  function Continue(s: Sys, moves: seq<Move>): Sys {
    if moves == [] then s else Do(Continue(s, moves[..|moves| - 1]), moves[|moves| - 1])
  }

  lemma ContinueOneMore(s: Sys, moves: seq<Move>, m: Move)
    ensures Continue(s, moves + [m]) == Do(Continue(s, moves), m)
  {
    assert (moves + [m])[..|moves|] == moves;
  }

  lemma {:induction false} ContinueTwice(s: Sys, moves: seq<Move>, more: seq<Move>)
    ensures Continue(Continue(s, moves), more) == Continue(s, moves + more)
    decreases |more|
  {
    var all := moves + more;
    if more == [] {
      assert all == moves;
    } else {
      ContinueTwice(s, moves, more[..|more| - 1]);
      assert all[..|all| - 1] == moves + more[..|more| - 1];
    }
  }

  /** Continuing a run is running the longer sequence, so what holds of all runs holds after it. */
  lemma {:induction false} ContinueIsExecute(moves: seq<Move>, more: seq<Move>)
    ensures Continue(Execute(moves), more) == Execute(moves + more)
    decreases |more|
  {
    var all := moves + more;
    if more == [] {
      assert all == moves;
    } else {
      ContinueIsExecute(moves, more[..|more| - 1]);
      assert all[..|all| - 1] == moves + more[..|more| - 1];
    }
  }

  /** The states a sequence of moves goes through, from `s` to `s'`. */
  ghost predicate IsTrace(states: seq<Sys>, s: Sys, moves: seq<Move>, s': Sys) {
    && |states| == |moves| + 1 && states[0] == s && states[|moves|] == s'
    && forall i :: 0 <= i < |moves| ==> states[i + 1] == Do(states[i], moves[i])
  }

  /** The moves lead from one state to the other. */
  ghost predicate Leads(s: Sys, moves: seq<Move>, s': Sys) {
    exists states :: IsTrace(states, s, moves, s')
  }

  lemma LeadsIsContinue(s: Sys, moves: seq<Move>, s': Sys)
    ensures Leads(s, moves, s') <==> s' == Continue(s, moves)
  {
    if Leads(s, moves, s') {
      var states :| IsTrace(states, s, moves, s');
      TraceContinues(states, s, moves, s');
    }
    if s' == Continue(s, moves) {
      TraceExists(s, moves);
    }
  }

  lemma {:induction false} TraceContinues(states: seq<Sys>, s: Sys, moves: seq<Move>, s': Sys)
    requires IsTrace(states, s, moves, s')
    ensures s' == Continue(s, moves)
    decreases |moves|
  {
    if moves != [] {
      var n := |moves| - 1;
      TraceContinues(states[..n + 1], s, moves[..n], states[n]);
    }
  }

  lemma {:induction false} TraceExists(s: Sys, moves: seq<Move>)
    ensures exists states :: IsTrace(states, s, moves, Continue(s, moves))
    decreases |moves|
  {
    if moves == [] {
      assert IsTrace([s], s, moves, Continue(s, moves));
    } else {
      var n := |moves| - 1;
      TraceExists(s, moves[..n]);
      var states :| IsTrace(states, s, moves[..n], Continue(s, moves[..n]));
      var all := states + [Continue(s, moves)];
      forall i | 0 <= i < |moves|
        ensures all[i + 1] == Do(all[i], moves[i])
      {
        if i < n {
          assert all[i] == states[i] && all[i + 1] == states[i + 1] && moves[..n][i] == moves[i];
        }
      }
      assert IsTrace(all, s, moves, Continue(s, moves));
    }
  }

  /** One sequence of moves after another. */
  lemma LeadsOn(a: Sys, moves: seq<Move>, b: Sys, more: seq<Move>, c: Sys)
    requires Leads(a, moves, b) && Leads(b, more, c)
    ensures Leads(a, moves + more, c)
  {
    LeadsIsContinue(a, moves, b);
    LeadsIsContinue(b, more, c);
    ContinueTwice(a, moves, more);
    LeadsIsContinue(a, moves + more, c);
  }

  lemma LeadsByOne(s: Sys, m: Move)
    ensures Leads(s, [m], Do(s, m))
  {
    assert IsTrace([s, Do(s, m)], s, [m], Do(s, m));
  }

  lemma LeadsByTwo(s: Sys, a: Move, b: Move)
    ensures Leads(s, [a, b], Do(Do(s, a), b))
  {
    assert IsTrace([s, Do(s, a), Do(Do(s, a), b)], s, [a, b], Do(Do(s, a), b));
  }

  /** What moves lead to from the end of a run is the end of the longer run. */
  lemma LeadsIsExecute(moves: seq<Move>, more: seq<Move>, s: Sys)
    ensures Leads(Execute(moves), more, s) <==> s == Execute(moves + more)
  {
    LeadsIsContinue(Execute(moves), more, s);
    ContinueIsExecute(moves, more);
  }

  // ---- Conservation of messages ----------------------------------------------------------------

  /** Every message published is in exactly one place. */
  ghost predicate Partitioned(b: Broker) {
    && (forall n :: n in b.bodies <==> n in b.queued || n in b.inflight || n in b.acked || n in b.dead)
    && (forall n :: n in b.queued ==> n !in b.inflight && n !in b.acked && n !in b.dead)
    && (forall n :: n in b.inflight ==> n !in b.acked && n !in b.dead)
    && (forall n :: n in b.acked ==> n !in b.dead)
    && |b.inflight| <= PREFETCH
  }

  /** A delivery knows whether it got a 2xx, and is acknowledged exactly then. */
  ghost predicate AnswersKnown(b: Broker) {
    && (forall n :: n in b.answered ==> n in b.bodies && n !in b.queued && n !in b.dead)
    && (forall n :: n in b.inflight ==> (n in b.answered <==> Positive(b.inflight[n])))
    && (forall n :: n in b.acked ==> n in b.answered)
  }

  predicate Positive(phase: Phase) {
    (phase.Decided? || phase.Written?) && phase.ok
  }

  ghost predicate BrokerOk(b: Broker) {
    Partitioned(b) && AnswersKnown(b)
  }

  lemma EnqueueKeepsBroker(b: Broker, n: Serial, body: Body)
    requires BrokerOk(b) && n !in b.bodies
    ensures BrokerOk(Enqueue(b, n, body))
  {
  }

  lemma DequeueKeepsBroker(b: Broker, n: Serial)
    requires BrokerOk(b) && n in b.queued && |b.inflight| < PREFETCH
    ensures BrokerOk(Dequeue(b, n))
  {
    SizeAfterUpdate(b.inflight, n, Taken);
  }

  lemma SizeAfterUpdate(inflight: map<Serial, Phase>, n: Serial, phase: Phase)
    ensures |inflight[n := phase]| == |inflight| + if n in inflight then 0 else 1
  {
    assert inflight[n := phase].Keys == inflight.Keys + {n};
    assert |inflight| == |inflight.Keys| && |inflight[n := phase]| == |inflight[n := phase].Keys|;
  }

  lemma SizeAfterRemoval(inflight: map<Serial, Phase>, n: Serial)
    ensures |inflight - {n}| <= |inflight|
  {
    assert (inflight - {n}).Keys == inflight.Keys - {n};
    assert |inflight| == |inflight.Keys| && |inflight - {n}| == |(inflight - {n}).Keys|;
  }

  lemma AdvanceKeepsBroker(b: Broker, n: Serial, phase: Phase)
    requires BrokerOk(b) && n in b.inflight && (n in b.answered <==> Positive(phase))
    ensures BrokerOk(Advance(b, n, phase))
  {
    SizeAfterUpdate(b.inflight, n, phase);
  }

  lemma AnswerKeepsBroker(b: Broker, n: Serial, ok: bool)
    requires BrokerOk(b) && n in b.inflight && b.inflight[n].Granted?
    ensures BrokerOk(Answer(b, n, ok))
  {
    SizeAfterUpdate(b.inflight, n, Decided(ok));
  }

  lemma SettleKeepsBroker(b: Broker, n: Serial, ack: bool)
    requires BrokerOk(b) && n in b.inflight && (n in b.answered <==> ack)
    ensures BrokerOk(SettleIt(b, n, ack))
  {
    SizeAfterRemoval(b.inflight, n);
  }

  /** What a move makes of the queue. */
  lemma MoveKeepsBroker(s: Sys, m: Move)
    requires BrokerOk(s.broker)
    ensures BrokerOk(Do(s, m).broker)
  {
    var b := s.broker;
    if Can(s, m) {
      match m
      case Publish(h, n, up) => if up { EnqueueKeepsBroker(b, n, Webhook(s.front.ingests[h].event)); }
      case ReplayPublish(k, n, up) => if up { EnqueueKeepsBroker(b, n, Webhook(s.front.replays[k].current.value)); }
      case Intrude(n) => EnqueueKeepsBroker(b, n, Malformed);
      case Take(n) => DequeueKeepsBroker(b, n);
      case Reject(n) => SettleKeepsBroker(b, n, false);
      case Gate(n, pass) => AdvanceKeepsBroker(b, n, if pass then Granted else Decided(false));
      case Deliver(n, ok) => AnswerKeepsBroker(b, n, ok);
      case Write(n, up, error) => AdvanceKeepsBroker(b, n, Written(b.inflight[n].ok));
      case Settle(n) => SettleKeepsBroker(b, n, b.inflight[n].ok);
      case _ =>
    }
  }

  lemma {:induction false} ReachableBroker(moves: seq<Move>)
    ensures BrokerOk(Execute(moves).broker)
  {
    if moves != [] {
      ReachableBroker(moves[..|moves| - 1]);
      MoveKeepsBroker(Execute(moves[..|moves| - 1]), moves[|moves| - 1]);
    }
  }

  lemma MoveKeepsSettled(s: Sys, m: Move)
    ensures s.broker.acked <= Do(s, m).broker.acked && s.broker.dead <= Do(s, m).broker.dead
  {
    if Can(s, m) {
      match m
      case Reject(n) => assert Do(s, m).broker == SettleIt(s.broker, n, false);
      case Settle(n) => assert Do(s, m).broker == SettleIt(s.broker, n, s.broker.inflight[n].ok);
      case _ => assert Do(s, m).broker.acked == s.broker.acked && Do(s, m).broker.dead == s.broker.dead;
    }
  }

  lemma {:induction false} SettledStaysSettled(moves: seq<Move>, more: seq<Move>)
    ensures Execute(moves).broker.acked <= Execute(moves + more).broker.acked
    ensures Execute(moves).broker.dead <= Execute(moves + more).broker.dead
    decreases |more|
  {
    var all := moves + more;
    if more == [] {
      assert all == moves;
    } else {
      assert all[..|all| - 1] == moves + more[..|more| - 1];
      SettledStaysSettled(moves, more[..|more| - 1]);
      MoveKeepsSettled(Execute(all[..|all| - 1]), all[|all| - 1]);
    }
  }

  /**
   Messages are conserved: after any moves, what was published is queued, in flight,
   acknowledged or dead-lettered, each message in exactly one of these; at most 100 are in
   flight; a settled message is acknowledged if its delivery got a 2xx and dead-lettered
   otherwise; and whatever moves follow, it stays settled the same way.
   */
  lemma MessageConservation(moves: seq<Move>, more: seq<Move>)
    ensures var b := Execute(moves).broker;
            && multiset(b.bodies.Keys) == multiset(b.queued) + multiset(b.inflight.Keys) + multiset(b.acked) + multiset(b.dead)
            && |b.inflight| <= 100
            && (forall n :: n in b.acked || n in b.dead ==> (n in b.acked <==> n in b.answered))
            && b.acked !! b.dead
            && b.acked <= Execute(moves + more).broker.acked && b.dead <= Execute(moves + more).broker.dead
  {
    ReachableBroker(moves);
    SettledStaysSettled(moves, more);
    PlacesAddUp(Execute(moves).broker);
  }

  lemma PlacesAddUp(b: Broker)
    requires Partitioned(b)
    ensures multiset(b.bodies.Keys) == multiset(b.queued) + multiset(b.inflight.Keys) + multiset(b.acked) + multiset(b.dead)
  {
    assert b.bodies.Keys == b.queued + b.inflight.Keys + b.acked + b.dead;
  }

  // ---- Who answers for a row -----------------------------------------------------------------------

  /** The event carries what its row says. */
  ghost predicate Matches(rows: Rows, e: Event) {
    e.id in rows && rows[e.id].url == e.url && rows[e.id].payload == e.payload
  }

  ghost predicate HeldBy(l: Ledger, id: Id, holder: Holder) {
    id in l.rows && id in l.holder && l.holder[id] == holder
  }

  /** Pending rows are the ones somebody answers for, or nobody does any more. */
  ghost predicate RowsHeld(l: Ledger) {
    && (forall id :: id in l.holder ==> id in l.rows)
    && (forall id :: id in l.rows ==> id in l.used && (l.rows[id].status == Pending <==> id in l.holder))
  }

  /** A live message of a stored event is the one that answers for the row. */
  ghost predicate MessageHeld(l: Ledger, b: Broker, n: Serial)
    requires CarriesEvent(b, n)
  {
    var e := b.bodies[n].event;
    && e.id in l.used
    && (e.id in l.rows ==> Matches(l.rows, e) && (Live(b, n) ==> HeldBy(l, e.id, ByMessage(n))))
  }

  ghost predicate MessagesHeld(l: Ledger, b: Broker) {
    forall n :: CarriesEvent(b, n) ==> MessageHeld(l, b, n)
  }

  ghost predicate IngestHeld(l: Ledger, h: Handler, i: Ingest) {
    && i.event.id in l.used
    && KeyTaken(l.rows, EffectiveKey(i.event))
    && (if i.inserted then Matches(l.rows, i.event) && HeldBy(l, i.event.id, ByHandler(h)) else i.event.id !in l.rows)
  }

  ghost predicate IngestsHeld(l: Ledger, f: Front) {
    forall h :: h in f.ingests ==> IngestHeld(l, h, f.ingests[h])
  }

  ghost predicate ReplayHeld(l: Ledger, k: Session, r: Replay) {
    && (forall id :: id in r.todo ==> Replayable(l.rows, r.apiKey, id) && r.todo[id].id == id && Matches(l.rows, r.todo[id]))
    && (r.current.Some? ==> Matches(l.rows, r.current.value) && HeldBy(l, r.current.value.id, ByReplay(k)))
  }

  ghost predicate ReplaysHeld(l: Ledger, f: Front) {
    forall k :: k in f.replays ==> ReplayHeld(l, k, f.replays[k])
  }

  /** Whoever is said to answer for a row really does. */
  ghost predicate HolderReal(s: Sys, id: Id, holder: Holder) {
    match holder
    case ByHandler(h) => h in s.front.ingests && s.front.ingests[h].inserted && s.front.ingests[h].event.id == id
    case ByReplay(k) => k in s.front.replays && s.front.replays[k].current.Some? && s.front.replays[k].current.value.id == id
    case ByMessage(n) => CarriesEvent(s.broker, n) && s.broker.bodies[n].event.id == id && Live(s.broker, n)
    case Lost => true
  }

  ghost predicate HoldersReal(s: Sys) {
    forall id :: id in s.ledger.holder ==> HolderReal(s, id, s.ledger.holder[id])
  }

  ghost function LostIds(l: Ledger): set<Id> {
    set id | id in l.holder && l.holder[id] == Lost
  }

  ghost predicate FailuresCounted(l: Ledger) {
    |LostIds(l)| == l.publishFailures + l.writeFailures
  }

  ghost predicate AcceptedStored(l: Ledger, f: Front) {
    forall key :: key in f.accepted ==> KeyTaken(l.rows, key)
  }

  /** A row marked delivered was: one of its messages got a 2xx. */
  ghost predicate SuccessAnswered(l: Ledger, b: Broker) {
    forall id :: id in l.rows && l.rows[id].status == Success ==> Answered(b, id)
  }

  ghost predicate Answered(b: Broker, id: Id) {
    exists n :: n in b.answered && CarriesEvent(b, n) && b.bodies[n].event.id == id
  }

  ghost predicate Accounted(s: Sys) {
    && RowsHeld(s.ledger)
    && MessagesHeld(s.ledger, s.broker)
    && IngestsHeld(s.ledger, s.front)
    && ReplaysHeld(s.ledger, s.front)
    && HoldersReal(s)
    && FailuresCounted(s.ledger)
  }

  /** No two replays of one API key are in progress. */
  ghost predicate OneReplayPerKey(f: Front) {
    forall j, k :: j in f.replays && k in f.replays && f.replays[j].apiKey == f.replays[k].apiKey ==> j == k
  }

  /** The move does not start a replay while another one of the same API key is in progress. */
  ghost predicate InTurn(s: Sys, m: Move) {
    m.ReplayStart? ==> forall k :: k in s.front.replays ==> s.front.replays[k].apiKey != m.apiKey
  }

  /** Replays of each API key run one at a time. */
  ghost predicate SerialRun(moves: seq<Move>) {
    moves == [] || (SerialRun(moves[..|moves| - 1]) && InTurn(Execute(moves[..|moves| - 1]), moves[|moves| - 1]))
  }

  lemma MoveKeepsOneReplay(s: Sys, m: Move)
    requires OneReplayPerKey(s.front) && InTurn(s, m)
    ensures OneReplayPerKey(Do(s, m).front)
  {
  }

  lemma {:induction false} SerialStart(moves: seq<Move>, more: seq<Move>)
    requires SerialRun(moves + more)
    ensures SerialRun(moves)
    decreases |more|
  {
    var all := moves + more;
    if more == [] {
      assert all == moves;
    } else {
      assert all[..|all| - 1] == moves + more[..|more| - 1];
      SerialStart(moves, more[..|more| - 1]);
    }
  }

  // Moves of the worker that leave the table alone: each message keeps its place in the account.

  /** The queue changed, but live messages with events stayed live and bodies stayed the same. */
  ghost predicate SameMessages(b: Broker, b': Broker) {
    && (forall n :: CarriesEvent(b', n) <==> CarriesEvent(b, n))
    && (forall n :: CarriesEvent(b, n) ==> b'.bodies[n] == b.bodies[n] && (Live(b', n) <==> Live(b, n)))
  }

  lemma QueueMoveKeepsAccount(s: Sys, b: Broker)
    requires Accounted(s) && SameMessages(s.broker, b)
    ensures Accounted(s.(broker := b))
  {
    var s' := s.(broker := b);
    forall n | CarriesEvent(b, n)
      ensures MessageHeld(s.ledger, b, n)
    {
      assert MessageHeld(s.ledger, s.broker, n);
    }
    forall id | id in s.ledger.holder
      ensures HolderReal(s', id, s.ledger.holder[id])
    {
      assert HolderReal(s, id, s.ledger.holder[id]);
    }
  }

  lemma QueueMovesKeepMessages(s: Sys, m: Move)
    requires BrokerOk(s.broker) && Can(s, m)
    requires m.Intrude? || m.Take? || m.Reject? || m.Gate? || m.Deliver? || m.Settle?
    ensures SameMessages(s.broker, Do(s, m).broker) && Do(s, m) == s.(broker := Do(s, m).broker)
  {
  }

  // Moves that change the table's account, one event at a time.

  /** Only event `x`'s place in the account changes; its row keeps its content. */
  ghost predicate ChangesOnly(l: Ledger, l': Ledger, x: Id) {
    && l.used <= l'.used
    && (forall id :: id != x ==> (id in l'.rows <==> id in l.rows) && (id in l.rows ==> l'.rows[id] == l.rows[id]))
    && (forall id :: id != x ==> (id in l'.holder <==> id in l.holder) && (id in l.holder ==> l'.holder[id] == l.holder[id]))
    && RowsPersist(l.rows, l'.rows)
  }

  lemma KeysStayTaken(rows: Rows, rows': Rows, key: string)
    requires RowsPersist(rows, rows') && KeyTaken(rows, key)
    ensures KeyTaken(rows', key)
  {
    var id :| id in rows && rows[id].idempotencyKey == key;
    assert rows'[id].idempotencyKey == key;
  }

  lemma OtherMessageHeld(l: Ledger, l': Ledger, b: Broker, b': Broker, x: Id, n: Serial)
    requires ChangesOnly(l, l', x) && CarriesEvent(b, n) && MessageHeld(l, b, n)
    requires CarriesEvent(b', n) && b'.bodies[n] == b.bodies[n] && (Live(b', n) ==> Live(b, n))
    requires b.bodies[n].event.id != x || (x in l.rows && !Live(b', n))
    ensures MessageHeld(l', b', n)
  {
  }

  lemma OtherIngestHeld(l: Ledger, l': Ledger, x: Id, h: Handler, i: Ingest)
    requires ChangesOnly(l, l', x) && IngestHeld(l, h, i) && i.event.id != x
    ensures IngestHeld(l', h, i)
  {
    KeysStayTaken(l.rows, l'.rows, EffectiveKey(i.event));
  }

  lemma OtherReplayHeld(l: Ledger, l': Ledger, x: Id, k: Session, r: Replay)
    requires ChangesOnly(l, l', x) && ReplayHeld(l, k, r)
    requires x !in r.todo && (r.current.Some? ==> r.current.value.id != x)
    ensures ReplayHeld(l', k, r)
  {
  }

  /** Nobody else is busy with an event that `holder` answers for. */
  lemma SoleHolder(s: Sys, x: Id, holder: Holder)
    requires Accounted(s) && HeldBy(s.ledger, x, holder)
    ensures forall n :: CarriesEvent(s.broker, n) && s.broker.bodies[n].event.id == x && Live(s.broker, n) ==> holder == ByMessage(n)
    ensures forall h :: h in s.front.ingests && s.front.ingests[h].event.id == x ==> holder == ByHandler(h)
    ensures forall k :: k in s.front.replays ==> x !in s.front.replays[k].todo
    ensures forall k :: k in s.front.replays && s.front.replays[k].current.Some? && s.front.replays[k].current.value.id == x ==>
              holder == ByReplay(k)
  {
    assert forall n :: CarriesEvent(s.broker, n) ==> MessageHeld(s.ledger, s.broker, n);
    assert forall h :: h in s.front.ingests ==> IngestHeld(s.ledger, h, s.front.ingests[h]);
    assert forall k :: k in s.front.replays ==> ReplayHeld(s.ledger, k, s.front.replays[k]);
  }

  /** A fresh event id is nobody's. */
  lemma FreshIsUnknown(s: Sys, x: Id)
    requires Accounted(s) && x !in s.ledger.used
    ensures x !in s.ledger.rows && x !in s.ledger.holder
    ensures forall n :: CarriesEvent(s.broker, n) ==> s.broker.bodies[n].event.id != x
    ensures forall h :: h in s.front.ingests ==> s.front.ingests[h].event.id != x
    ensures forall k :: k in s.front.replays ==>
              x !in s.front.replays[k].todo && (s.front.replays[k].current.Some? ==> s.front.replays[k].current.value.id != x)
  {
    assert forall n :: CarriesEvent(s.broker, n) ==> MessageHeld(s.ledger, s.broker, n);
    assert forall h :: h in s.front.ingests ==> IngestHeld(s.ledger, h, s.front.ingests[h]);
    assert forall k :: k in s.front.replays ==> ReplayHeld(s.ledger, k, s.front.replays[k]);
  }

  lemma LostUnchanged(l: Ledger, l': Ledger, x: Id)
    requires ChangesOnly(l, l', x)
    requires (x in l.holder && l.holder[x] == Lost) <==> (x in l'.holder && l'.holder[x] == Lost)
    ensures LostIds(l') == LostIds(l)
  {
  }

  lemma LostGrows(l: Ledger, l': Ledger, x: Id)
    requires ChangesOnly(l, l', x) && (x in l.holder ==> l.holder[x] != Lost) && x in l'.holder && l'.holder[x] == Lost
    ensures |LostIds(l')| == |LostIds(l)| + 1
  {
    assert LostIds(l') == LostIds(l) + {x};
  }

  // What a move that concerns event `x` must show: everything else is as it was.

  ghost predicate MessagesElsewhere(s: Sys, s': Sys, x: Id) {
    forall n :: CarriesEvent(s'.broker, n) ==>
      || MessageHeld(s'.ledger, s'.broker, n)
      || (&& CarriesEvent(s.broker, n) && s'.broker.bodies[n] == s.broker.bodies[n]
          && (Live(s'.broker, n) ==> Live(s.broker, n))
          && (s.broker.bodies[n].event.id != x || (x in s.ledger.rows && !Live(s'.broker, n))))
  }

  ghost predicate IngestsElsewhere(s: Sys, s': Sys, x: Id) {
    forall h :: h in s'.front.ingests ==>
      || IngestHeld(s'.ledger, h, s'.front.ingests[h])
      || (h in s.front.ingests && s'.front.ingests[h] == s.front.ingests[h] && s.front.ingests[h].event.id != x)
  }

  ghost predicate ReplaysElsewhere(s: Sys, s': Sys, x: Id) {
    forall k :: k in s'.front.replays ==>
      || ReplayHeld(s'.ledger, k, s'.front.replays[k])
      || (&& k in s.front.replays && s'.front.replays[k] == s.front.replays[k]
          && x !in s.front.replays[k].todo
          && (s.front.replays[k].current.Some? ==> s.front.replays[k].current.value.id != x))
  }

  ghost predicate HoldersElsewhere(s: Sys, s': Sys, x: Id) {
    forall id :: id in s'.ledger.holder ==>
      || HolderReal(s', id, s'.ledger.holder[id])
      || (id != x && (HolderReal(s, id, s'.ledger.holder[id]) ==> HolderReal(s', id, s'.ledger.holder[id])))
  }

  ghost predicate Elsewhere(s: Sys, s': Sys, x: Id) {
    MessagesElsewhere(s, s', x) && IngestsElsewhere(s, s', x) && ReplaysElsewhere(s, s', x) && HoldersElsewhere(s, s', x)
  }

  lemma ElsewhereKeepsAccount(s: Sys, s': Sys, x: Id)
    requires Accounted(s) && Elsewhere(s, s', x)
    requires ChangesOnly(s.ledger, s'.ledger, x) && RowsHeld(s'.ledger) && FailuresCounted(s'.ledger)
    ensures Accounted(s')
  {
    forall n | CarriesEvent(s'.broker, n)
      ensures MessageHeld(s'.ledger, s'.broker, n)
    {
      if !MessageHeld(s'.ledger, s'.broker, n) {
        OtherMessageHeld(s.ledger, s'.ledger, s.broker, s'.broker, x, n);
      }
    }
    forall h | h in s'.front.ingests
      ensures IngestHeld(s'.ledger, h, s'.front.ingests[h])
    {
      if !IngestHeld(s'.ledger, h, s'.front.ingests[h]) {
        OtherIngestHeld(s.ledger, s'.ledger, x, h, s.front.ingests[h]);
      }
    }
    forall k | k in s'.front.replays
      ensures ReplayHeld(s'.ledger, k, s'.front.replays[k])
    {
      if !ReplayHeld(s'.ledger, k, s'.front.replays[k]) {
        OtherReplayHeld(s.ledger, s'.ledger, x, k, s.front.replays[k]);
      }
    }
    forall id | id in s'.ledger.holder
      ensures HolderReal(s', id, s'.ledger.holder[id])
    {
      if id != x {
        assert HolderReal(s, id, s.ledger.holder[id]);
      }
    }
  }

  lemma SaveKeepsAccount(s: Sys, h: Handler, e: Event)
    requires Accounted(s) && Can(s, Save(h, e))
    ensures Accounted(DoSave(s, h, e))
  {
    var s' := DoSave(s, h, e);
    FreshIsUnknown(s, e.id);
    SaveLedger(s, h, e);
    LostUnchanged(s.ledger, s'.ledger, e.id);
    ElsewhereKeepsAccount(s, s', e.id);
  }

  lemma SaveLedger(s: Sys, h: Handler, e: Event)
    requires Accounted(s) && Can(s, Save(h, e)) && e.id !in s.ledger.rows && e.id !in s.ledger.holder
    ensures var s' := DoSave(s, h, e);
            && ChangesOnly(s.ledger, s'.ledger, e.id)
            && RowsHeld(s'.ledger)
            && IngestHeld(s'.ledger, h, s'.front.ingests[h])
            && s'.ledger.publishFailures == s.ledger.publishFailures && s'.ledger.writeFailures == s.ledger.writeFailures
            && (e.id in s'.ledger.holder ==> s'.ledger.holder[e.id] == ByHandler(h))
  {
    InsertTakesKey(s.ledger.rows, e);
    if !KeyTaken(s.ledger.rows, EffectiveKey(e)) {
      InsertedLedger(s.ledger, h, e);
    }
  }

  lemma InsertedLedger(l: Ledger, h: Handler, e: Event)
    requires RowsHeld(l) && e.id !in l.rows && e.id !in l.holder
    ensures var l' := Hold(l.(rows := l.rows[e.id := RowOf(e)], used := l.used + {e.id}), e.id, ByHandler(h));
            && ChangesOnly(l, l', e.id) && RowsHeld(l')
            && Matches(l'.rows, e) && HeldBy(l', e.id, ByHandler(h))
  {
  }

  lemma InsertTakesKey(rows: Rows, e: Event)
    ensures KeyTaken(Insert(rows, e), EffectiveKey(e))
  {
    if !KeyTaken(rows, EffectiveKey(e)) {
      assert Insert(rows, e)[e.id].idempotencyKey == EffectiveKey(e);
    }
  }

  /** One holder hands an event to another, or to nobody. */
  lemma HandOver(l: Ledger, x: Id, to: Holder)
    requires RowsHeld(l) && FailuresCounted(l) && x in l.holder && l.holder[x] != Lost
    ensures ChangesOnly(l, Hold(l, x, to), x) && RowsHeld(Hold(l, x, to)) && HeldBy(Hold(l, x, to), x, to)
    ensures |LostIds(Hold(l, x, to))| == l.publishFailures + l.writeFailures + if to == Lost then 1 else 0
  {
    if to == Lost {
      LostGrows(l, Hold(l, x, to), x);
    } else {
      LostUnchanged(l, Hold(l, x, to), x);
    }
  }

  /** No live message of event `x`. */
  ghost predicate Quiet(b: Broker, x: Id) {
    forall n :: CarriesEvent(b, n) && b.bodies[n].event.id == x ==> !Live(b, n)
  }

  /** Publishing event `e` as message `n`, or failing to, when no live message of it exists. */
  lemma PublishedMessagesElsewhere(s: Sys, s': Sys, e: Event, n: Serial, up: bool)
    requires BrokerOk(s.broker) && n !in s.broker.bodies && Quiet(s.broker, e.id)
    requires Matches(s.ledger.rows, e) && e.id in s.ledger.used
    requires s'.ledger.rows == s.ledger.rows && s'.ledger.used == s.ledger.used
    requires up ==> HeldBy(s'.ledger, e.id, ByMessage(n))
    requires s'.broker == if up then Enqueue(s.broker, n, Webhook(e)) else s.broker
    ensures MessagesElsewhere(s, s', e.id)
  {
    forall m | CarriesEvent(s'.broker, m) && m != n
      ensures CarriesEvent(s.broker, m) && s'.broker.bodies[m] == s.broker.bodies[m] && (Live(s'.broker, m) <==> Live(s.broker, m))
    {
    }
  }

  /** Holders of other events are untouched when messages only join and other requests stay. */
  lemma PublishedHoldersElsewhere(s: Sys, s': Sys, x: Id, n: Serial)
    requires n !in s.broker.bodies
    requires s'.broker == s.broker || exists e :: s'.broker == Enqueue(s.broker, n, Webhook(e))
    requires forall h :: h in s.front.ingests && s.front.ingests[h].event.id != x ==>
               h in s'.front.ingests && s'.front.ingests[h] == s.front.ingests[h]
    requires forall k :: k in s.front.replays && s.front.replays[k].current.Some? && s.front.replays[k].current.value.id != x ==>
               k in s'.front.replays && s'.front.replays[k].current == s.front.replays[k].current
    requires x in s'.ledger.holder ==> HolderReal(s', x, s'.ledger.holder[x])
    ensures HoldersElsewhere(s, s', x)
  {
    forall id | id in s'.ledger.holder && id != x && HolderReal(s, id, s'.ledger.holder[id])
      ensures HolderReal(s', id, s'.ledger.holder[id])
    {
    }
  }

  lemma InsertedPublishElsewhere(s: Sys, h: Handler, n: Serial, up: bool)
    requires Accounted(s) && BrokerOk(s.broker) && Can(s, Publish(h, n, up)) && s.front.ingests[h].inserted
    ensures Elsewhere(s, DoPublish(s, h, n, up), s.front.ingests[h].event.id)
  {
    var s' := DoPublish(s, h, n, up);
    var e := s.front.ingests[h].event;
    assert IngestHeld(s.ledger, h, s.front.ingests[h]);
    SoleHolder(s, e.id, ByHandler(h));
    PublishedMessagesElsewhere(s, s', e, n, up);
    assert IngestsElsewhere(s, s', e.id);
    assert ReplaysElsewhere(s, s', e.id);
    PublishedHoldersElsewhere(s, s', e.id, n);
  }

  /** A new message with an event of no row, or of a row that answers to the message. */
  lemma PublishKeepsAccount(s: Sys, h: Handler, n: Serial, up: bool)
    requires Accounted(s) && BrokerOk(s.broker) && Can(s, Publish(h, n, up))
    ensures Accounted(DoPublish(s, h, n, up))
  {
    var s' := DoPublish(s, h, n, up);
    var e, inserted := s.front.ingests[h].event, s.front.ingests[h].inserted;
    assert IngestHeld(s.ledger, h, s.front.ingests[h]);
    if inserted {
      HandOver(s.ledger, e.id, if up then ByMessage(n) else Lost);
      InsertedPublishElsewhere(s, h, n, up);
      ElsewhereKeepsAccount(s, s', e.id);
    } else {
      DuplicateKeepsAccount(s, h, n, up);
    }
  }

  lemma DuplicateKeepsAccount(s: Sys, h: Handler, n: Serial, up: bool)
    requires Accounted(s) && BrokerOk(s.broker) && Can(s, Publish(h, n, up)) && !s.front.ingests[h].inserted
    ensures Accounted(DoPublish(s, h, n, up))
  {
    var s' := DoPublish(s, h, n, up);
    var e := s.front.ingests[h].event;
    assert IngestHeld(s.ledger, h, s.front.ingests[h]);
    assert s'.ledger == s.ledger && e.id !in s.ledger.rows;
    forall m | CarriesEvent(s'.broker, m)
      ensures MessageHeld(s'.ledger, s'.broker, m)
    {
      if m != n {
        assert MessageHeld(s.ledger, s.broker, m);
      }
    }
    forall g | g in s'.front.ingests
      ensures IngestHeld(s'.ledger, g, s'.front.ingests[g])
    {
      assert IngestHeld(s.ledger, g, s.front.ingests[g]);
    }
    forall id | id in s'.ledger.holder
      ensures HolderReal(s', id, s'.ledger.holder[id])
    {
      assert HolderReal(s, id, s.ledger.holder[id]);
    }
  }

  lemma ReplayFrontKeepsAccount(s: Sys, k: Session, f: Front)
    requires Accounted(s) && f.ingests == s.front.ingests
    requires forall j :: j != k ==> (j in f.replays <==> j in s.front.replays) && (j in f.replays ==> f.replays[j] == s.front.replays[j])
    requires k in f.replays ==> ReplayHeld(s.ledger, k, f.replays[k])
    requires k in s.front.replays && s.front.replays[k].current.Some? ==>
               k in f.replays && f.replays[k].current == s.front.replays[k].current
    ensures Accounted(s.(front := f))
  {
    var s' := s.(front := f);
    forall id | id in s'.ledger.holder
      ensures HolderReal(s', id, s'.ledger.holder[id])
    {
      assert HolderReal(s, id, s.ledger.holder[id]);
    }
    forall j | j in f.replays
      ensures ReplayHeld(s.ledger, j, f.replays[j])
    {
      if j != k {
        assert ReplayHeld(s.ledger, j, s.front.replays[j]);
      }
    }
  }

  lemma ResetElsewhere(s: Sys, k: Session, id: Id)
    requires Accounted(s) && OneReplayPerKey(s.front) && Can(s, ReplayReset(k, id, true))
    ensures Elsewhere(s, DoReplayReset(s, k, id, true), id)
  {
    ResetMessagesElsewhere(s, k, id);
    ResetReplaysElsewhere(s, k, id);
    ResetHoldersElsewhere(s, k, id);
  }

  lemma ResetMessagesElsewhere(s: Sys, k: Session, id: Id)
    requires Accounted(s) && OneReplayPerKey(s.front) && Can(s, ReplayReset(k, id, true))
    ensures MessagesElsewhere(s, DoReplayReset(s, k, id, true), id) && IngestsElsewhere(s, DoReplayReset(s, k, id, true), id)
  {
    FailedIsFree(s, k, id);
  }

  lemma ResetHoldersElsewhere(s: Sys, k: Session, id: Id)
    requires Accounted(s) && OneReplayPerKey(s.front) && Can(s, ReplayReset(k, id, true))
    ensures HoldersElsewhere(s, DoReplayReset(s, k, id, true), id)
  {
    var s' := DoReplayReset(s, k, id, true);
    assert ReplayHeld(s.ledger, k, s.front.replays[k]);
    forall x | x in s'.ledger.holder && x != id && HolderReal(s, x, s'.ledger.holder[x])
      ensures HolderReal(s', x, s'.ledger.holder[x])
    {
    }
  }

  lemma ResetReplaysElsewhere(s: Sys, k: Session, id: Id)
    requires Accounted(s) && OneReplayPerKey(s.front) && Can(s, ReplayReset(k, id, true))
    ensures ReplaysElsewhere(s, DoReplayReset(s, k, id, true), id)
  {
    var s' := DoReplayReset(s, k, id, true);
    assert ReplayHeld(s.ledger, k, s.front.replays[k]);
    FailedIsFree(s, k, id);
    assert ReplayHeld(s'.ledger, k, s'.front.replays[k]);
  }

  lemma ResetLedger(s: Sys, k: Session, id: Id)
    requires Accounted(s) && OneReplayPerKey(s.front) && Can(s, ReplayReset(k, id, true))
    ensures var l' := DoReplayReset(s, k, id, true).ledger;
            ChangesOnly(s.ledger, l', id) && RowsHeld(l') && FailuresCounted(l')
  {
    FailedIsFree(s, k, id);
    ReopenLedger(s.ledger, id, ByReplay(k));
  }

  /** A row reset to pending has somebody answering for it again. */
  lemma ReopenLedger(l: Ledger, x: Id, holder: Holder)
    requires RowsHeld(l) && FailuresCounted(l) && x in l.rows && x !in l.holder && holder != Lost
    ensures var l' := Hold(l, x, holder).(rows := SetStatus(l.rows, x, Pending, ""));
            ChangesOnly(l, l', x) && RowsHeld(l') && FailuresCounted(l')
  {
    LostUnchanged(l, Hold(l, x, holder).(rows := SetStatus(l.rows, x, Pending, "")), x);
  }

  lemma ReplayResetKeepsAccount(s: Sys, k: Session, id: Id, up: bool)
    requires Accounted(s) && OneReplayPerKey(s.front) && Can(s, ReplayReset(k, id, up))
    ensures Accounted(DoReplayReset(s, k, id, up))
  {
    if up {
      ResetLedger(s, k, id);
      ResetElsewhere(s, k, id);
      ElsewhereKeepsAccount(s, DoReplayReset(s, k, id, up), id);
    } else {
      assert ReplayHeld(s.ledger, k, s.front.replays[k]);
      ReplayFrontKeepsAccount(s, k, DoReplayReset(s, k, id, up).front);
    }
  }

  /** A failed event waiting to be replayed is nobody else's: no live message, no handler, no other replay. */
  lemma FailedIsFree(s: Sys, k: Session, id: Id)
    requires Accounted(s) && OneReplayPerKey(s.front) && k in s.front.replays && id in s.front.replays[k].todo
    ensures id in s.ledger.rows && id !in s.ledger.holder && s.ledger.rows[id].apiKey == s.front.replays[k].apiKey
    ensures forall n :: CarriesEvent(s.broker, n) && s.broker.bodies[n].event.id == id ==> !Live(s.broker, n)
    ensures forall h :: h in s.front.ingests ==> s.front.ingests[h].event.id != id
    ensures forall j :: j in s.front.replays && j != k ==> id !in s.front.replays[j].todo
    ensures forall j :: j in s.front.replays && s.front.replays[j].current.Some? ==> s.front.replays[j].current.value.id != id
  {
    assert forall n :: CarriesEvent(s.broker, n) ==> MessageHeld(s.ledger, s.broker, n);
    assert forall h :: h in s.front.ingests ==> IngestHeld(s.ledger, h, s.front.ingests[h]);
    assert forall j :: j in s.front.replays ==> ReplayHeld(s.ledger, j, s.front.replays[j]);
  }

  lemma ReplayPublishElsewhere(s: Sys, k: Session, n: Serial, up: bool)
    requires Accounted(s) && BrokerOk(s.broker) && Can(s, ReplayPublish(k, n, up))
    ensures Elsewhere(s, DoReplayPublish(s, k, n, up), s.front.replays[k].current.value.id)
  {
    var s' := DoReplayPublish(s, k, n, up);
    var x := s.front.replays[k].current.value.id;
    assert ReplayHeld(s.ledger, k, s.front.replays[k]);
    SoleHolder(s, x, ByReplay(k));
    PublishedMessagesElsewhere(s, s', s.front.replays[k].current.value, n, up);
    assert IngestsElsewhere(s, s', x);
    assert ReplaysElsewhere(s, s', x) by {
      assert ReplayHeld(s'.ledger, k, s'.front.replays[k]);
    }
    PublishedHoldersElsewhere(s, s', x, n);
  }

  lemma ReplayPublishKeepsAccount(s: Sys, k: Session, n: Serial, up: bool)
    requires Accounted(s) && BrokerOk(s.broker) && Can(s, ReplayPublish(k, n, up))
    ensures Accounted(DoReplayPublish(s, k, n, up))
  {
    var x := s.front.replays[k].current.value.id;
    assert ReplayHeld(s.ledger, k, s.front.replays[k]);
    HandOver(s.ledger, x, if up then ByMessage(n) else Lost);
    ReplayPublishElsewhere(s, k, n, up);
    ElsewhereKeepsAccount(s, DoReplayPublish(s, k, n, up), x);
  }

  lemma WriteElsewhere(s: Sys, n: Serial, up: bool, error: string)
    requires Accounted(s) && BrokerOk(s.broker) && Can(s, Write(n, up, error)) && s.broker.bodies[n].event.id in s.ledger.rows
    ensures Elsewhere(s, DoWrite(s, n, up, error), s.broker.bodies[n].event.id)
  {
    var s' := DoWrite(s, n, up, error);
    var x := s.broker.bodies[n].event.id;
    assert MessageHeld(s.ledger, s.broker, n) && Live(s.broker, n);
    SoleHolder(s, x, ByMessage(n));
    WrittenMessagesElsewhere(s, s', n, x);
    assert IngestsElsewhere(s, s', x);
    assert ReplaysElsewhere(s, s', x);
    WrittenHoldersElsewhere(s, s', n, x);
  }

  /** Only the written message stops being live. */
  lemma WrittenMessagesElsewhere(s: Sys, s': Sys, n: Serial, x: Id)
    requires n in s.broker.inflight && s.broker.inflight[n].Decided? && n !in s.broker.queued && x in s.ledger.rows
    requires s'.broker == Advance(s.broker, n, Written(s.broker.inflight[n].ok))
    requires forall m :: CarriesEvent(s.broker, m) && s.broker.bodies[m].event.id == x && Live(s.broker, m) ==> m == n
    ensures MessagesElsewhere(s, s', x)
  {
  }

  lemma WrittenHoldersElsewhere(s: Sys, s': Sys, n: Serial, x: Id)
    requires CarriesEvent(s.broker, n) && s.broker.bodies[n].event.id == x
    requires n in s.broker.inflight && s'.broker == Advance(s.broker, n, Written(Positive(s.broker.inflight[n])))
    requires s'.front == s.front && (x in s'.ledger.holder ==> s'.ledger.holder[x] == Lost)
    ensures HoldersElsewhere(s, s', x)
  {
  }

  /** A row that gets its final status has nobody answering for it any more. */
  lemma ReleaseLedger(l: Ledger, x: Id, status: Status, error: string)
    requires RowsHeld(l) && FailuresCounted(l) && x in l.holder && l.holder[x] != Lost && status != Pending
    ensures var l' := l.(rows := SetStatus(l.rows, x, status, error), holder := l.holder - {x});
            ChangesOnly(l, l', x) && RowsHeld(l') && FailuresCounted(l')
  {
    LostUnchanged(l, l.(rows := SetStatus(l.rows, x, status, error), holder := l.holder - {x}), x);
  }

  lemma WriteLedger(s: Sys, n: Serial, up: bool, error: string)
    requires Accounted(s) && BrokerOk(s.broker) && Can(s, Write(n, up, error)) && s.broker.bodies[n].event.id in s.ledger.rows
    ensures var l' := DoWrite(s, n, up, error).ledger;
            ChangesOnly(s.ledger, l', s.broker.bodies[n].event.id) && RowsHeld(l') && FailuresCounted(l')
  {
    var x := s.broker.bodies[n].event.id;
    assert MessageHeld(s.ledger, s.broker, n) && Live(s.broker, n);
    if up {
      ReleaseLedger(s.ledger, x, if s.broker.inflight[n].ok then Success else Failed, error);
    } else {
      HandOver(s.ledger, x, Lost);
    }
  }

  lemma WriteKeepsAccount(s: Sys, n: Serial, up: bool, error: string)
    requires Accounted(s) && BrokerOk(s.broker) && Can(s, Write(n, up, error))
    ensures Accounted(DoWrite(s, n, up, error))
  {
    var x := s.broker.bodies[n].event.id;
    if x in s.ledger.rows {
      WriteLedger(s, n, up, error);
      WriteElsewhere(s, n, up, error);
      ElsewhereKeepsAccount(s, DoWrite(s, n, up, error), x);
    } else {
      WriteWithoutRow(s, n, DoWrite(s, n, up, error).broker);
    }
  }

  lemma WriteWithoutRow(s: Sys, n: Serial, b: Broker)
    requires Accounted(s) && n in s.broker.inflight && CarriesEvent(s.broker, n)
    requires s.broker.bodies[n].event.id !in s.ledger.rows
    requires s.broker.inflight[n].Decided? && b == Advance(s.broker, n, Written(s.broker.inflight[n].ok))
    ensures Accounted(s.(broker := b))
  {
    var s' := s.(broker := b);
    forall m | CarriesEvent(b, m)
      ensures MessageHeld(s.ledger, b, m)
    {
      assert MessageHeld(s.ledger, s.broker, m);
    }
    forall id | id in s.ledger.holder
      ensures HolderReal(s', id, s.ledger.holder[id])
    {
      assert HolderReal(s, id, s.ledger.holder[id]);
    }
  }

  lemma ReplayStartKeepsAccount(s: Sys, k: Session, apiKey: string, only: Option<Id>)
    requires Accounted(s) && Can(s, ReplayStart(k, apiKey, only))
    ensures Accounted(DoReplayStart(s, k, apiKey, only))
  {
    ReplayFrontKeepsAccount(s, k, DoReplayStart(s, k, apiKey, only).front);
  }

  lemma MoveKeepsAccount(s: Sys, m: Move)
    requires Accounted(s) && BrokerOk(s.broker) && OneReplayPerKey(s.front)
    ensures Accounted(Do(s, m))
  {
    if Can(s, m) {
      match m
      case Save(h, e) => SaveKeepsAccount(s, h, e);
      case Publish(h, n, up) => PublishKeepsAccount(s, h, n, up);
      case ReplayStart(k, apiKey, only) => ReplayStartKeepsAccount(s, k, apiKey, only);
      case ReplayReset(k, id, up) => ReplayResetKeepsAccount(s, k, id, up);
      case ReplayPublish(k, n, up) => ReplayPublishKeepsAccount(s, k, n, up);
      case ReplayEnd(k) => ReplayFrontKeepsAccount(s, k, Do(s, m).front);
      case Write(n, up, error) => WriteKeepsAccount(s, n, up, error);
      case _ =>
        QueueMovesKeepMessages(s, m);
        QueueMoveKeepsAccount(s, Do(s, m).broker);
    }
  }

  lemma {:induction false} ReachableAccount(moves: seq<Move>)
    requires SerialRun(moves)
    ensures Accounted(Execute(moves)) && BrokerOk(Execute(moves).broker) && OneReplayPerKey(Execute(moves).front)
  {
    ReachableBroker(moves);
    if moves == [] {
      assert LostIds(INITIAL.ledger) == {};
    } else {
      var n := |moves| - 1;
      ReachableAccount(moves[..n]);
      MoveKeepsAccount(Execute(moves[..n]), moves[n]);
      MoveKeepsOneReplay(Execute(moves[..n]), moves[n]);
    }
  }

  // ---- Status against messages ------------------------------------------------------------------------

  /** Messages that may still change the row. */
  ghost function Unresolved(s: Sys, id: Id): set<Serial> {
    set n | n in s.broker.bodies && CarriesEvent(s.broker, n) && s.broker.bodies[n].event.id == id && Live(s.broker, n)
  }

  /** A handler has inserted the row, or a replay has reset it, and has yet to publish its message. */
  ghost predicate AboutToPublish(s: Sys, id: Id) {
    || (exists h :: h in s.front.ingests && s.front.ingests[h].inserted && s.front.ingests[h].event.id == id)
    || (exists k :: k in s.front.replays && s.front.replays[k].current.Some? && s.front.replays[k].current.value.id == id)
  }

  /** Pending rows that nothing will ever resolve. */
  ghost function Orphans(s: Sys): set<Id> {
    set id | id in s.ledger.rows && s.ledger.rows[id].status == Pending && Unresolved(s, id) == {} && !AboutToPublish(s, id)
  }

  lemma HolderDecides(s: Sys, id: Id)
    requires Accounted(s) && id in s.ledger.rows
    ensures id !in s.ledger.holder ==> Unresolved(s, id) == {} && !AboutToPublish(s, id)
    ensures id in s.ledger.holder && s.ledger.holder[id].ByMessage? ==>
              Unresolved(s, id) == {s.ledger.holder[id].serial} && !AboutToPublish(s, id)
    ensures id in s.ledger.holder && !s.ledger.holder[id].ByMessage? ==>
              Unresolved(s, id) == {} && (AboutToPublish(s, id) <==> s.ledger.holder[id] != Lost)
  {
    forall n | n in Unresolved(s, id)
      ensures id in s.ledger.holder && s.ledger.holder[id] == ByMessage(n)
    {
      assert MessageHeld(s.ledger, s.broker, n);
    }
    forall h | h in s.front.ingests && s.front.ingests[h].inserted && s.front.ingests[h].event.id == id
      ensures id in s.ledger.holder && s.ledger.holder[id] == ByHandler(h)
    {
      assert IngestHeld(s.ledger, h, s.front.ingests[h]);
    }
    forall k | k in s.front.replays && s.front.replays[k].current.Some? && s.front.replays[k].current.value.id == id
      ensures id in s.ledger.holder && s.ledger.holder[id] == ByReplay(k)
    {
      assert ReplayHeld(s.ledger, k, s.front.replays[k]);
    }
    if id in s.ledger.holder {
      assert HolderReal(s, id, s.ledger.holder[id]);
    }
  }

  lemma OrphansAreLost(s: Sys)
    requires Accounted(s)
    ensures Orphans(s) == LostIds(s.ledger)
  {
    forall id | id in s.ledger.rows
      ensures id in Orphans(s) <==> id in LostIds(s.ledger)
    {
      HolderDecides(s, id);
    }
  }

  /**
   Statuses and messages after any moves with replays of each API key one at a time: a row has at most one unresolved message, and
   none while a message is about to be published; a row marked success or failed has
   neither; and the pending rows that nothing will resolve number exactly the failed
   publishes of inserted or replayed events plus the worker's failed status writes.
   */
  lemma StatusAgainstMessages(moves: seq<Move>)
    requires SerialRun(moves)
    ensures var s := Execute(moves);
            && (forall id :: id in s.ledger.rows ==>
                  && |Unresolved(s, id)| <= 1
                  && (AboutToPublish(s, id) ==> Unresolved(s, id) == {})
                  && (s.ledger.rows[id].status != Pending ==> Unresolved(s, id) == {} && !AboutToPublish(s, id)))
            && |Orphans(s)| == s.ledger.publishFailures + s.ledger.writeFailures
  {
    ReachableAccount(moves);
    var s := Execute(moves);
    forall id | id in s.ledger.rows
      ensures && |Unresolved(s, id)| <= 1
              && (AboutToPublish(s, id) ==> Unresolved(s, id) == {})
              && (s.ledger.rows[id].status != Pending ==> Unresolved(s, id) == {} && !AboutToPublish(s, id))
    {
      HolderDecides(s, id);
    }
    OrphansAreLost(s);
  }

  lemma PublishKeepsLost(s: Sys, h: Handler, n: Serial, up: bool)
    requires Accounted(s) && Can(s, Publish(h, n, up))
    ensures LostIds(s.ledger) <= LostIds(DoPublish(s, h, n, up).ledger)
  {
    assert IngestHeld(s.ledger, h, s.front.ingests[h]);
  }

  lemma ReplayPublishKeepsLost(s: Sys, k: Session, n: Serial, up: bool)
    requires Accounted(s) && Can(s, ReplayPublish(k, n, up))
    ensures LostIds(s.ledger) <= LostIds(DoReplayPublish(s, k, n, up).ledger)
  {
    assert ReplayHeld(s.ledger, k, s.front.replays[k]);
  }

  lemma ReplayResetKeepsLost(s: Sys, k: Session, id: Id, up: bool)
    requires Accounted(s) && OneReplayPerKey(s.front) && Can(s, ReplayReset(k, id, up))
    ensures LostIds(s.ledger) <= LostIds(DoReplayReset(s, k, id, up).ledger)
  {
    FailedIsFree(s, k, id);
  }

  lemma WriteKeepsLost(s: Sys, n: Serial, up: bool, error: string)
    requires Accounted(s) && Can(s, Write(n, up, error))
    ensures LostIds(s.ledger) <= LostIds(DoWrite(s, n, up, error).ledger)
  {
    assert MessageHeld(s.ledger, s.broker, n);
  }

  lemma SaveKeepsLost(s: Sys, h: Handler, e: Event)
    requires Accounted(s) && Can(s, Save(h, e))
    ensures LostIds(s.ledger) <= LostIds(DoSave(s, h, e).ledger)
  {
    FreshIsUnknown(s, e.id);
  }

  lemma MoveKeepsLost(s: Sys, m: Move)
    requires Accounted(s) && OneReplayPerKey(s.front)
    ensures LostIds(s.ledger) <= LostIds(Do(s, m).ledger)
  {
    if Can(s, m) {
      match m
      case Save(h, e) => SaveKeepsLost(s, h, e);
      case Publish(h, n, up) => PublishKeepsLost(s, h, n, up);
      case ReplayReset(k, id, up) => ReplayResetKeepsLost(s, k, id, up);
      case ReplayPublish(k, n, up) => ReplayPublishKeepsLost(s, k, n, up);
      case Write(n, up, error) => WriteKeepsLost(s, n, up, error);
      case _ => assert Do(s, m).ledger == s.ledger;
    }
  }

  lemma LastMoveKeepsLost(moves: seq<Move>)
    requires moves != [] && SerialRun(moves)
    ensures LostIds(Execute(moves[..|moves| - 1]).ledger) <= LostIds(Execute(moves).ledger)
  {
    ReachableAccount(moves[..|moves| - 1]);
    MoveKeepsLost(Execute(moves[..|moves| - 1]), moves[|moves| - 1]);
  }

  lemma {:induction false} LostStay(moves: seq<Move>, more: seq<Move>)
    requires SerialRun(moves + more)
    ensures LostIds(Execute(moves).ledger) <= LostIds(Execute(moves + more).ledger)
    decreases |more|
  {
    var all := moves + more;
    if more == [] {
      assert all == moves;
    } else {
      assert all[..|all| - 1] == moves + more[..|more| - 1];
      LostStay(moves, more[..|more| - 1]);
      LastMoveKeepsLost(all);
    }
  }

  lemma SerialOrphans(moves: seq<Move>)
    requires SerialRun(moves)
    ensures Orphans(Execute(moves)) == LostIds(Execute(moves).ledger)
  {
    ReachableAccount(moves);
    OrphansAreLost(Execute(moves));
  }

  /** A pending row that nothing will resolve stays one: a failed publish or status write is for good. */
  lemma OrphansStay(moves: seq<Move>, more: seq<Move>)
    requires SerialRun(moves + more)
    ensures Orphans(Execute(moves)) <= Orphans(Execute(moves + more))
  {
    SerialStart(moves, more);
    LostStay(moves, more);
    SerialOrphans(moves);
    SerialOrphans(moves + more);
  }

  /** A row once marked delivered stays so. */
  ghost predicate SuccessKept(l: Ledger, l': Ledger) {
    forall id :: id in l.rows && l.rows[id].status == Success ==> id in l'.rows && l'.rows[id].status == Success
  }

  lemma MoveKeepsSuccess(s: Sys, m: Move)
    requires Accounted(s)
    ensures SuccessKept(s.ledger, Do(s, m).ledger)
  {
    if Can(s, m) {
      if m.ReplayReset? {
        assert ReplayHeld(s.ledger, m.k, s.front.replays[m.k]);
      } else if m.Write? {
        assert MessageHeld(s.ledger, s.broker, m.n);
      } else if m.Save? {
        FreshIsUnknown(s, m.event.id);
      }
    }
  }

  /**
   Success is terminal when replays of each API key run one at a time: no later move, replays
   included, changes the status of a delivered row.
   */
  lemma {:induction false} SuccessIsTerminal(moves: seq<Move>, more: seq<Move>)
    requires SerialRun(moves + more)
    ensures SuccessKept(Execute(moves).ledger, Execute(moves + more).ledger)
    decreases |more|
  {
    var all := moves + more;
    if more == [] {
      assert all == moves;
    } else {
      assert all[..|all| - 1] == moves + more[..|more| - 1];
      SuccessIsTerminal(moves, more[..|more| - 1]);
      LastMoveKeepsSuccess(all);
      SuccessKeptOn(Execute(moves).ledger, Execute(all[..|all| - 1]).ledger, Execute(all).ledger);
    }
  }

  lemma LastMoveKeepsSuccess(moves: seq<Move>)
    requires moves != [] && SerialRun(moves)
    ensures SuccessKept(Execute(moves[..|moves| - 1]).ledger, Execute(moves).ledger)
  {
    ReachableAccount(moves[..|moves| - 1]);
    MoveKeepsSuccess(Execute(moves[..|moves| - 1]), moves[|moves| - 1]);
  }

  lemma SuccessKeptOn(a: Ledger, b: Ledger, c: Ledger)
    requires SuccessKept(a, b) && SuccessKept(b, c)
    ensures SuccessKept(a, c)
  {
  }

  // ---- Integrity of the store -----------------------------------------------------------------------------

  // None of this needs replays to be serialised.

  ghost predicate EventKnown(l: Ledger, e: Event) {
    e.id in l.used && (e.id in l.rows ==> Matches(l.rows, e))
  }

  /** Whatever carries an event carries what its row says. */
  ghost predicate MessagesKnown(l: Ledger, b: Broker) {
    forall n :: CarriesEvent(b, n) ==> EventKnown(l, b.bodies[n].event)
  }

  ghost predicate IngestKnown(l: Ledger, i: Ingest) {
    EventKnown(l, i.event) && KeyTaken(l.rows, EffectiveKey(i.event)) && (i.event.id in l.rows <==> i.inserted)
  }

  ghost predicate IngestsKnown(l: Ledger, f: Front) {
    forall h :: h in f.ingests ==> IngestKnown(l, f.ingests[h])
  }

  ghost predicate ReplayKnown(l: Ledger, r: Replay) {
    && (forall id :: id in r.todo ==> r.todo[id].id == id && Matches(l.rows, r.todo[id]))
    && (r.current.Some? ==> Matches(l.rows, r.current.value))
  }

  ghost predicate ReplaysKnown(l: Ledger, f: Front) {
    forall k :: k in f.replays ==> ReplayKnown(l, f.replays[k])
  }

  ghost predicate RowsUsed(l: Ledger) {
    forall id :: id in l.rows ==> id in l.used
  }

  ghost predicate Consistent(s: Sys) {
    RowsUsed(s.ledger) && MessagesKnown(s.ledger, s.broker) && IngestsKnown(s.ledger, s.front) && ReplaysKnown(s.ledger, s.front)
  }

  /** The table only grows, by events not used before. */
  ghost predicate TableGrows(l: Ledger, l': Ledger) {
    && l.used <= l'.used
    && RowsPersist(l.rows, l'.rows)
    && (forall id :: id in l'.rows && id !in l.rows ==> id !in l.used)
  }

  lemma GrowthKeepsKnown(l: Ledger, l': Ledger, b: Broker, f: Front)
    requires TableGrows(l, l') && MessagesKnown(l, b) && IngestsKnown(l, f) && ReplaysKnown(l, f)
    ensures MessagesKnown(l', b) && IngestsKnown(l', f) && ReplaysKnown(l', f)
  {
    forall h | h in f.ingests
      ensures IngestKnown(l', f.ingests[h])
    {
      KeysStayTaken(l.rows, l'.rows, EffectiveKey(f.ingests[h].event));
    }
    forall k | k in f.replays
      ensures ReplayKnown(l', f.replays[k])
    {
      assert ReplayKnown(l, f.replays[k]);
    }
  }

  lemma SaveKeepsConsistent(s: Sys, h: Handler, e: Event)
    requires Consistent(s) && Can(s, Save(h, e))
    ensures TableGrows(s.ledger, DoSave(s, h, e).ledger) && Consistent(DoSave(s, h, e))
  {
    var s' := DoSave(s, h, e);
    InsertTakesKey(s.ledger.rows, e);
    GrowthKeepsKnown(s.ledger, s'.ledger, s.broker, s.front);
    assert IngestKnown(s'.ledger, s'.front.ingests[h]);
  }

  /** The status of one row changes. */
  lemma StatusKeepsConsistent(s: Sys, l: Ledger, id: Id, status: Status, error: string)
    requires Consistent(s) && l.used == s.ledger.used && l.rows == SetStatus(s.ledger.rows, id, status, error)
    ensures TableGrows(s.ledger, l) && Consistent(s.(ledger := l))
  {
    GrowthKeepsKnown(s.ledger, l, s.broker, s.front);
  }

  lemma EnqueueKeepsKnown(l: Ledger, b: Broker, n: Serial, body: Body)
    requires MessagesKnown(l, b) && (body.Webhook? ==> EventKnown(l, body.event))
    ensures MessagesKnown(l, Enqueue(b, n, body))
  {
  }

  lemma PublishKeepsConsistent(s: Sys, h: Handler, n: Serial, up: bool)
    requires Consistent(s) && Can(s, Publish(h, n, up))
    ensures TableGrows(s.ledger, DoPublish(s, h, n, up).ledger) && Consistent(DoPublish(s, h, n, up))
  {
    var s' := DoPublish(s, h, n, up);
    var e := s.front.ingests[h].event;
    assert IngestKnown(s.ledger, s.front.ingests[h]);
    EnqueueKeepsKnown(s.ledger, s.broker, n, Webhook(e));
    GrowthKeepsKnown(s.ledger, s'.ledger, s'.broker, s'.front);
  }

  lemma ReplayPublishKeepsConsistent(s: Sys, k: Session, n: Serial, up: bool)
    requires Consistent(s) && Can(s, ReplayPublish(k, n, up))
    ensures TableGrows(s.ledger, DoReplayPublish(s, k, n, up).ledger) && Consistent(DoReplayPublish(s, k, n, up))
  {
    var s' := DoReplayPublish(s, k, n, up);
    var e := s.front.replays[k].current.value;
    assert ReplayKnown(s.ledger, s.front.replays[k]);
    EnqueueKeepsKnown(s.ledger, s.broker, n, Webhook(e));
    assert ReplaysKnown(s.ledger, s'.front);
    GrowthKeepsKnown(s.ledger, s'.ledger, s'.broker, s'.front);
  }

  lemma ReplayResetKeepsConsistent(s: Sys, k: Session, id: Id, up: bool)
    requires Consistent(s) && Can(s, ReplayReset(k, id, up))
    ensures TableGrows(s.ledger, DoReplayReset(s, k, id, up).ledger) && Consistent(DoReplayReset(s, k, id, up))
  {
    var s' := DoReplayReset(s, k, id, up);
    assert ReplayKnown(s.ledger, s.front.replays[k]);
    var s1 := s.(front := s'.front);
    assert Consistent(s1);
    if up {
      StatusKeepsConsistent(s1, s'.ledger, id, Pending, "");
    }
  }

  lemma WriteKeepsConsistent(s: Sys, n: Serial, up: bool, error: string)
    requires Consistent(s) && Can(s, Write(n, up, error))
    ensures TableGrows(s.ledger, DoWrite(s, n, up, error).ledger) && Consistent(DoWrite(s, n, up, error))
  {
    var s' := DoWrite(s, n, up, error);
    var s1 := s.(broker := s'.broker);
    assert Consistent(s1);
    var id := s.broker.bodies[n].event.id;
    if id in s.ledger.rows && up {
      StatusKeepsConsistent(s1, s'.ledger, id, if s.broker.inflight[n].ok then Success else Failed, error);
    }
  }

  lemma ReplayStartKeepsConsistent(s: Sys, k: Session, apiKey: string, only: Option<Id>)
    requires Consistent(s)
    ensures Consistent(DoReplayStart(s, k, apiKey, only))
  {
    assert ReplayKnown(s.ledger, DoReplayStart(s, k, apiKey, only).front.replays[k]);
  }

  lemma OthersKeepConsistent(s: Sys, m: Move)
    requires Consistent(s) && Can(s, m)
    requires m.ReplayEnd? || m.Intrude? || m.Take? || m.Reject? || m.Gate? || m.Deliver? || m.Settle?
    ensures Do(s, m).ledger == s.ledger && Consistent(Do(s, m))
  {
  }

  lemma MoveKeepsConsistent(s: Sys, m: Move)
    requires Consistent(s)
    ensures TableGrows(s.ledger, Do(s, m).ledger) && Consistent(Do(s, m))
  {
    if Can(s, m) {
      match m
      case Save(h, e) => SaveKeepsConsistent(s, h, e);
      case Publish(h, n, up) => PublishKeepsConsistent(s, h, n, up);
      case ReplayStart(k, apiKey, only) => ReplayStartKeepsConsistent(s, k, apiKey, only);
      case ReplayReset(k, id, up) => ReplayResetKeepsConsistent(s, k, id, up);
      case ReplayPublish(k, n, up) => ReplayPublishKeepsConsistent(s, k, n, up);
      case Write(n, up, error) => WriteKeepsConsistent(s, n, up, error);
      case _ => OthersKeepConsistent(s, m);
    }
  }

  lemma {:induction false} ReachableConsistent(moves: seq<Move>)
    ensures Consistent(Execute(moves))
  {
    if moves != [] {
      ReachableConsistent(moves[..|moves| - 1]);
      MoveKeepsConsistent(Execute(moves[..|moves| - 1]), moves[|moves| - 1]);
    }
  }

  ghost predicate Sound(s: Sys) {
    KeysUnique(s.ledger.rows) && AcceptedStored(s.ledger, s.front) && SuccessAnswered(s.ledger, s.broker)
  }

  lemma MoveKeepsKeys(s: Sys, m: Move)
    requires Consistent(s) && KeysUnique(s.ledger.rows)
    ensures KeysUnique(Do(s, m).ledger.rows)
  {
    var rows := s.ledger.rows;
    if Can(s, m) {
      match m
      case Save(h, e) => InsertKeepsTable(rows, e);
      case ReplayReset(k, id, up) => SetStatusKeepsTable(rows, id, Pending, "");
      case Write(n, up, error) =>
        SetStatusKeepsTable(rows, s.broker.bodies[n].event.id, if s.broker.inflight[n].ok then Success else Failed, error);
      case _ =>
    }
  }

  /** Only publishing a saved event accepts its key. */
  lemma NewlyAccepted(s: Sys, m: Move, key: string)
    requires key in Do(s, m).front.accepted && key !in s.front.accepted
    ensures m.Publish? && Can(s, m) && key == EffectiveKey(s.front.ingests[m.h].event)
  {
  }

  lemma MoveKeepsAccepted(s: Sys, m: Move)
    requires Consistent(s) && AcceptedStored(s.ledger, s.front)
    ensures AcceptedStored(Do(s, m).ledger, Do(s, m).front)
  {
    var s' := Do(s, m);
    MoveKeepsConsistent(s, m);
    forall key | key in s'.front.accepted
      ensures KeyTaken(s'.ledger.rows, key)
    {
      if key !in s.front.accepted {
        NewlyAccepted(s, m, key);
        assert IngestKnown(s.ledger, s.front.ingests[m.h]);
      }
      KeysStayTaken(s.ledger.rows, s'.ledger.rows, key);
    }
  }

  lemma MoveKeepsAnswers(s: Sys, m: Move, id: Id)
    requires BrokerOk(s.broker) && Answered(s.broker, id)
    ensures Answered(Do(s, m).broker, id)
  {
    var n :| n in s.broker.answered && CarriesEvent(s.broker, n) && s.broker.bodies[n].event.id == id;
    var b := Do(s, m).broker;
    assert n in b.answered && CarriesEvent(b, n) && b.bodies[n].event.id == id;
  }

  lemma MoveKeepsSuccessAnswered(s: Sys, m: Move)
    requires BrokerOk(s.broker) && SuccessAnswered(s.ledger, s.broker)
    ensures SuccessAnswered(Do(s, m).ledger, Do(s, m).broker)
  {
    var s' := Do(s, m);
    forall id | id in s'.ledger.rows && s'.ledger.rows[id].status == Success
      ensures Answered(s'.broker, id)
    {
      if id in s.ledger.rows && s.ledger.rows[id].status == Success {
        MoveKeepsAnswers(s, m, id);
      } else {
        NewSuccessIsWritten(s, m, id);
        assert m.n in s.broker.answered && CarriesEvent(s.broker, m.n);
        assert Answered(s.broker, id);
        MoveKeepsAnswers(s, m, id);
      }
    }
  }

  /** Only the worker's write of a positive outcome marks a row delivered. */
  lemma NewSuccessIsWritten(s: Sys, m: Move, id: Id)
    requires BrokerOk(s.broker)
    requires id in Do(s, m).ledger.rows && Do(s, m).ledger.rows[id].status == Success
    requires !(id in s.ledger.rows && s.ledger.rows[id].status == Success)
    ensures m.Write? && Can(s, m) && s.broker.bodies[m.n].event.id == id && s.broker.inflight[m.n] == Decided(true)
    ensures m.n in s.broker.answered
  {
  }

  lemma {:induction false} ReachableSound(moves: seq<Move>)
    ensures Sound(Execute(moves))
  {
    if moves != [] {
      var s, m := Execute(moves[..|moves| - 1]), moves[|moves| - 1];
      ReachableSound(moves[..|moves| - 1]);
      ReachableConsistent(moves[..|moves| - 1]);
      ReachableBroker(moves[..|moves| - 1]);
      MoveKeepsKeys(s, m);
      MoveKeepsAccepted(s, m);
      MoveKeepsSuccessAnswered(s, m);
    }
  }

  lemma LastMoveKeepsRows(moves: seq<Move>)
    requires moves != []
    ensures RowsPersist(Execute(moves[..|moves| - 1]).ledger.rows, Execute(moves).ledger.rows)
  {
    ReachableConsistent(moves[..|moves| - 1]);
    MoveKeepsConsistent(Execute(moves[..|moves| - 1]), moves[|moves| - 1]);
  }

  lemma RowsPersistOn(a: Rows, b: Rows, c: Rows)
    requires RowsPersist(a, b) && RowsPersist(b, c)
    ensures RowsPersist(a, c)
  {
  }

  lemma {:induction false} RowsNeverChange(moves: seq<Move>, more: seq<Move>)
    ensures RowsPersist(Execute(moves).ledger.rows, Execute(moves + more).ledger.rows)
    decreases |more|
  {
    var all := moves + more;
    if more == [] {
      assert all == moves;
    } else {
      assert all[..|all| - 1] == moves + more[..|more| - 1];
      RowsNeverChange(moves, more[..|more| - 1]);
      LastMoveKeepsRows(all);
      RowsPersistOn(Execute(moves).ledger.rows, Execute(all[..|all| - 1]).ledger.rows, Execute(all).ledger.rows);
    }
  }

  /**
   The store after any moves, overlapping replays included: idempotency keys are unique; every
   message of a stored event carries its row's URL and payload; every key answered with 202 has
   exactly one row; a row marked success got a 2xx; and no later move changes a row's key,
   owner, URL or payload, or removes it.
   */
  lemma {:induction false} StoreIntegrity(moves: seq<Move>, more: seq<Move>)
    ensures var s := Execute(moves);
            && KeysUnique(s.ledger.rows)
            && (forall n :: CarriesEvent(s.broker, n) && s.broker.bodies[n].event.id in s.ledger.rows ==>
                  Matches(s.ledger.rows, s.broker.bodies[n].event))
            && (forall key :: key in s.front.accepted ==> StoredOnce(s.ledger.rows, key))
            && (forall id :: id in s.ledger.rows && s.ledger.rows[id].status == Success ==> Answered(s.broker, id))
            && RowsPersist(s.ledger.rows, Execute(moves + more).ledger.rows)
  {
    ReachableSound(moves);
    ReachableConsistent(moves);
    RowsNeverChange(moves, more);
    var s := Execute(moves);
    forall key | key in s.front.accepted
      ensures StoredOnce(s.ledger.rows, key)
    {
      TakenIsStoredOnce(s.ledger.rows, key);
    }
  }
}
