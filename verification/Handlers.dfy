/**
 The gateway's ingest and replay handlers and the worker's delivery handler as the
 sequential code they are, over a mutable store and queue. Each is proved to perform a
 sequence of the pipeline's moves, so what `Pipeline` and `Overlap` prove of all
 interleavings of moves covers them; the delivery handler is proved to perform moves of the
 worker in `DeadTarget` as well.
 */
module Handlers {
  import opened Prelude
  import opened EventStore
  import opened Pipeline
  import Breaker
  import BreakerHistory
  import BreakerObject
  import DeadTarget
  import Mirror
  import Retry
  import WorkerLoad

  /** The message broker: main queue, unsettled deliveries and the dead-letter queue. */
  class MessageQueue {
    var bodies: map<Serial, Body>
    var queued: set<Serial>
    var unacked: set<Serial>
    var acked: set<Serial>
    var dead: set<Serial>
    var next: Serial

    ghost predicate Valid()
      reads this
    {
      forall n :: n in bodies ==> n < next
    }

    /** What the pipeline's broker shows from outside. */
    ghost predicate Shows(b: Broker)
      reads this
    {
      bodies == b.bodies && queued == b.queued && unacked == b.inflight.Keys && acked == b.acked && dead == b.dead
    }

    method Publish(e: Event, up: bool) returns (ok: bool)
      requires Valid()
      modifies this
      ensures Valid() && ok == up && unacked == old(unacked) && acked == old(acked) && dead == old(dead)
      ensures old(next) !in old(bodies)
      ensures bodies == if up then old(bodies)[old(next) := Webhook(e)] else old(bodies)
      ensures queued == if up then old(queued) + {old(next)} else old(queued)
      ensures next == if up then old(next) + 1 else old(next)
    {
      if !up {
        return false;
      }
      bodies := bodies[next := Webhook(e)];
      queued := queued + {next};
      next := next + 1;
      return true;
    }

    method Ack(n: Serial)
      requires Valid()
      modifies this`unacked, this`acked
      ensures Valid() && unacked == old(unacked) - {n} && acked == old(acked) + {n}
    {
      unacked, acked := unacked - {n}, acked + {n};
    }

    /** Nack without requeue: the message goes to the dead-letter queue. */
    method Nack(n: Serial)
      requires Valid()
      modifies this`unacked, this`dead
      ensures Valid() && unacked == old(unacked) - {n} && dead == old(dead) + {n}
    {
      unacked, dead := unacked - {n}, dead + {n};
    }
  }

  datatype WebhookBody = WebhookBody(targetUrl: string, payload: string)

  /**
   A webhook request as the ingest handler sees it; `body` is absent when it is not valid JSON,
   the two headers are X-Idempotency-Key and Idempotency-Key.
   */
  datatype WebhookRequest = WebhookRequest(
    isPost: bool, apiKey: string, body: Option<WebhookBody>, keyHeader: string, altKeyHeader: string)

  function RequestEvent(r: WebhookRequest, id: Id): Event
    requires r.body.Some?
  {
    Event(id, r.apiKey, r.body.value.targetUrl, r.body.value.payload, if r.keyHeader == "" then r.altKeyHeader else r.keyHeader)
  }

  predicate WellFormed(r: WebhookRequest) {
    r.isPost && r.apiKey != "" && r.body.Some? && r.body.value.targetUrl != "" && r.body.value.payload != ""
  }

  // ---- What moves look like from the store and the queue --------------------------------------

  /** The queue as `b` shows it, with message `n` settled. */
  ghost predicate SettledAs(b: Broker, b': Broker, n: Serial, ack: bool) {
    && b'.bodies == b.bodies && b'.queued == b.queued && b'.inflight.Keys == b.inflight.Keys - {n}
    && b'.acked == (if ack then b.acked + {n} else b.acked)
    && b'.dead == (if ack then b.dead else b.dead + {n})
  }

  lemma RejectShows(s: Sys, n: Serial)
    requires InPhase(s.broker, n, Taken) && !CarriesEvent(s.broker, n)
    ensures Do(s, Reject(n)).ledger == s.ledger && SettledAs(s.broker, Do(s, Reject(n)).broker, n, false)
  {
  }

  lemma WriteAndSettleShow(s: Sys, n: Serial, up: bool, error: string)
    requires n in s.broker.inflight && s.broker.inflight[n].Decided? && CarriesEvent(s.broker, n)
    ensures var ok, id := s.broker.inflight[n].ok, s.broker.bodies[n].event.id;
            var s' := Do(Do(s, Write(n, up, error)), Settle(n));
            && s'.ledger.rows == (if up then SetStatus(s.ledger.rows, id, if ok then Success else Failed, error) else s.ledger.rows)
            && SettledAs(s.broker, s'.broker, n, ok)
  {
    var s1 := Do(s, Write(n, up, error));
    assert s1 == DoWrite(s, n, up, error);
    assert s1.broker == Advance(s.broker, n, Written(s.broker.inflight[n].ok));
    assert s1.broker.inflight.Keys == s.broker.inflight.Keys;
  }

  /** Passing the gate and posting change only the delivery's phase. */
  ghost predicate OnlyPhase(s: Sys, s': Sys, n: Serial, phase: Phase) {
    && s'.ledger == s.ledger && s'.front == s.front
    && s'.broker.bodies == s.broker.bodies && s'.broker.queued == s.broker.queued
    && s'.broker.acked == s.broker.acked && s'.broker.dead == s.broker.dead
    && s'.broker.inflight.Keys == s.broker.inflight.Keys && InPhase(s'.broker, n, phase)
  }

  lemma GateShows(s: Sys, n: Serial, pass: bool)
    requires InPhase(s.broker, n, Taken) && CarriesEvent(s.broker, n)
    ensures OnlyPhase(s, Do(s, Gate(n, pass)), n, if pass then Granted else Decided(false))
  {
  }

  lemma DeliverShows(s: Sys, n: Serial, ok: bool)
    requires InPhase(s.broker, n, Granted)
    ensures OnlyPhase(s, Do(s, Deliver(n, ok)), n, Decided(ok))
  {
  }

  lemma SaveShows(s: Sys, h: Handler, e: Event)
    requires Can(s, Save(h, e))
    ensures var s' := Do(s, Save(h, e));
            && s'.broker == s.broker && s'.ledger.rows == Insert(s.ledger.rows, e)
            && h in s'.front.ingests && s'.front.ingests[h].event == e
  {
  }

  lemma PublishShows(s: Sys, h: Handler, n: Serial, up: bool)
    requires h in s.front.ingests && n !in s.broker.bodies
    ensures var s' := Do(s, Pipeline.Publish(h, n, up));
            && s'.broker == (if up then Enqueue(s.broker, n, Webhook(s.front.ingests[h].event)) else s.broker)
            && s'.ledger.rows == s.ledger.rows
  {
  }

  lemma ResetShows(s: Sys, k: Session, id: Id, up: bool)
    requires k in s.front.replays && id in s.front.replays[k].todo && s.front.replays[k].current.None?
    ensures var s' := Do(s, ReplayReset(k, id, up));
            && s'.broker == s.broker && s'.ledger.rows == (if up then SetStatus(s.ledger.rows, id, Pending, "") else s.ledger.rows)
            && k in s'.front.replays
            && s'.front.replays[k].todo == s.front.replays[k].todo - {id}
            && s'.front.replays[k].current == if up then Some(s.front.replays[k].todo[id]) else None
  {
  }

  lemma ReplayPublishShows(s: Sys, k: Session, n: Serial, up: bool)
    requires k in s.front.replays && s.front.replays[k].current.Some? && n !in s.broker.bodies
    ensures var s' := Do(s, ReplayPublish(k, n, up));
            && s'.broker == (if up then Enqueue(s.broker, n, Webhook(s.front.replays[k].current.value)) else s.broker)
            && s'.ledger.rows == s.ledger.rows
            && k in s'.front.replays && s'.front.replays[k] == s.front.replays[k].(current := None)
  {
  }

  /** The events by id. */
  function Listed(events: seq<Event>): map<Id, Event> {
    if events == [] then map[] else Listed(events[1..])[events[0].id := events[0]]
  }

  /** The map holds exactly the events from position `i` on. */
  ghost predicate Covers(todo: map<Id, Event>, events: seq<Event>, i: nat) {
    i <= |events| && todo == Listed(events[i..])
  }

  lemma {:induction false} ListedAre(events: seq<Event>)
    requires Distinct(events)
    ensures forall j :: 0 <= j < |events| ==> events[j].id in Listed(events) && Listed(events)[events[j].id] == events[j]
    ensures forall id :: id in Listed(events) ==> exists j :: 0 <= j < |events| && events[j].id == id
  {
    if events != [] {
      ListedAre(events[1..]);
      forall j | 0 <= j < |events|
        ensures events[j].id in Listed(events) && Listed(events)[events[j].id] == events[j]
      {
        assert j > 0 ==> events[j] == events[1..][j - 1];
      }
      forall id | id in Listed(events)
        ensures exists j :: 0 <= j < |events| && events[j].id == id
      {
        if id in Listed(events[1..]) {
          var j :| 0 <= j < |events| - 1 && events[1..][j].id == id;
          assert events[j + 1].id == id;
        } else {
          assert events[0].id == id;
        }
      }
    }
  }

  lemma CoversNext(todo: map<Id, Event>, events: seq<Event>, i: nat)
    requires i < |events| && Covers(todo, events, i) && Distinct(events)
    ensures events[i].id in todo && todo[events[i].id] == events[i]
    ensures Covers(todo - {events[i].id}, events, i + 1)
  {
    assert events[i..][1..] == events[i + 1..];
    ListedAre(events[i + 1..]);
    assert events[i].id !in Listed(events[i + 1..]);
  }

  // ---- What a replay does ---------------------------------------------------------------------

  /** No two of the events have one id. */
  ghost predicate Distinct(events: seq<Event>) {
    forall i, j :: 0 <= i < j < |events| ==> events[i].id != events[j].id
  }

  /** How the steps of a replay fare: which of its events fail to be reset, and which to be published. */
  datatype Fate = Fate(resetFails: set<nat>, publishFails: set<nat>)

  predicate ResetUp(fate: Fate, i: nat) {
    i !in fate.resetFails
  }

  predicate PublishUp(fate: Fate, i: nat) {
    i !in fate.publishFails
  }

  /** Event `i` goes through both steps. */
  predicate GoesThrough(fate: Fate, i: nat) {
    ResetUp(fate, i) && PublishUp(fate, i)
  }

  /** The events that go through both steps, in order. */
  function Requeued(events: seq<Event>, fate: Fate): seq<Event> {
    if events == [] then []
    else
      var n := |events| - 1;
      if GoesThrough(fate, n) then Requeued(events[..n], fate) + [events[n]] else Requeued(events[..n], fate)
  }

  /** The table after the resets that succeed. */
  function ResetRows(rows: Rows, events: seq<Event>, fate: Fate): Rows {
    if events == [] then rows
    else
      var n := |events| - 1;
      var before := ResetRows(rows, events[..n], fate);
      if ResetUp(fate, n) then SetStatus(before, events[n].id, Pending, "") else before
  }

  /** The moves of the loop; messages are numbered from `next` on. */
  function ReplayMoves(k: Session, events: seq<Event>, fate: Fate, next: Serial): seq<Move> {
    if events == [] then []
    else
      var n := |events| - 1;
      ReplayMoves(k, events[..n], fate, next)
      + TurnMoves(k, events[n].id, ResetUp(fate, n), PublishUp(fate, n), next + |Requeued(events[..n], fate)|)
  }

  /** The moves of one turn of the loop. */
  function TurnMoves(k: Session, id: Id, resetUp: bool, publishUp: bool, n: Serial): seq<Move> {
    [ReplayReset(k, id, resetUp)] + if resetUp then [ReplayPublish(k, n, publishUp)] else []
  }

  /** The moves of a whole replay. */
  function ReplayRun(k: Session, apiKey: string, eventId: Id, events: seq<Event>, fate: Fate, next: Serial): seq<Move> {
    [ReplayStart(k, apiKey, Only(eventId))] + ReplayMoves(k, events, fate, next) + [ReplayEnd(k)]
  }

  function IdsOf(events: seq<Event>): seq<Id> {
    if events == [] then [] else IdsOf(events[..|events| - 1]) + [events[|events| - 1].id]
  }

  lemma {:induction false} IdsAre(events: seq<Event>)
    ensures |IdsOf(events)| == |events| && forall i :: 0 <= i < |events| ==> IdsOf(events)[i] == events[i].id
  {
    if events != [] {
      IdsAre(events[..|events| - 1]);
    }
  }

  lemma OneMoreId(events: seq<Event>, e: Event)
    ensures IdsOf(events + [e]) == IdsOf(events) + [e.id]
  {
    assert (events + [e])[..|events|] == events;
  }

  /** The messages after the given events have been published, numbered from `next` on, in order. */
  function Deposited(bodies: map<Serial, Body>, next: Serial, events: seq<Event>): map<Serial, Body> {
    if events == [] then bodies
    else
      var n := |events| - 1;
      Deposited(bodies, next, events[..n])[next + n := Webhook(events[n])]
  }

  /** The `n` numbers from `next` on. */
  function Serials(next: Serial, n: nat): set<Serial> {
    if n == 0 then {} else Serials(next, n - 1) + {next + n - 1}
  }

  lemma DepositOneMore(bodies: map<Serial, Body>, next: Serial, events: seq<Event>, e: Event)
    ensures Deposited(bodies, next, events + [e]) == Deposited(bodies, next, events)[next + |events| := Webhook(e)]
  {
    assert (events + [e])[..|events|] == events;
  }

  lemma {:induction false} SerialsAre(next: Serial, n: nat)
    ensures forall i :: i in Serials(next, n) <==> next <= i < next + n
  {
    if n > 0 {
      SerialsAre(next, n - 1);
    }
  }

  /** Event `i` is the body of its own message. */
  lemma {:induction false} DepositedAt(bodies: map<Serial, Body>, next: Serial, events: seq<Event>, i: nat)
    requires i < |events|
    ensures next + i in Deposited(bodies, next, events) && Deposited(bodies, next, events)[next + i] == Webhook(events[i])
  {
    if i < |events| - 1 {
      DepositedAt(bodies, next, events[..|events| - 1], i);
    }
  }

  /** Earlier messages are as they were, and there are no others. */
  lemma {:induction false} DepositedElsewhere(bodies: map<Serial, Body>, next: Serial, events: seq<Event>, n: Serial)
    requires n < next || n >= next + |events|
    ensures n in Deposited(bodies, next, events) <==> n in bodies
    ensures n in bodies ==> Deposited(bodies, next, events)[n] == bodies[n]
  {
    if events != [] {
      DepositedElsewhere(bodies, next, events[..|events| - 1], n);
    }
  }

  /** Event `i` of the list is reset and republished. */
  ghost predicate Replayed(events: seq<Event>, fate: Fate, i: nat) {
    i < |events| && GoesThrough(fate, i)
  }

  /** What goes through is exactly that, none of it twice. */
  lemma {:induction false} RequeuedAre(events: seq<Event>, fate: Fate)
    requires Distinct(events)
    ensures forall i: nat :: Replayed(events, fate, i) ==> events[i] in Requeued(events, fate)
    ensures forall e <- Requeued(events, fate) :: exists i: nat :: Replayed(events, fate, i) && events[i] == e
    ensures Distinct(Requeued(events, fate))
  {
    if events != [] {
      var n := |events| - 1;
      var before, all := Requeued(events[..n], fate), Requeued(events, fate);
      RequeuedAre(events[..n], fate);
      forall i: nat | Replayed(events, fate, i)
        ensures events[i] in all
      {
        assert i < n ==> Replayed(events[..n], fate, i);
      }
      forall e <- before
        ensures e.id != events[n].id && exists i: nat :: Replayed(events, fate, i) && events[i] == e
      {
        var i: nat :| Replayed(events[..n], fate, i) && events[..n][i] == e;
        assert Replayed(events, fate, i) && events[i] == e;
      }
      if Replayed(events, fate, n) {
        assert all == before + [events[n]];
        DistinctExtends(before, events[n]);
      } else {
        assert all == before;
      }
    }
  }

  lemma DistinctExtends(events: seq<Event>, e: Event)
    requires Distinct(events) && forall x <- events :: x.id != e.id
    ensures Distinct(events + [e])
  {
  }

  /** A row that is not listed is as it was, and no row comes or goes. */
  lemma {:induction false} UnlistedRowStays(rows: Rows, events: seq<Event>, fate: Fate, id: Id)
    requires forall j :: 0 <= j < |events| ==> events[j].id != id
    ensures var rows' := ResetRows(rows, events, fate);
            rows'.Keys == rows.Keys && (id in rows ==> rows'[id] == rows[id])
  {
    if events != [] {
      UnlistedRowStays(rows, events[..|events| - 1], fate, id);
    }
  }

  lemma {:induction false} RowsStayInPlace(rows: Rows, events: seq<Event>, fate: Fate)
    ensures ResetRows(rows, events, fate).Keys == rows.Keys
  {
    if events != [] {
      RowsStayInPlace(rows, events[..|events| - 1], fate);
    }
  }

  /** A listed row whose reset succeeds is pending again, without its error; otherwise it is as it was. */
  lemma {:induction false} ListedRowIsReset(rows: Rows, events: seq<Event>, fate: Fate, i: nat)
    requires Distinct(events) && i < |events| && events[i].id in rows
    ensures var rows', id := ResetRows(rows, events, fate), events[i].id;
            id in rows' && rows'[id] == if ResetUp(fate, i) then rows[id].(status := Pending, error := None) else rows[id]
  {
    var n := |events| - 1;
    if i == n {
      UnlistedRowStays(rows, events[..n], fate, events[n].id);
    } else {
      ListedRowIsReset(rows, events[..n], fate, i);
    }
  }

  /** A replay that names an event concerns that one only. */
  predicate Asked(eventId: Id, id: Id) {
    eventId == "" || eventId == id
  }

  function Only(eventId: Id): Option<Id> {
    if eventId == "" then None else Some(eventId)
  }

  /** The list holds the client's failed events, or the one asked for, once each. */
  ghost predicate Lists(rows: Rows, apiKey: string, eventId: Id, events: seq<Event>) {
    && (forall e <- events :: Replayable(rows, apiKey, e.id) && Asked(eventId, e.id) && e == EventOf(e.id, rows[e.id]))
    && (forall id :: Replayable(rows, apiKey, id) && Asked(eventId, id) ==> EventOf(id, rows[id]) in events)
    && Distinct(events)
  }

  lemma ReplayStartShows(s: Sys, k: Session, apiKey: string, eventId: Id, events: seq<Event>)
    requires k !in s.front.replays && Lists(s.ledger.rows, apiKey, eventId, events)
    ensures var s' := Do(s, ReplayStart(k, apiKey, Only(eventId)));
            && s'.broker == s.broker && s'.ledger == s.ledger
            && k in s'.front.replays && s'.front.replays[k].current.None? && Covers(s'.front.replays[k].todo, events, 0)
  {
    var rows := s.ledger.rows;
    var todo := Do(s, ReplayStart(k, apiKey, Only(eventId))).front.replays[k].todo;
    assert events[0..] == events;
    ListedAre(events);
    forall id | id in todo
      ensures id in Listed(events) && Listed(events)[id] == todo[id]
    {
      var j :| 0 <= j < |events| && events[j] == EventOf(id, rows[id]);
      assert events[j].id == id;
    }
    forall id | id in Listed(events)
      ensures id in todo
    {
      var j :| 0 <= j < |events| && events[j].id == id;
      assert events[j] in events;
    }
    assert todo == Listed(events);
  }

  lemma ReplayEndShows(s: Sys, k: Session, events: seq<Event>)
    requires k in s.front.replays && s.front.replays[k].current.None? && Covers(s.front.replays[k].todo, events, |events|)
    ensures var s' := Do(s, ReplayEnd(k));
            s'.broker == s.broker && s'.ledger == s.ledger && k !in s'.front.replays
  {
    assert events[|events|..] == [];
  }

  /** The event's row is pending again, without its error, and message `n` carries it as its row has it. */
  ghost predicate BackInQueue(rows: Rows, rows': Rows, bodies: map<Serial, Body>, queued: set<Serial>, id: Id, n: Serial) {
    && id in rows && id in rows' && rows'[id] == rows[id].(status := Pending, error := None)
    && n in queued && n in bodies && bodies[n].Webhook?
    && var e := bodies[n].event;
    && e.id == id && e.apiKey == rows[id].apiKey && e.url == rows[id].url && e.payload == rows[id].payload
    && e.idempotencyKey == rows[id].idempotencyKey
  }

  ghost predicate NoneTwice(ids: seq<Id>) {
    forall i, j :: 0 <= i < j < |ids| ==> ids[i] != ids[j]
  }

  lemma OneMoreTurn(k: Session, events: seq<Event>, fate: Fate, rows: Rows, next: Serial, i: nat)
    requires i < |events|
    ensures Requeued(events[..i + 1], fate)
         == if GoesThrough(fate, i) then Requeued(events[..i], fate) + [events[i]] else Requeued(events[..i], fate)
    ensures ResetRows(rows, events[..i + 1], fate)
         == var before := ResetRows(rows, events[..i], fate);
            if ResetUp(fate, i) then SetStatus(before, events[i].id, Pending, "") else before
    ensures ReplayMoves(k, events[..i + 1], fate, next)
         == ReplayMoves(k, events[..i], fate, next)
            + TurnMoves(k, events[i].id, ResetUp(fate, i), PublishUp(fate, i), next + |Requeued(events[..i], fate)|)
  {
    assert events[..i + 1][..i] == events[..i];
  }

  /** The replay stands before an event of its list. */
  ghost predicate Before(s: Sys, k: Session, e: Event) {
    && k in s.front.replays && s.front.replays[k].current.None?
    && e.id in s.front.replays[k].todo && s.front.replays[k].todo[e.id] == e
  }

  /** What one turn of the loop does to table, queue and list. */
  ghost predicate TurnDone(s: Sys, s': Sys, k: Session, e: Event, resetUp: bool, publishUp: bool, n: Serial)
    requires k in s.front.replays
  {
    && s'.ledger.rows == (if resetUp then SetStatus(s.ledger.rows, e.id, Pending, "") else s.ledger.rows)
    && s'.broker == (if resetUp && publishUp then Enqueue(s.broker, n, Webhook(e)) else s.broker)
    && k in s'.front.replays && s'.front.replays[k].current.None? && s'.front.replays[k].todo == s.front.replays[k].todo - {e.id}
  }

  lemma TurnDoes(s: Sys, s': Sys, k: Session, e: Event, resetUp: bool, publishUp: bool, n: Serial)
    requires Before(s, k, e) && n !in s.broker.bodies && Leads(s, TurnMoves(k, e.id, resetUp, publishUp, n), s')
    ensures TurnDone(s, s', k, e, resetUp, publishUp, n)
  {
    LeadsIsContinue(s, TurnMoves(k, e.id, resetUp, publishUp, n), s');
    var reset := ReplayReset(k, e.id, resetUp);
    ContinueOneMore(s, [], reset);
    assert [] + [reset] == [reset];
    ResetShows(s, k, e.id, resetUp);
    if resetUp {
      var publish := ReplayPublish(k, n, publishUp);
      ContinueOneMore(s, [reset], publish);
      ReplayPublishShows(Do(s, reset), k, n, publishUp);
    }
  }

  /** What the first `i` turns have done: resets, messages, and the rest of the list. */
  ghost predicate Turned(s: Sys, s': Sys, k: Session, events: seq<Event>, fate: Fate, next: Serial, i: nat)
    requires i <= |events|
  {
    var sent := Requeued(events[..i], fate);
    && s'.ledger.rows == ResetRows(s.ledger.rows, events[..i], fate)
    && s'.broker.bodies == Deposited(s.broker.bodies, next, sent)
    && s'.broker.queued == s.broker.queued + Serials(next, |sent|)
    && k in s'.front.replays && s'.front.replays[k].current.None? && Covers(s'.front.replays[k].todo, events, i)
  }

  lemma TurnedOneMore(s: Sys, s': Sys, s'': Sys, k: Session, events: seq<Event>, fate: Fate, next: Serial, i: nat)
    requires i < |events| && Distinct(events) && Turned(s, s', k, events, fate, next, i)
    requires TurnDone(s', s'', k, events[i], ResetUp(fate, i), PublishUp(fate, i), next + |Requeued(events[..i], fate)|)
    ensures Turned(s, s'', k, events, fate, next, i + 1)
  {
    var sent := Requeued(events[..i], fate);
    OneMoreTurn(k, events, fate, s.ledger.rows, next, i);
    if GoesThrough(fate, i) {
      DepositOneMore(s.broker.bodies, next, sent, events[i]);
      OneMoreSerial(next, |sent|);
    }
    CoversNext(s'.front.replays[k].todo, events, i);
  }

  lemma OneMoreSerial(next: Serial, n: nat)
    ensures Serials(next, n + 1) == Serials(next, n) + {next + n}
  {
  }

  /** One more turn of the loop, from any state its earlier turns can have led to. */
  lemma TurnGoesOn(s: Sys, s': Sys, s'': Sys, k: Session, events: seq<Event>, fate: Fate, next: Serial, i: nat)
    requires i < |events| && Distinct(events) && Turned(s, s', k, events, fate, next, i)
    requires forall n :: n in s.broker.bodies ==> n < next
    requires Leads(s', TurnMoves(k, events[i].id, ResetUp(fate, i), PublishUp(fate, i), next + |Requeued(events[..i], fate)|), s'')
    ensures Turned(s, s'', k, events, fate, next, i + 1)
  {
    var n := next + |Requeued(events[..i], fate)|;
    DepositedElsewhere(s.broker.bodies, next, Requeued(events[..i], fate), n);
    CoversNext(s'.front.replays[k].todo, events, i);
    TurnDoes(s', s'', k, events[i], ResetUp(fate, i), PublishUp(fate, i), n);
    TurnedOneMore(s, s', s'', k, events, fate, next, i);
  }

  /** The loop after `i` turns: the moves made, their effect, the next message's number, and the report so far. */
  ghost predicate Progress(s: Sys, s': Sys, k: Session, events: seq<Event>, fate: Fate, next: Serial, i: nat, next': Serial, replayed: seq<Id>)
    requires i <= |events|
  {
    && Turned(s, s', k, events, fate, next, i)
    && Leads(s, ReplayMoves(k, events[..i], fate, next), s')
    && next' == next + |Requeued(events[..i], fate)|
    && replayed == IdsOf(Requeued(events[..i], fate))
  }

  lemma ProgressBegins(s: Sys, k: Session, events: seq<Event>, fate: Fate, next: Serial)
    requires k in s.front.replays && s.front.replays[k].current.None? && Covers(s.front.replays[k].todo, events, 0)
    ensures Progress(s, s, k, events, fate, next, 0, next, [])
  {
    LeadsIsContinue(s, [], s);
  }

  lemma StandsBefore(s: Sys, s': Sys, k: Session, events: seq<Event>, fate: Fate, next: Serial, i: nat)
    requires i < |events| && Distinct(events) && Turned(s, s', k, events, fate, next, i)
    ensures Before(s', k, events[i])
  {
    CoversNext(s'.front.replays[k].todo, events, i);
  }

  lemma ProgressGoesOn(s: Sys, s': Sys, s'': Sys, k: Session, events: seq<Event>, fate: Fate, next: Serial, i: nat, next': Serial, replayed: seq<Id>)
    requires i < |events| && Distinct(events) && Progress(s, s', k, events, fate, next, i, next', replayed)
    requires forall n :: n in s.broker.bodies ==> n < next
    requires Leads(s', TurnMoves(k, events[i].id, ResetUp(fate, i), PublishUp(fate, i), next'), s'')
    ensures Progress(s, s'', k, events, fate, next, i + 1, if GoesThrough(fate, i) then next' + 1 else next',
                     if GoesThrough(fate, i) then replayed + [events[i].id] else replayed)
  {
    OneMoreTurn(k, events, fate, s.ledger.rows, next, i);
    OneMoreId(Requeued(events[..i], fate), events[i]);
    TurnGoesOn(s, s', s'', k, events, fate, next, i);
    LeadsOn(s, ReplayMoves(k, events[..i], fate, next), s', TurnMoves(k, events[i].id, ResetUp(fate, i), PublishUp(fate, i), next'), s'');
  }

  /** Store and queue as a gateway finds them. */
  datatype Shot = Shot(rows: Rows, bodies: map<Serial, Body>, queued: set<Serial>, next: Serial)

  /**
   A replay's report is true: every event it names was a failed event of the client that was
   asked for, none is named twice, each is pending again and back in the queue, nothing else was
   published, and rows not asked for are as they were.
   */
  ghost predicate ReportHolds(x: Shot, y: Shot, apiKey: string, eventId: Id, replayed: seq<Id>) {
    && (forall i: nat :: i < |replayed| ==> BackInQueue(x.rows, y.rows, y.bodies, y.queued, replayed[i], x.next + i))
    && y.queued == x.queued + Serials(x.next, |replayed|)
    && (forall n :: n in x.bodies ==> n in y.bodies && y.bodies[n] == x.bodies[n])
    && (forall id <- replayed :: Replayable(x.rows, apiKey, id) && Asked(eventId, id))
    && NoneTwice(replayed)
    && y.rows.Keys == x.rows.Keys
    && (forall id :: id in x.rows && !(Replayable(x.rows, apiKey, id) && Asked(eventId, id)) ==> y.rows[id] == x.rows[id])
  }

  /** The report names failed events of the client only, each once. */
  lemma ReportIsOfFailedEvents(rows: Rows, apiKey: string, eventId: Id, events: seq<Event>, fate: Fate)
    requires Lists(rows, apiKey, eventId, events)
    ensures var replayed := IdsOf(Requeued(events, fate));
            (forall id <- replayed :: Replayable(rows, apiKey, id) && Asked(eventId, id)) && NoneTwice(replayed)
  {
    RequeuedAre(events, fate);
    var es := Requeued(events, fate);
    IdsAre(es);
    forall id <- IdsOf(es)
      ensures Replayable(rows, apiKey, id) && Asked(eventId, id)
    {
      var j :| 0 <= j < |es| && es[j].id == id;
      assert es[j] in es;
    }
  }

  /** When nothing fails it names all that were asked for. */
  lemma ReportIsComplete(rows: Rows, apiKey: string, eventId: Id, events: seq<Event>, fate: Fate)
    requires Lists(rows, apiKey, eventId, events) && forall i :: GoesThrough(fate, i)
    ensures forall id :: Replayable(rows, apiKey, id) && Asked(eventId, id) ==> id in IdsOf(Requeued(events, fate))
  {
    RequeuedAre(events, fate);
    var es := Requeued(events, fate);
    IdsAre(es);
    forall id | Replayable(rows, apiKey, id) && Asked(eventId, id)
      ensures id in IdsOf(es)
    {
      var i: nat :| i < |events| && events[i] == EventOf(id, rows[id]);
      assert Replayed(events, fate, i);
      var j :| 0 <= j < |es| && es[j] == events[i];
      assert IdsOf(es)[j] == id;
    }
  }

  /** The `i`-th event reported is pending again and back in the queue. */
  lemma ReportedIsBack(rows: Rows, apiKey: string, eventId: Id, events: seq<Event>, fate: Fate,
                       bodies: map<Serial, Body>, queued: set<Serial>, next: Serial, i: nat)
    requires Lists(rows, apiKey, eventId, events) && i < |Requeued(events, fate)|
    requires forall n :: n in bodies ==> n < next
    ensures var es := Requeued(events, fate);
            BackInQueue(rows, ResetRows(rows, events, fate), Deposited(bodies, next, es), queued + Serials(next, |es|), es[i].id, next + i)
  {
    var es := Requeued(events, fate);
    RequeuedAre(events, fate);
    assert es[i] in es;
    var j: nat :| Replayed(events, fate, j) && events[j] == es[i];
    assert events[j] in events;
    ListedRowIsReset(rows, events, fate, j);
    DepositedAt(bodies, next, es, i);
    SerialsAre(next, |es|);
  }

  /** What the loop leaves makes the report true. */
  lemma ReportIsTrue(x: Shot, y: Shot, apiKey: string, eventId: Id, events: seq<Event>, fate: Fate)
    requires Lists(x.rows, apiKey, eventId, events) && forall n :: n in x.bodies ==> n < x.next
    requires y.rows == ResetRows(x.rows, events, fate) && y.bodies == Deposited(x.bodies, x.next, Requeued(events, fate))
    requires y.queued == x.queued + Serials(x.next, |Requeued(events, fate)|)
    ensures ReportHolds(x, y, apiKey, eventId, IdsOf(Requeued(events, fate)))
  {
    var es := Requeued(events, fate);
    IdsAre(es);
    ReportIsOfFailedEvents(x.rows, apiKey, eventId, events, fate);
    RowsStayInPlace(x.rows, events, fate);
    forall i: nat | i < |es|
      ensures BackInQueue(x.rows, y.rows, y.bodies, y.queued, es[i].id, x.next + i)
    {
      ReportedIsBack(x.rows, apiKey, eventId, events, fate, x.bodies, x.queued, x.next, i);
    }
    forall n | n in x.bodies
      ensures n in y.bodies && y.bodies[n] == x.bodies[n]
    {
      DepositedElsewhere(x.bodies, x.next, es, n);
    }
    forall id | id in x.rows && !(Replayable(x.rows, apiKey, id) && Asked(eventId, id))
      ensures y.rows[id] == x.rows[id]
    {
      assert forall j :: 0 <= j < |events| ==> events[j] in events;
      UnlistedRowStays(x.rows, events, fate, id);
    }
  }

  class Gateway {
    const store: PostgresEventStore
    const queue: MessageQueue
    ghost var view: Sys  // the pipeline state these objects are part of

    ghost predicate Valid()
      reads this, store, queue
    {
      store.rows == view.ledger.rows && queue.Valid() && queue.Shows(view.broker)
    }

    constructor (store: PostgresEventStore, queue: MessageQueue, ghost view: Sys)
      requires store.rows == view.ledger.rows && queue.Valid() && queue.Shows(view.broker)
      ensures Valid() && this.store == store && this.queue == queue && this.view == view
    {
      this.store, this.queue, this.view := store, queue, view;
    }

    ghost function Now(): Shot
      reads this, store, queue
    {
      Shot(store.rows, queue.bodies, queue.queued, queue.next)
    }

    /**
     POST /v1/webhooks. A well-formed request saves its event and publishes it: two moves,
     answered 202 and the event's id if both succeed and 500 otherwise; nothing is undone when
     the publish fails.
     */
    method Ingest(r: WebhookRequest, id: Id, dbUp: bool, mqUp: bool, ghost h: Handler) returns (code: int, eventId: Option<Id>)
      requires Valid() && Consistent(view) && id !in view.ledger.used && h !in view.front.ingests
      modifies this, store, queue
      ensures Valid()
      ensures code == if !r.isPost then 405
                      else if r.apiKey == "" then 401
                      else if r.body.None? || r.body.value.targetUrl == "" || r.body.value.payload == "" then 400
                      else if dbUp && mqUp then 202
                      else 500
      // on a 202 a new message carries what the request asked for
      ensures code == 202 ==>
                && r.body.Some? && old(queue.next) !in old(queue.bodies)
                && queue.bodies.Keys == old(queue.bodies.Keys) + {old(queue.next)} && queue.queued == old(queue.queued) + {old(queue.next)}
                && queue.bodies[old(queue.next)].Webhook?
                && var e := queue.bodies[old(queue.next)].event;
                && e.id == id && e.apiKey == r.apiKey && e.url == r.body.value.targetUrl && e.payload == r.body.value.payload
                && e.idempotencyKey == if r.keyHeader != "" then r.keyHeader else r.altKeyHeader
      // and a request that got as far as the database has a new row exactly when its key was free
      ensures code == 202 || (code == 500 && dbUp) ==>
                && r.body.Some?
                && var header := if r.keyHeader != "" then r.keyHeader else r.altKeyHeader;
                var key := if header != "" then header else id;
                store.rows == if exists x :: x in old(store.rows) && old(store.rows)[x].idempotencyKey == key then old(store.rows)
                              else old(store.rows)[id := Row(key, r.apiKey, r.body.value.targetUrl, r.body.value.payload, Pending, None)]
      ensures code != 202 && !(code == 500 && dbUp) ==> store.rows == old(store.rows)
      ensures code != 202 ==> queue.bodies == old(queue.bodies) && queue.queued == old(queue.queued)
      ensures eventId == if code == 202 then Some(id) else None
      ensures Leads(old(view), if WellFormed(r) && dbUp
                               then [Save(h, RequestEvent(r, id)), Pipeline.Publish(h, old(queue.next), mqUp)]
                               else [], view)
    {
      LeadsIsContinue(view, [], view);
      if !r.isPost {
        return 405, None;
      }
      if r.apiKey == "" {
        return 401, None;
      }
      if r.body.None? || r.body.value.targetUrl == "" || r.body.value.payload == "" {
        return 400, None;
      }
      var idempKey := r.keyHeader;
      if idempKey == "" {
        idempKey := r.altKeyHeader;
      }
      var event := Event(id, r.apiKey, r.body.value.targetUrl, r.body.value.payload, idempKey);
      var ok := Accept(event, dbUp, mqUp, h);
      if !ok {
        return 500, None;
      }
      return 202, Some(id);
    }

    /** Saves an event and publishes it. */
    method Accept(event: Event, dbUp: bool, mqUp: bool, ghost h: Handler) returns (ok: bool)
      requires Valid() && Consistent(view) && event.id !in view.ledger.used && h !in view.front.ingests
      requires event.url != "" && event.payload != "" && event.apiKey != ""
      modifies this, store, queue
      ensures Valid() && ok == (dbUp && mqUp)
      ensures Leads(old(view), if dbUp then [Save(h, event), Pipeline.Publish(h, old(queue.next), mqUp)] else [], view)
      ensures old(queue.next) !in old(queue.bodies)
      ensures queue.bodies == if ok then old(queue.bodies)[old(queue.next) := Webhook(event)] else old(queue.bodies)
      ensures queue.queued == if ok then old(queue.queued) + {old(queue.next)} else old(queue.queued)
      ensures var key := if event.idempotencyKey == "" then event.id else event.idempotencyKey;
              store.rows == if !dbUp || (exists x :: x in old(store.rows) && old(store.rows)[x].idempotencyKey == key) then old(store.rows)
                            else old(store.rows)[event.id := Row(key, event.apiKey, event.url, event.payload, Pending, None)]
    {
      LeadsIsContinue(view, [], view);
      var saved := store.SaveEvent(event, dbUp);
      if !saved {
        return false;
      }
      LeadsByTwo(view, Save(h, event), Pipeline.Publish(h, queue.next, mqUp));
      SaveShows(view, h, event);
      view := Do(view, Save(h, event));
      PublishShows(view, h, queue.next, mqUp);
      ok := queue.Publish(event, mqUp);
      view := Do(view, Pipeline.Publish(h, old(queue.next), mqUp));
    }

    /** The events still to be replayed are those from position `i` on. */
    ghost predicate Remaining(k: Session, events: seq<Event>, i: nat)
      reads this
    {
      && k in view.front.replays && view.front.replays[k].current.None?
      && Covers(view.front.replays[k].todo, events, i)
    }

    /** Resets and publishes one event of a replay in progress. */
    method ReplayOne(event: Event, resetUp: bool, publishUp: bool, ghost k: Session) returns (ok: bool)
      requires Valid() && Before(view, k, event)
      modifies this, store, queue
      ensures Valid() && ok == (resetUp && publishUp)
      ensures Leads(old(view), TurnMoves(k, event.id, resetUp, publishUp, old(queue.next)), view)
      ensures queue.next == if ok then old(queue.next) + 1 else old(queue.next)
    {
      ghost var turn := TurnMoves(k, event.id, resetUp, publishUp, queue.next);
      ghost var after := Continue(view, turn);
      LeadsIsContinue(view, turn, after);
      TurnDoes(view, after, k, event, resetUp, publishUp, queue.next);
      view := after;
      var reset := store.UpdateEventStatus(event.id, Pending, "", resetUp);
      if !reset {
        return false;
      }
      ok := queue.Publish(event, publishUp);
    }

    /**
     The replay loop over the failed events it was given: each is reset to pending and
     published; an event whose reset or publish fails is skipped. Its moves, their effect and
     its report are exactly those of the events and of how they fare.
     */
    method ReplayAll(events: seq<Event>, fate: Fate, ghost k: Session) returns (replayed: seq<Id>)
      requires Valid() && Remaining(k, events, 0) && Distinct(events)
      modifies this, store, queue
      ensures Valid() && Turned(old(view), view, k, events, fate, old(queue.next), |events|)
      ensures Leads(old(view), ReplayMoves(k, events, fate, old(queue.next)), view)
      ensures replayed == IdsOf(Requeued(events, fate))
      ensures queue.next == old(queue.next) + |replayed|
    {
      replayed := [];
      ghost var start, next := view, queue.next;
      ProgressBegins(start, k, events, fate, next);
      var i := 0;
      while i < |events|
        invariant 0 <= i <= |events|
        invariant Valid() && Progress(start, view, k, events, fate, next, i, queue.next, replayed)
      {
        ghost var before, next' := view, queue.next;
        StandsBefore(start, view, k, events, fate, next, i);
        var ok := ReplayOne(events[i], ResetUp(fate, i), PublishUp(fate, i), k);
        ProgressGoesOn(start, before, view, k, events, fate, next, i, next', replayed);
        if ok {
          replayed := replayed + [events[i].id];
        }
        i := i + 1;
      }
      assert events[..|events|] == events;
      IdsAre(Requeued(events, fate));
    }

    /** The failed events a replay is about: those of the client, or the one asked for if it is among them. */
    method Select(apiKey: string, eventId: Id, up: bool) returns (ok: bool, events: seq<Event>)
      ensures ok == (up || eventId != "")
      ensures up ==> Lists(store.rows, apiKey, eventId, events)
      ensures !up ==> events == []
    {
      if eventId != "" {
        ok, events := true, [];
        if up && eventId in store.rows && store.rows[eventId].apiKey == apiKey && store.rows[eventId].status == Failed {
          events := [EventOf(eventId, store.rows[eventId])];
        }
      } else {
        ok, events := store.GetFailedEvents(apiKey, up);
      }
    }

    /** Replays the selected events: starts, loops and ends. */
    method RunReplay(apiKey: string, eventId: Id, events: seq<Event>, fate: Fate, ghost k: Session) returns (replayed: seq<Id>)
      requires Valid() && k !in view.front.replays && Lists(store.rows, apiKey, eventId, events)
      modifies this, store, queue
      ensures Valid() && k !in view.front.replays
      ensures replayed == IdsOf(Requeued(events, fate))
      ensures ReportHolds(old(Now()), Now(), apiKey, eventId, replayed)
      ensures Leads(old(view), ReplayRun(k, apiKey, eventId, events, fate, old(queue.next)), view)
    {
      ghost var start, end := ReplayStart(k, apiKey, Only(eventId)), ReplayEnd(k);
      ReplayStartShows(view, k, apiKey, eventId, events);
      LeadsByOne(view, start);
      view := Do(view, start);
      ghost var started, next := view, queue.next;
      replayed := ReplayAll(events, fate, k);
      assert events[..|events|] == events;
      ReportIsTrue(old(Now()), Now(), apiKey, eventId, events, fate);
      LeadsOn(old(view), [start], started, ReplayMoves(k, events, fate, next), view);
      ReplayEndShows(view, k, events);
      LeadsByOne(view, end);
      LeadsOn(old(view), [start] + ReplayMoves(k, events, fate, next), view, [end], Do(view, end));
      view := Do(view, end);
    }

    /**
     POST /v1/webhooks/replay: selects, resets and publishes. `queryUp` says whether the query
     is answered: when it is not, a replay of one event reports nothing and a replay of all
     answers 500. The report is true, and holds all that were asked for when nothing fails; what
     the handler does is a run of pipeline moves, fixed by what it selected and how that fared.
     */
    method ReplayEvents(isPost: bool, apiKey: string, eventId: Id, queryUp: bool, fate: Fate, ghost k: Session)
      returns (code: int, replayed: seq<Id>, ghost selected: seq<Event>)
      requires Valid() && k !in view.front.replays
      modifies this, store, queue
      ensures Valid() && k !in view.front.replays
      ensures code == if !isPost then 405 else if apiKey == "" then 401 else if !queryUp && eventId == "" then 500 else 200
      ensures code != 200 || !queryUp ==> replayed == [] && Now() == old(Now()) && view == old(view)
      ensures ReportHolds(old(Now()), Now(), apiKey, eventId, replayed)
      // only failed events of the client, and only the one asked for if one was
      ensures forall id <- replayed ::
                && id in old(store.rows) && old(store.rows)[id].apiKey == apiKey && old(store.rows)[id].status == Failed
                && (eventId != "" ==> id == eventId)
      ensures code == 200 && queryUp && fate == Fate({}, {}) ==>
                forall id :: (&& id in old(store.rows) && old(store.rows)[id].apiKey == apiKey && old(store.rows)[id].status == Failed
                              && (eventId != "" ==> id == eventId)) ==> id in replayed
      ensures code == 200 && queryUp && (forall i :: GoesThrough(fate, i)) ==>
                forall id :: Replayable(old(store.rows), apiKey, id) && Asked(eventId, id) ==> id in replayed
      ensures code == 200 && queryUp ==>
                && Lists(old(store.rows), apiKey, eventId, selected)
                && replayed == IdsOf(Requeued(selected, fate))
                && Leads(old(view), ReplayRun(k, apiKey, eventId, selected, fate, old(queue.next)), view)
    {
      replayed, selected := [], [];
      if !isPost {
        return 405, replayed, selected;
      }
      if apiKey == "" {
        return 401, replayed, selected;
      }
      var ok, events := Select(apiKey, eventId, queryUp);
      if !ok {
        return 500, replayed, selected;
      }
      if !queryUp {
        return 200, replayed, selected;
      }
      selected := events;
      if forall i :: GoesThrough(fate, i) {
        ReportIsComplete(store.rows, apiKey, eventId, events, fate);
      }
      ghost var rows := store.rows;
      assert forall id :: id in rows && rows[id].apiKey == apiKey && rows[id].status == Failed && (eventId != "" ==> id == eventId) <==>
                            Replayable(rows, apiKey, id) && Asked(eventId, id);
      replayed := RunReplay(apiKey, eventId, events, fate, k);
      code := 200;
    }
  }

  /** The breaker calls of a handled delivery take its URL to where `WorkerLoad` says, and no other URL anywhere. */
  lemma AfterBothCalls(c: Breaker.Config, log: seq<Mirror.UrlCall>, url: string, h: WorkerLoad.Handled, target: string)
    ensures var calls := WorkerLoad.CallsOf(h);
            var was := Mirror.Lookup(Mirror.BreakerAfter(c, log), target);
            Mirror.Lookup(Mirror.BreakerAfter(c, log + [Mirror.UrlCall(url, calls[0])] + [Mirror.UrlCall(url, calls[1])]), target)
            == if url == target then WorkerLoad.UrlAfter(c, was, h) else was
  {
    var first, second := Mirror.UrlCall(url, WorkerLoad.CallsOf(h)[0]), Mirror.UrlCall(url, WorkerLoad.CallsOf(h)[1]);
    Mirror.LookupAfterCall(c, log, first, target);
    Mirror.LookupAfterCall(c, log + [first], second, target);
  }

  /**
   A delivery to `url` (none if its body is malformed) was handled as `h` says: the breaker's log
   went from `log` to `log'` by its calls, and `load` knew the delivery and the target's state.
   */
  ghost predicate Foreseen(c: Breaker.Config, load: DeadTarget.Sys, n: Serial, url: Option<string>, h: WorkerLoad.Handled,
                           log: seq<Mirror.UrlCall>, log': seq<Mirror.UrlCall>, target: string)
  {
    && WorkerLoad.Plausible(h)
    && n in load.active && load.active[n].phase.Arrived? && load.active[n].watched == (url == Some(target)) && load.clock <= h.t0
    && load.url == Mirror.Lookup(Mirror.BreakerAfter(c, log), target)
    && (url == Some(target) ==> h.granted == Breaker.Granted(c, load.url, h.t0))
    && log' == (if url.None? then log
                else log + [Mirror.UrlCall(url.value, WorkerLoad.CallsOf(h)[0])] + [Mirror.UrlCall(url.value, WorkerLoad.CallsOf(h)[1])])
  }

  lemma LoadComesTo(c: Breaker.Config, load: DeadTarget.Sys, n: Serial, url: Option<string>, h: WorkerLoad.Handled,
                    log: seq<Mirror.UrlCall>, log': seq<Mirror.UrlCall>, target: string)
    requires Foreseen(c, load, n, url, h, log, log', target)
    ensures var r := DeadTarget.Execute(c, DeadTarget.PREFETCH, load, WorkerLoad.LoadMoves(n, url == Some(target), h));
            r.Some? && r.value.url == Mirror.Lookup(Mirror.BreakerAfter(c, log'), target)
  {
    WorkerLoad.HandlingIsARun(c, DeadTarget.PREFETCH, load, n, h);
    if url.Some? {
      AfterBothCalls(c, log, url.value, h, target);
    }
  }

  /** An error message as the table keeps it. */
  function TextOf(error: string): Option<string> {
    if error == "" then None else Some(error)
  }

  /** The table after a status write that may fail. */
  function Marked(rows: Rows, id: Id, up: bool, status: Status, error: string): Rows {
    if up && id in rows then rows[id := rows[id].(status := status, error := TextOf(error))] else rows
  }

  class WebhookWorker {
    const store: PostgresEventStore
    const queue: MessageQueue
    const cb: BreakerObject.UrlCircuitBreaker
    ghost var view: Sys               // the pipeline state these objects are part of

    ghost const target: string        // a URL, and
    ghost var load: DeadTarget.Sys    // the worker's deliveries as seen from it

    ghost predicate Valid()
      reads this, store, queue, cb, cb.urlStates.Values, cb.onStateChange
    {
      && store.rows == view.ledger.rows && queue.Valid() && queue.Shows(view.broker)
      && cb.Valid()
      && load.url == UrlState(target)
    }

    /** What the breaker holds for a URL. */
    ghost function UrlState(url: string): Breaker.Url
      reads cb, cb.urlStates.Values
    {
      Mirror.Lookup(cb.Contents(), url)
    }

    constructor (store: PostgresEventStore, queue: MessageQueue, cb: BreakerObject.UrlCircuitBreaker,
                 ghost view: Sys, ghost target: string, ghost load: DeadTarget.Sys)
      requires store.rows == view.ledger.rows && queue.Valid() && queue.Shows(view.broker) && cb.Valid()
      requires load.url == Mirror.Lookup(cb.Contents(), target)
      ensures Valid() && this.store == store && this.queue == queue && this.cb == cb && this.view == view
      ensures this.target == target && this.load == load
    {
      this.store, this.queue, this.cb, this.view := store, queue, cb, view;
      this.target, this.load := target, load;
    }

    /** The delivery is the pipeline's and has not been looked at; `load` knows it, and whether it is for the target. */
    ghost predicate Fresh(n: Serial)
      reads this
    {
      && n in view.broker.bodies && InPhase(view.broker, n, Taken)
      && n in load.active && load.active[n].phase.Arrived?
      && (load.active[n].watched <==> CarriesEvent(view.broker, n) && view.broker.bodies[n].event.url == target)
    }

    /** All of `Valid` but the link to `load`, which is updated once the delivery is handled. */
    ghost predicate InStep()
      reads this, store, queue, cb, cb.urlStates.Values, cb.onStateChange
    {
      store.rows == view.ledger.rows && queue.Valid() && queue.Shows(view.broker) && cb.Valid()
    }

    method RecordOutcome(url: string, delivered: bool, t2: int)
      requires cb.Valid()
      modifies cb`urlStates, cb`log, cb.urlStates.Values, cb.onStateChange
      ensures cb.Valid() && fresh(cb.urlStates.Values - old(cb.urlStates.Values))
      ensures cb.log == old(cb.log) + [Mirror.UrlCall(url, Breaker.Call(if delivered then Breaker.Success else Breaker.Failure, t2))]
    {
      if !delivered {
        var tripped := cb.RecordFailure(url, t2);
      } else {
        cb.RecordSuccess(url, t2);
      }
    }

    /** Writes the outcome of a decided delivery and settles it: ack when it is positive, dead-letter otherwise. */
    method Finish(n: Serial, id: Id, ok: bool, error: string, dbUp: bool)
      requires InStep() && InPhase(view.broker, n, Decided(ok))
      requires CarriesEvent(view.broker, n) && view.broker.bodies[n].event.id == id
      modifies this`view, store, queue
      ensures InStep()
      ensures view == Do(Do(old(view), Write(n, dbUp, error)), Settle(n))
      ensures store.rows == Marked(old(store.rows), id, dbUp, if ok then Success else Failed, error)
      ensures n !in queue.unacked && queue.acked == (if ok then old(queue.acked) + {n} else old(queue.acked))
      ensures queue.dead == if ok then old(queue.dead) else old(queue.dead) + {n}
    {
      WriteAndSettleShow(view, n, dbUp, error);
      var written := store.UpdateEventStatus(id, if ok then Success else Failed, error, dbUp);
      if ok {
        queue.Ack(n);
      } else {
        queue.Nack(n);
      }
      view := Do(Do(view, Write(n, dbUp, error)), Settle(n));
    }

    /** Delivers a granted message with retries, records the outcome in the breaker, writes and settles it. */
    method Attempt(n: Serial, event: Event, buildable: bool, attempts: seq<Retry.Attempt>, t2: int, failure: string, dbUp: bool)
      returns (delivered: bool, posts: nat)
      requires InStep() && InPhase(view.broker, n, Granted) && CarriesEvent(view.broker, n) && view.broker.bodies[n].event == event
      requires |attempts| >= 3
      modifies this`view, store, queue, cb`urlStates, cb`log, cb.urlStates.Values, cb.onStateChange
      ensures InStep()
      ensures delivered <==>
                buildable && exists i :: 0 <= i < 3 && attempts[i].takes <= 5_000_000_000
                                         && attempts[i].response.Status? && 200 <= attempts[i].response.code < 300
      ensures posts <= 3
      ensures WorkerLoad.LoopFared(buildable, attempts, posts, delivered)
      ensures view == Do(Do(Do(old(view), Deliver(n, delivered)), Write(n, dbUp, if delivered then "" else failure)), Settle(n))
      ensures store.rows == Marked(old(store.rows), event.id, dbUp, if delivered then Success else Failed, if delivered then "" else failure)
      ensures cb.log == old(cb.log) + [Mirror.UrlCall(event.url, Breaker.Call(if delivered then Breaker.Success else Breaker.Failure, t2))]
      ensures n !in queue.unacked && queue.acked == (if delivered then old(queue.acked) + {n} else old(queue.acked))
      ensures queue.dead == if delivered then old(queue.dead) else old(queue.dead) + {n}
    {
      var waited, elapsed;
      delivered, posts, waited, elapsed := Retry.DeliverWithRetry(Retry.MAX_ATTEMPTS, buildable, attempts);
      DeliverShows(view, n, delivered);
      RecordOutcome(event.url, delivered, t2);
      view := Do(view, Deliver(n, delivered));
      Finish(n, event.id, delivered, if delivered then "" else failure, dbUp);
    }

    /** Reports a refused message as failed, with the state the breaker shows, and dead-letters it. */
    method Refuse(n: Serial, event: Event, t1: int, refusal: string, dbUp: bool)
      requires InStep() && InPhase(view.broker, n, Decided(false)) && CarriesEvent(view.broker, n) && view.broker.bodies[n].event == event
      modifies this`view, store, queue, cb`urlStates, cb`log, cb.urlStates.Values, cb.onStateChange
      ensures InStep()
      ensures view == Do(Do(old(view), Write(n, dbUp, refusal)), Settle(n))
      ensures store.rows == Marked(old(store.rows), event.id, dbUp, Failed, refusal)
      ensures cb.log == old(cb.log) + [Mirror.UrlCall(event.url, Breaker.Call(Breaker.Query, t1))]
      ensures n !in queue.unacked && queue.acked == old(queue.acked) && queue.dead == old(queue.dead) + {n}
    {
      var state := cb.CurrentState(event.url, t1);
      Finish(n, event.id, false, refusal, dbUp);
    }

    /** Asks the breaker and acts on its answer. */
    method Dispatch(n: Serial, event: Event, buildable: bool, attempts: seq<Retry.Attempt>, t0: int, t1: int, t2: int,
                    refusal: string, failure: string, dbUp: bool)
      returns (granted: bool, delivered: bool, posts: nat)
      requires InStep() && InPhase(view.broker, n, Taken) && CarriesEvent(view.broker, n) && view.broker.bodies[n].event == event
      requires t0 <= t1 && t0 <= t2 && |attempts| >= 3
      modifies this`view, store, queue, cb`urlStates, cb`log, cb.urlStates.Values, cb.onStateChange
      ensures InStep()
      ensures granted == Breaker.Granted(cb.Configuration(), old(UrlState(event.url)), t0)
      ensures granted <==> !BreakerHistory.Refused(cb.Configuration(), Mirror.Project(old(cb.log), event.url), t0)
      ensures delivered <==>
                granted && buildable && exists i :: 0 <= i < 3 && attempts[i].takes <= 5_000_000_000
                                                    && attempts[i].response.Status? && 200 <= attempts[i].response.code < 300
      ensures WorkerLoad.Plausible(WorkerLoad.Handled(granted, t0, t1, t2, buildable, attempts, posts, delivered))
      ensures view == if !granted then Do(Do(Do(old(view), Gate(n, false)), Write(n, dbUp, refusal)), Settle(n))
                      else Do(Do(Do(Do(old(view), Gate(n, true)), Deliver(n, delivered)),
                                 Write(n, dbUp, if delivered then "" else failure)), Settle(n))
      ensures store.rows == Marked(old(store.rows), event.id, dbUp, if delivered then Success else Failed,
                                   if !granted then refusal else if delivered then "" else failure)
      ensures cb.log == old(cb.log) + [Mirror.UrlCall(event.url, Breaker.Call(Breaker.Allow, t0))]
                        + [Mirror.UrlCall(event.url, if !granted then Breaker.Call(Breaker.Query, t1)
                                                     else Breaker.Call(if delivered then Breaker.Success else Breaker.Failure, t2))]
      ensures n !in queue.unacked && queue.acked == (if delivered then old(queue.acked) + {n} else old(queue.acked))
      ensures queue.dead == if delivered then old(queue.dead) else old(queue.dead) + {n}
    {
      granted := cb.Allow(event.url, t0);
      delivered, posts := false, 0;
      GateShows(view, n, granted);
      view := Do(view, Gate(n, granted));
      if !granted {
        Refuse(n, event, t1, refusal, dbUp);
      } else {
        delivered, posts := Attempt(n, event, buildable, attempts, t2, failure, dbUp);
      }
    }

    /** Dead-letters a message whose body is malformed. */
    method Discard(n: Serial)
      requires InStep() && InPhase(view.broker, n, Taken) && !CarriesEvent(view.broker, n)
      modifies this`view, queue
      ensures InStep() && view == Do(old(view), Reject(n))
      ensures n !in queue.unacked && queue.acked == old(queue.acked) && queue.dead == old(queue.dead) + {n}
    {
      RejectShows(view, n);
      view := Do(view, Reject(n));
      queue.Nack(n);
    }

    /** The breaker's state for the target after a handled delivery is the one `load` comes to. */
    ghost method Handle(n: Serial, url: Option<string>, h: WorkerLoad.Handled, log: seq<Mirror.UrlCall>)
      requires InStep() && Foreseen(cb.Configuration(), load, n, url, h, log, cb.log, target)
      modifies this`load
      ensures Valid()
      ensures DeadTarget.Execute(cb.Configuration(), DeadTarget.PREFETCH, old(load), WorkerLoad.LoadMoves(n, url == Some(target), h)) == Some(load)
    {
      LoadComesTo(cb.Configuration(), load, n, url, h, log, cb.log, target);
      load := DeadTarget.Execute(cb.Configuration(), DeadTarget.PREFETCH, load, WorkerLoad.LoadMoves(n, url == Some(target), h)).value;
    }

    /**
     Handles one delivery taken from the queue. `t0`, `t1`, `t2` are the breaker's clock
     readings for admission, state and outcome. A malformed body is dead-lettered at once and
     the breaker is not asked; otherwise the breaker's answer decides: a refused delivery is
     marked failed and dead-lettered; for a granted one the retry loop decides between success
     with an acknowledgement and failure with dead-lettering, and the outcome is recorded in
     the breaker. Seen from the target, all of this is a run of the worker in `DeadTarget`.
     */
    method HandleDelivery(n: Serial, buildable: bool, attempts: seq<Retry.Attempt>, t0: int, t1: int, t2: int,
                          refusal: string, failure: string, dbUp: bool)
      returns (granted: bool, delivered: bool, posts: nat)
      requires Valid() && Fresh(n) && load.clock <= t0 <= t1 && t0 <= t2
      requires |attempts| >= 3
      modifies this`view, this`load, store, queue, cb`urlStates, cb`log, cb.urlStates.Values, cb.onStateChange
      ensures Valid()
      ensures granted <==> CarriesEvent(old(view).broker, n)
                           && Breaker.Granted(cb.Configuration(), old(UrlState(view.broker.bodies[n].event.url)), t0)
      ensures granted <==> CarriesEvent(old(view).broker, n)
                           && !BreakerHistory.Refused(cb.Configuration(), Mirror.Project(old(cb.log), old(view).broker.bodies[n].event.url), t0)
      ensures delivered <==>
                granted && buildable && exists i :: 0 <= i < 3 && attempts[i].takes <= 5_000_000_000
                                                    && attempts[i].response.Status? && 200 <= attempts[i].response.code < 300
      ensures view == if !CarriesEvent(old(view).broker, n) then Do(old(view), Reject(n))
                      else if !granted then Do(Do(Do(old(view), Gate(n, false)), Write(n, dbUp, refusal)), Settle(n))
                      else Do(Do(Do(Do(old(view), Gate(n, true)), Deliver(n, delivered)),
                                 Write(n, dbUp, if delivered then "" else failure)), Settle(n))
      // the row of the event says how it went, if the database answers; nothing else in the table changes
      ensures store.rows == if !CarriesEvent(old(view).broker, n) || !dbUp || old(view).broker.bodies[n].event.id !in old(store.rows)
                            then old(store.rows)
                            else var id := old(view).broker.bodies[n].event.id;
                                 old(store.rows)[id := old(store.rows)[id].(
                                   status := if delivered then Success else Failed,
                                   error := if delivered then None else if !granted then TextOf(refusal) else TextOf(failure))]
      ensures !CarriesEvent(old(view).broker, n) ==> cb.log == old(cb.log)
      ensures CarriesEvent(old(view).broker, n) ==>
                var url := old(view).broker.bodies[n].event.url;
                cb.log == old(cb.log) + [Mirror.UrlCall(url, Breaker.Call(Breaker.Allow, t0))]
                          + [Mirror.UrlCall(url, if !granted then Breaker.Call(Breaker.Query, t1)
                                                 else Breaker.Call(if delivered then Breaker.Success else Breaker.Failure, t2))]
      ensures n !in queue.unacked && queue.acked == (if delivered then old(queue.acked) + {n} else old(queue.acked))
      ensures queue.dead == if delivered then old(queue.dead) else old(queue.dead) + {n}
      ensures posts <= 3
      ensures DeadTarget.Execute(cb.Configuration(), DeadTarget.PREFETCH, old(load),
                                 WorkerLoad.LoadMoves(n, old(load).active[n].watched,
                                                      WorkerLoad.Handled(granted, t0, t1, t2, buildable, attempts, posts, delivered)))
           == Some(load)
    {
      ghost var log := cb.log;
      granted, delivered, posts := false, false, 0;
      var body := queue.bodies[n];
      if body.Malformed? {
        Discard(n);
        Handle(n, None, WorkerLoad.Handled(false, t0, t1, t2, buildable, attempts, 0, false), log);
        return;
      }
      granted, delivered, posts := Dispatch(n, body.event, buildable, attempts, t0, t1, t2, refusal, failure, dbUp);
      Handle(n, Some(body.event.url), WorkerLoad.Handled(granted, t0, t1, t2, buildable, attempts, posts, delivered), log);
    }
  }
}
