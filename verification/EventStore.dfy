/**
 The events table: insert-or-skip on the idempotency key, status updates, and the query
 for a client's failed events.
 */
module EventStore {
  import opened Prelude

  type Id = string

  datatype Status = Pending | Success | Failed

  /** A webhook event as handlers and messages carry it. */
  datatype Event = Event(id: Id, apiKey: string, url: string, payload: string, idempotencyKey: string)

  datatype Row = Row(idempotencyKey: string, apiKey: string, url: string, payload: string, status: Status, error: Option<string>)

  type Rows = map<Id, Row>

  /** The key a row is stored under: the client's, or the event's own id when it gave none. */
  function EffectiveKey(e: Event): string {
    if e.idempotencyKey == "" then e.id else e.idempotencyKey
  }

  predicate KeyTaken(rows: Rows, key: string) {
    exists id :: id in rows && rows[id].idempotencyKey == key
  }

  function RowOf(e: Event): Row {
    Row(EffectiveKey(e), e.apiKey, e.url, e.payload, Pending, None)
  }

  /** INSERT ... ON CONFLICT (idempotency_key) DO NOTHING. */
  function Insert(rows: Rows, e: Event): Rows {
    if KeyTaken(rows, EffectiveKey(e)) then rows else rows[e.id := RowOf(e)]
  }

  /** UPDATE ... WHERE id: no row, no effect. */
  function SetStatus(rows: Rows, id: Id, status: Status, error: string): Rows {
    if id in rows then rows[id := rows[id].(status := status, error := if error == "" then None else Some(error))] else rows
  }

  function EventOf(id: Id, row: Row): Event {
    Event(id, row.apiKey, row.url, row.payload, row.idempotencyKey)
  }

  /** The client's failed events. */
  predicate Replayable(rows: Rows, apiKey: string, id: Id) {
    id in rows && rows[id].apiKey == apiKey && rows[id].status == Failed
  }

  ghost predicate KeysUnique(rows: Rows) {
    forall a, b :: a in rows && b in rows && rows[a].idempotencyKey == rows[b].idempotencyKey ==> a == b
  }

  /** Nothing but status and error message of a row ever changes, and no row disappears. */
  ghost predicate RowsPersist(before: Rows, after: Rows) {
    forall id :: id in before ==>
      && id in after
      && after[id].idempotencyKey == before[id].idempotencyKey && after[id].apiKey == before[id].apiKey
      && after[id].url == before[id].url && after[id].payload == before[id].payload
  }

  /** Exactly one row is stored under the key. */
  ghost predicate StoredOnce(rows: Rows, key: string) {
    exists id :: id in rows && rows[id].idempotencyKey == key
                 && forall other :: other in rows && rows[other].idempotencyKey == key ==> other == id
  }

  lemma InsertKeepsTable(rows: Rows, e: Event)
    requires KeysUnique(rows) && e.id !in rows
    ensures KeysUnique(Insert(rows, e)) && RowsPersist(rows, Insert(rows, e)) && KeyTaken(Insert(rows, e), EffectiveKey(e))
  {
    var after := Insert(rows, e);
    if !KeyTaken(rows, EffectiveKey(e)) {
      assert after[e.id].idempotencyKey == EffectiveKey(e);
    }
  }

  lemma TakenIsStoredOnce(rows: Rows, key: string)
    requires KeysUnique(rows) && KeyTaken(rows, key)
    ensures StoredOnce(rows, key)
  {
    var id :| id in rows && rows[id].idempotencyKey == key;
    assert forall other :: other in rows && rows[other].idempotencyKey == key ==> other == id;
  }

  /** An insert leaves exactly one row under the event's key, whoever's it is, and disturbs no other. */
  lemma InsertStoresOnce(rows: Rows, e: Event)
    requires KeysUnique(rows) && e.id !in rows
    ensures KeysUnique(Insert(rows, e)) && RowsPersist(rows, Insert(rows, e)) && StoredOnce(Insert(rows, e), EffectiveKey(e))
  {
    InsertKeepsTable(rows, e);
    TakenIsStoredOnce(Insert(rows, e), EffectiveKey(e));
  }

  lemma SetStatusKeepsTable(rows: Rows, id: Id, status: Status, error: string)
    requires KeysUnique(rows)
    ensures KeysUnique(SetStatus(rows, id, status, error)) && RowsPersist(rows, SetStatus(rows, id, status, error))
  {
  }

  class PostgresEventStore {
    var rows: Rows

    constructor ()
      ensures rows == map[]
    {
      rows := map[];
    }

    /** `up` says whether the database answers. A taken id with a free key violates the primary key. */
    method SaveEvent(e: Event, up: bool) returns (ok: bool)
      modifies this
      ensures ok == (up && (e.id !in old(rows) || KeyTaken(old(rows), EffectiveKey(e))))
      ensures rows == if ok then Insert(old(rows), e) else old(rows)
      // a free key: one new pending row with the event's fields; a taken one: nothing
      ensures var key := if e.idempotencyKey == "" then e.id else e.idempotencyKey;
              && (up && e.id !in old(rows) && (forall id :: id in old(rows) ==> old(rows)[id].idempotencyKey != key) ==>
                    ok && rows == old(rows)[e.id := Row(key, e.apiKey, e.url, e.payload, Pending, None)])
              && (up && (exists id :: id in old(rows) && old(rows)[id].idempotencyKey == key) ==> ok && rows == old(rows))
    {
      if !up {
        return false;
      }
      var idempKey := e.idempotencyKey;
      if idempKey == "" {
        idempKey := e.id;
      }
      if KeyTaken(rows, idempKey) {
        return true;
      }
      if e.id in rows {
        return false;
      }
      rows := rows[e.id := Row(idempKey, e.apiKey, e.url, e.payload, Pending, None)];
      return true;
    }

    method UpdateEventStatus(id: Id, status: Status, error: string, up: bool) returns (ok: bool)
      modifies this
      ensures ok == up
      ensures rows == if up then SetStatus(old(rows), id, status, error) else old(rows)
      ensures rows == if up && id in old(rows)
                      then old(rows)[id := old(rows)[id].(status := status, error := if error == "" then None else Some(error))]
                      else old(rows)
    {
      if !up {
        return false;
      }
      var message: Option<string> := None;
      if error != "" {
        message := Some(error);
      }
      if id in rows {
        rows := rows[id := rows[id].(status := status, error := message)];
      }
      return true;
    }

    /** Lists each failed event of the client once, as its row has it, if the database answers. */
    method GetFailedEvents(apiKey: string, up: bool) returns (ok: bool, events: seq<Event>)
      ensures ok == up && (!up ==> events == [])
      ensures forall e <- events :: Replayable(rows, apiKey, e.id) && e == EventOf(e.id, rows[e.id])
      ensures ok ==> forall id :: Replayable(rows, apiKey, id) ==> EventOf(id, rows[id]) in events
      // the client's rows with status failed, and no others, each with the fields of its row
      ensures forall e <- events ::
                && e.id in rows && rows[e.id].apiKey == apiKey && rows[e.id].status == Failed
                && e.apiKey == rows[e.id].apiKey && e.url == rows[e.id].url && e.payload == rows[e.id].payload
                && e.idempotencyKey == rows[e.id].idempotencyKey
      ensures ok ==> forall id :: id in rows && rows[id].apiKey == apiKey && rows[id].status == Failed ==>
                exists i :: 0 <= i < |events| && events[i].id == id
      ensures forall i, j :: 0 <= i < j < |events| ==> events[i].id != events[j].id
    {
      ok, events := up, [];
      if !up {
        return;
      }
      var left := rows.Keys;
      while left != {}
        invariant left <= rows.Keys
        invariant forall e <- events :: Replayable(rows, apiKey, e.id) && e == EventOf(e.id, rows[e.id]) && e.id !in left
        invariant forall id :: Replayable(rows, apiKey, id) && id !in left ==> EventOf(id, rows[id]) in events
        invariant forall i, j :: 0 <= i < j < |events| ==> events[i].id != events[j].id
        decreases |left|
      {
        var id :| id in left;
        left := left - {id};
        if rows[id].apiKey == apiKey && rows[id].status == Failed {
          events := events + [EventOf(id, rows[id])];
        }
      }
      forall id | id in rows && rows[id].apiKey == apiKey && rows[id].status == Failed
        ensures exists i :: 0 <= i < |events| && events[i].id == id
      {
        assert Replayable(rows, apiKey, id);
        var i :| 0 <= i < |events| && events[i] == EventOf(id, rows[id]);
        assert events[i].id == id;
      }
    }
  }
}
