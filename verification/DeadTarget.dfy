/**
 The delivery worker around one watched URL: up to `Q` unsettled deliveries run at
 once, each asking the breaker, posting with retries, recording its outcome and
 settling. The module bounds what a target that never answers has to bear.

 Deliveries to other URLs are present too; they only occupy places in the window.
 */
module DeadTarget {
  import opened Prelude
  import opened Breaker
  import LazyEager
  import Mirror
  import Retry

  type Id = nat

  const PREFETCH: nat := 100

  datatype Phase =
    | Arrived
    | Posting(done: nat)      // granted; `done` attempts have failed
    | Decided(ok: bool)       // the retry loop has returned
    | Blocked                 // refused; about to ask for the state to report
    | Settling                // outcome recorded; status write and ack or nack remain

  datatype Delivery = Delivery(
    watched: bool,
    phase: Phase,
    since: int,                      // when it is free to go on: granted, or done with an attempt and its backoff
    grant: nat)                      // the place of its grant in the breaker calls

  datatype Sys = Sys(
    active: map<Id, Delivery>,       // taken from the queue and not yet settled
    seen: set<Id>,                   // every delivery taken so far
    url: Url,                        // the watched URL's breaker
    clock: int,
    calls: seq<Call>,                // breaker calls for the watched URL
    grants: set<Id>,                 // deliveries granted to the watched URL
    probes: set<Id>,                 // those granted since it last turned Half-Open
    posts: set<(Id, nat)>,           // HTTP posts made for them: delivery and attempt
    own: map<nat, nat>)              // for each recorded outcome among the calls, its grant

  datatype Move =
    | Take(id: Id, watched: bool)
    | Gate(id: Id, now: int, pass: bool)   // `pass` answers for other URLs
    | Post(id: Id, attempt: Retry.Attempt)
    | BuildError(id: Id)
    | Record(id: Id, now: int)
    | AskState(id: Id, now: int)           // the blocked path's call of State
    | Watch(now: int)                      // anyone else's call of State
    | Settle(id: Id)

  function Put(s: Sys, id: Id, phase: Phase): Sys
    requires id in s.active
  {
    s.(active := s.active[id := s.active[id].(phase := phase)])
  }

  /** A breaker call for the watched URL. */
  function Ask(c: Config, s: Sys, op: Op, now: int): Sys {
    var call := Call(op, now);
    s.(url := Locked(c, s.url, call), clock := now, calls := s.calls + [call])
  }

  function DoGate(c: Config, s: Sys, id: Id, now: int, pass: bool): Sys
    requires id in s.active
  {
    if !s.active[id].watched then Put(s, id, if pass then Posting(0) else Settling)
    else if Granted(c, s.url, now) then
      var turned := s.url.state.Open?;
      var granted := s.(active := s.active[id := Delivery(true, Posting(0), now, |s.calls|)]);
      Ask(c, granted, Allow, now).(
        grants := s.grants + {id},
        probes := if turned then {id} else s.probes + {id})
    else Ask(c, Put(s, id, Blocked), Allow, now)
  }

  function DoState(c: Config, s: Sys, now: int): Sys {
    Ask(c, s, Query, now).(probes := if Due(c, s.url, now) then {} else s.probes)
  }

  /** Where a delivery stands after its attempt number `done`. */
  function Following(done: nat, attempt: Retry.Attempt): Phase {
    if Retry.Accepted(Retry.Seen(attempt)) then Decided(true)
    else if done + 1 < Retry.MAX_ATTEMPTS then Posting(done + 1)
    else Decided(false)
  }

  /** How long that attempt keeps it, with the backoff that follows unless it was the last. */
  function Delay(done: nat, attempt: Retry.Attempt): nat {
    Retry.Spent(attempt) + if Following(done, attempt).Posting? then Retry.Pow2(done) * SECOND else 0
  }

  function DoPost(s: Sys, id: Id, attempt: Retry.Attempt): Sys
    requires id in s.active && s.active[id].phase.Posting?
  {
    var d := s.active[id];
    var done := d.phase.done;
    var s' := s.(active := s.active[id := d.(phase := Following(done, attempt), since := d.since + Delay(done, attempt))]);
    if d.watched then s'.(posts := s.posts + {(id, done)}) else s'
  }

  function DoRecord(c: Config, s: Sys, id: Id, now: int): Sys
    requires id in s.active && s.active[id].phase.Decided?
  {
    var s' := Put(s, id, Settling);
    if s.active[id].watched
    then Ask(c, s', if s.active[id].phase.ok then Success else Failure, now).(own := s.own[|s.calls| := s.active[id].grant])
    else s'
  }

  /** One step of the worker with window `q`, or `None` when it is not possible. */
  function Next(c: Config, q: nat, s: Sys, m: Move): Option<Sys> {
    match m
    case Take(id, watched) =>
      if id in s.seen || |s.active| >= q then None
      else Some(s.(active := s.active[id := Delivery(watched, Arrived, s.clock, 0)], seen := s.seen + {id}))
    case Gate(id, now, pass) =>
      if id !in s.active || !s.active[id].phase.Arrived? || now < s.clock then None
      else Some(DoGate(c, s, id, now, pass))
    case Post(id, attempt) =>
      if id !in s.active || !s.active[id].phase.Posting? then None
      else Some(DoPost(s, id, attempt))
    case BuildError(id) =>
      if id !in s.active || s.active[id].phase != Posting(0) then None
      else Some(Put(s, id, Decided(false)))
    case Record(id, now) =>
      if id !in s.active || !s.active[id].phase.Decided? || now < s.clock then None
      else Some(DoRecord(c, s, id, now))
    case AskState(id, now) =>
      if id !in s.active || !s.active[id].phase.Blocked? || now < s.clock then None
      else Some(DoState(c, Put(s, id, Settling), now))
    case Watch(now) =>
      if now < s.clock then None else Some(DoState(c, s, now))
    case Settle(id) =>
      if id !in s.active || !s.active[id].phase.Settling? then None
      else Some(s.(active := s.active - {id}))
  }

  function Execute(c: Config, q: nat, s0: Sys, moves: seq<Move>): Option<Sys> {
    if moves == [] then Some(s0)
    else
      match Execute(c, q, s0, moves[..|moves| - 1])
      case None => None
      case Some(s) => Next(c, q, s, moves[|moves| - 1])
  }

  /**
   Observation may start at any moment: any breaker state a run can be in, any
   deliveries under way, and the counts at zero.
   */
  ghost predicate Start(c: Config, q: nat, s: Sys) {
    && (s.url.state.Closed? ==> s.url.failures < c.maxFailures)
    && |s.active| <= q
    && s.active.Keys <= s.seen
    && (forall id :: id in s.active ==> s.active[id].phase.Posting? ==> s.active[id].phase.done < Retry.MAX_ATTEMPTS)
    && s.calls == [] && s.grants == {} && s.probes == {} && s.posts == {} && s.own == map[]
  }

  /** Deliveries granted to the watched URL whose outcome is still to be recorded. */
  ghost function Outstanding(s: Sys): set<Id> {
    set id | id in s.active && s.active[id].watched && (s.active[id].phase.Posting? || s.active[id].phase.Decided?)
  }

  /** The granted deliveries of a run and those already posting when it began. */
  ghost function Posters(s0: Sys, s: Sys): set<Id> {
    s.grants + Outstanding(s0)
  }

  ghost predicate NoSuccess(s: Sys) {
    forall call <- s.calls :: !call.op.Success?
  }

  /** The number of `Allow` calls that were granted, by the breaker's own history. */
  function GrantedCalls(c: Config, u: Url, calls: seq<Call>): nat {
    if calls == [] then 0
    else
      var before, last := calls[..|calls| - 1], calls[|calls| - 1];
      GrantedCalls(c, u, before) + if last.op.Allow? && Granted(c, After(c, u, before), last.now) then 1 else 0
  }

  /** The number of HTTP posts made to the watched URL in a run, one for each such move. */
  function PostsMade(c: Config, q: nat, s0: Sys, moves: seq<Move>): nat {
    if moves == [] then 0
    else
      var before, m := moves[..|moves| - 1], moves[|moves| - 1];
      PostsMade(c, q, s0, before) +
      match Execute(c, q, s0, before)
      case None => 0
      case Some(s) => if IsPost(s, m) then 1 else 0
  }

  predicate IsPost(s: Sys, m: Move) {
    m.Post? && m.id in s.active && s.active[m.id].watched
  }

  // ---- The bound, in numbers ----------------------------------------------------

  /**
   With `k` trips so far, `granted` grants are within bounds for the breaker's state,
   `out` deliveries being outstanding and `probes` of them granted since Half-Open.
   */
  ghost predicate Within(c: Config, q: nat, u: Url, k: nat, granted: nat, out: nat, probes: nat) {
    && (u.state.Closed? ==> k == 0 && u.failures < c.maxFailures && granted <= u.failures + out)
    && (u.state.Open? ==> granted <= c.maxFailures - 1 + k * q)
    && (u.state.HalfOpen? ==> granted <= c.maxFailures - 1 + k * q + probes)
  }

  lemma WithinAfterGrant(c: Config, q: nat, u: Url, now: int, k: nat, granted: nat, out: nat, probes: nat)
    requires Within(c, q, u, k, granted, out, probes) && Granted(c, u, now)
    ensures Within(c, q, Locked(c, u, Call(Allow, now)), k, granted + 1, out + 1, if u.state.Open? then 1 else probes + 1)
  {
  }

  lemma WithinAfterLook(c: Config, q: nat, u: Url, op: Op, now: int, k: nat, granted: nat, out: nat, probes: nat)
    requires Within(c, q, u, k, granted, out, probes)
    requires op.Query? || (op.Allow? && !Granted(c, u, now))
    ensures Within(c, q, Locked(c, u, Call(op, now)), k, granted, out, if Due(c, u, now) then 0 else probes)
  {
  }

  lemma WithinAfterFailure(c: Config, q: nat, u: Url, now: int, k: nat, granted: nat, out: nat, probes: nat)
    requires c.Valid() && Within(c, q, u, k, granted, out, probes) && 1 <= out <= q
    requires u.state.HalfOpen? ==> probes <= q
    ensures Within(c, q, Locked(c, u, Call(Failure, now)),
                   if Trips(c, u, Call(Failure, now)) then k + 1 else k, granted, out - 1, probes)
  {
    assert (k + 1) * q == k * q + q;
  }

  // ---- The bound, over every run --------------------------------------------------

  ghost function TripCount(c: Config, s0: Sys, s: Sys): nat {
    |TripTimes(c, s0.url, s.calls)|
  }

  /** As long as no success is recorded the grants are within bounds. */
  ghost predicate GrantsBounded(c: Config, q: nat, s0: Sys, s: Sys) {
    NoSuccess(s) ==>
      && Within(c, q, s.url, TripCount(c, s0, s), |s.grants|, |Outstanding(s)|, |s.probes|)
      && (s.url.state.HalfOpen? ==> s.probes <= Outstanding(s))
  }

  ghost predicate Bookkeeping(c: Config, q: nat, s0: Sys, s: Sys) {
    && s.url == After(c, s0.url, s.calls)
    && Ordered(s.calls)
    && s0.clock <= s.clock
    && (forall call <- s.calls :: s0.clock <= call.now <= s.clock)
    && |s.active| <= q
    && s.active.Keys <= s.seen
  }

  /** Posts are attempts of deliveries that were granted in the run or already posting at its start. */
  ghost predicate PostsCounted(s0: Sys, s: Sys) {
    && (forall id :: id in s.active && s.active[id].phase.Posting? ==> s.active[id].phase.done < Retry.MAX_ATTEMPTS)
    && Outstanding(s) <= Posters(s0, s)
    && (forall p <- s.posts :: p.0 in Posters(s0, s) && p.1 < Retry.MAX_ATTEMPTS)
  }

  /** No grant or post is counted twice: an arriving delivery has none, a posting one only earlier attempts. */
  ghost predicate CountedOnce(s: Sys) {
    && (forall id <- s.grants :: id in s.seen && (id in s.active ==> !s.active[id].phase.Arrived?))
    && (forall p <- s.posts ::
          && p.0 in s.seen
          && (p.0 in s.active ==> !s.active[p.0].phase.Arrived?)
          && (p.0 in s.active && s.active[p.0].phase.Posting? ==> p.1 < s.active[p.0].phase.done))
  }

  lemma CountedOnceStep(c: Config, q: nat, s: Sys, m: Move)
    requires CountedOnce(s) && s.active.Keys <= s.seen && Next(c, q, s, m).Some?
    ensures CountedOnce(Next(c, q, s, m).value)
  {
  }

  /** Each watched post adds one pair, and no other move adds any. */
  lemma PostAddsOne(c: Config, q: nat, s: Sys, m: Move)
    requires CountedOnce(s) && Next(c, q, s, m).Some?
    ensures |Next(c, q, s, m).value.posts| == |s.posts| + if IsPost(s, m) then 1 else 0
  {
    if IsPost(s, m) {
      assert (m.id, s.active[m.id].phase.done) !in s.posts;
    }
  }

  /** Each granted call adds one delivery, and no other move adds any. */
  lemma GrantAddsOne(c: Config, q: nat, s: Sys, m: Move)
    requires CountedOnce(s) && Next(c, q, s, m).Some?
    ensures |Next(c, q, s, m).value.grants|
         == |s.grants| + match CallOf(c, s, m)
                         case None => 0
                         case Some(call) => if call.op.Allow? && Granted(c, s.url, call.now) then 1 else 0
  {
    if m.Gate? && s.active[m.id].watched && Granted(c, s.url, m.now) {
      assert m.id !in s.grants;
    }
  }

  lemma GrantedCallsStep(c: Config, u: Url, calls: seq<Call>, call: Call)
    ensures GrantedCalls(c, u, calls + [call])
         == GrantedCalls(c, u, calls) + if call.op.Allow? && Granted(c, After(c, u, calls), call.now) then 1 else 0
  {
    assert (calls + [call])[..|calls|] == calls;
  }

  /** The sets of grants and posts are as large as the events of the run are many. */
  lemma {:induction false} EventsCounted(c: Config, q: nat, s0: Sys, moves: seq<Move>)
    requires c.Valid() && Start(c, q, s0) && Execute(c, q, s0, moves).Some?
    ensures var s := Execute(c, q, s0, moves).value;
            && CountedOnce(s)
            && |s.posts| == PostsMade(c, q, s0, moves)
            && |s.grants| == GrantedCalls(c, s0.url, s.calls)
  {
    if moves != [] {
      var shorter, m := moves[..|moves| - 1], moves[|moves| - 1];
      EventsCounted(c, q, s0, shorter);
      var s := Execute(c, q, s0, shorter).value;
      ReachableInvariant(c, q, s0, shorter);
      CountedOnceStep(c, q, s, m);
      PostAddsOne(c, q, s, m);
      GrantAddsOne(c, q, s, m);
      MoveCalls(c, q, s, m);
      if CallOf(c, s, m).Some? {
        GrantedCallsStep(c, s0.url, s.calls, CallOf(c, s, m).value);
      }
    }
  }

  /** What a breaker call does to the history. */
  lemma AskExtends(c: Config, s0: Sys, s: Sys, s': Sys, op: Op, now: int)
    requires s.url == After(c, s0.url, s.calls) && Ordered(s.calls)
    requires s0.clock <= s.clock <= now
    requires forall call <- s.calls :: s0.clock <= call.now <= s.clock
    requires s'.url == Locked(c, s.url, Call(op, now)) && s'.calls == s.calls + [Call(op, now)] && s'.clock == now
    ensures s'.url == After(c, s0.url, s'.calls)
    ensures Ordered(s'.calls)
    ensures forall call <- s'.calls :: s0.clock <= call.now <= s'.clock
    ensures TripCount(c, s0, s') == if Trips(c, s.url, Call(op, now)) then TripCount(c, s0, s) + 1 else TripCount(c, s0, s)
    ensures NoSuccess(s') <==> NoSuccess(s) && !op.Success?
  {
    assert s'.calls[..|s.calls|] == s.calls;
    assert s'.calls[|s.calls|] == Call(op, now);
    assert forall call <- s.calls :: call in s'.calls;
  }

  /** The window is respected: taking needs a free place, and nothing else adds a delivery. */
  lemma WindowStep(c: Config, q: nat, s: Sys, m: Move)
    requires |s.active| <= q && s.active.Keys <= s.seen && Next(c, q, s, m).Some?
    ensures |Next(c, q, s, m).value.active| <= q
    ensures Next(c, q, s, m).value.active.Keys <= Next(c, q, s, m).value.seen
  {
    var s' := Next(c, q, s, m).value;
    ActiveStep(c, q, s, m);
    assert |s'.active| == |s'.active.Keys| && |s.active| == |s.active.Keys|;
    if m.Settle? {
      SubsetSize(s'.active.Keys, s.active.Keys);
    }
  }

  /** The deliveries under way after a move. */
  lemma ActiveStep(c: Config, q: nat, s: Sys, m: Move)
    requires Next(c, q, s, m).Some?
    ensures var s' := Next(c, q, s, m).value;
            && s'.active.Keys == (if m.Take? then s.active.Keys + {m.id}
                                  else if m.Settle? then s.active.Keys - {m.id}
                                  else s.active.Keys)
            && s'.seen == (if m.Take? then s.seen + {m.id} else s.seen)
  {
  }

  /** The breaker call a move makes for the watched URL, if any. */
  ghost function CallOf(c: Config, s: Sys, m: Move): Option<Call> {
    match m
    case Gate(id, now, _) => if id in s.active && s.active[id].watched then Some(Call(Allow, now)) else None
    case Record(id, now) =>
      if id in s.active && s.active[id].watched && s.active[id].phase.Decided?
      then Some(Call(if s.active[id].phase.ok then Success else Failure, now)) else None
    case AskState(_, now) => Some(Call(Query, now))
    case Watch(now) => Some(Call(Query, now))
    case _ => None
  }

  lemma MoveCalls(c: Config, q: nat, s: Sys, m: Move)
    requires Next(c, q, s, m).Some?
    ensures var s' := Next(c, q, s, m).value;
            match CallOf(c, s, m)
            case None => s'.url == s.url && s'.calls == s.calls && s'.clock == s.clock
            case Some(call) => s'.url == Locked(c, s.url, call) && s'.calls == s.calls + [call]
                               && s'.clock == call.now && s.clock <= call.now
  {
  }

  lemma BookStep(c: Config, q: nat, s0: Sys, s: Sys, m: Move)
    requires Bookkeeping(c, q, s0, s) && Next(c, q, s, m).Some?
    ensures Bookkeeping(c, q, s0, Next(c, q, s, m).value)
  {
    WindowStep(c, q, s, m);
    MoveCalls(c, q, s, m);
    var s' := Next(c, q, s, m).value;
    if CallOf(c, s, m).Some? {
      AskExtends(c, s0, s, s', CallOf(c, s, m).value.op, CallOf(c, s, m).value.now);
    }
  }

  /** The outstanding deliveries after a move. */
  lemma OutstandingStep(c: Config, q: nat, s: Sys, m: Move)
    requires Next(c, q, s, m).Some? && s.active.Keys <= s.seen
    ensures var s' := Next(c, q, s, m).value;
            Outstanding(s') ==
              if m.Gate? && s.active[m.id].watched && Granted(c, s.url, m.now) then Outstanding(s) + {m.id}
              else if m.Record? then Outstanding(s) - {m.id}
              else Outstanding(s)
    ensures m.Gate? || m.Take? ==> m.id !in Outstanding(s)
    ensures m.Record? && s.active[m.id].watched ==> m.id in Outstanding(s)
    ensures m.Post? && s.active[m.id].watched ==> m.id in Outstanding(s)
  {
  }

  lemma PostsStep(c: Config, q: nat, s0: Sys, s: Sys, m: Move)
    requires PostsCounted(s0, s) && Next(c, q, s, m).Some? && s.active.Keys <= s.seen
    ensures PostsCounted(s0, Next(c, q, s, m).value)
  {
    var s' := Next(c, q, s, m).value;
    OutstandingStep(c, q, s, m);
    PostingStep(c, q, s, m);
    assert s.grants <= s'.grants;
    if IsPost(s, m) {
      assert s'.posts == s.posts + {(m.id, s.active[m.id].phase.done)};
    } else {
      assert s'.posts == s.posts;
    }
  }

  /** No delivery is ever past its last attempt and still posting. */
  lemma PostingStep(c: Config, q: nat, s: Sys, m: Move)
    requires forall id :: id in s.active && s.active[id].phase.Posting? ==> s.active[id].phase.done < Retry.MAX_ATTEMPTS
    requires Next(c, q, s, m).Some?
    ensures var s' := Next(c, q, s, m).value;
            forall id :: id in s'.active && s'.active[id].phase.Posting? ==> s'.active[id].phase.done < Retry.MAX_ATTEMPTS
  {
  }

  lemma GrantKeepsBound(c: Config, q: nat, s0: Sys, s: Sys, s': Sys, id: Id, now: int)
    requires GrantsBounded(c, q, s0, s) && NoSuccess(s) && Granted(c, s.url, now) && id !in Outstanding(s)
    requires s'.url == Locked(c, s.url, Call(Allow, now)) && TripCount(c, s0, s') == TripCount(c, s0, s)
    requires s'.grants == s.grants + {id} && s'.probes == (if s.url.state.Open? then {id} else s.probes + {id})
    requires Outstanding(s') == Outstanding(s) + {id}
    ensures GrantsBounded(c, q, s0, s')
  {
    WithinAfterGrant(c, q, s.url, now, TripCount(c, s0, s), |s.grants|, |Outstanding(s)|, |s.probes|);
    assert s.url.state.HalfOpen? ==> id !in s.probes;
    assert |Outstanding(s')| == |Outstanding(s)| + 1;
    assert |s'.grants| <= |s.grants| + 1;
  }

  lemma RefusalKeepsBound(c: Config, q: nat, s0: Sys, s: Sys, s': Sys, now: int)
    requires GrantsBounded(c, q, s0, s) && NoSuccess(s) && !Granted(c, s.url, now)
    requires s'.url == Locked(c, s.url, Call(Allow, now)) && TripCount(c, s0, s') == TripCount(c, s0, s)
    requires s'.grants == s.grants && s'.probes == s.probes && Outstanding(s') == Outstanding(s)
    ensures GrantsBounded(c, q, s0, s')
  {
    WithinAfterLook(c, q, s.url, Allow, now, TripCount(c, s0, s), |s.grants|, |Outstanding(s)|, |s.probes|);
  }

  lemma GateKeepsBound(c: Config, q: nat, s0: Sys, s: Sys, m: Move)
    requires Bookkeeping(c, q, s0, s) && GrantsBounded(c, q, s0, s)
    requires m.Gate? && Next(c, q, s, m).Some?
    ensures GrantsBounded(c, q, s0, Next(c, q, s, m).value)
  {
    var s' := DoGate(c, s, m.id, m.now, m.pass);
    assert Next(c, q, s, m).value == s';
    OutstandingStep(c, q, s, m);
    if s.active[m.id].watched {
      AskExtends(c, s0, s, s', Allow, m.now);
      if NoSuccess(s') {
        if Granted(c, s.url, m.now) {
          GrantKeepsBound(c, q, s0, s, s', m.id, m.now);
        } else {
          RefusalKeepsBound(c, q, s0, s, s', m.now);
        }
      }
    }
  }

  lemma QueryKeepsBound(c: Config, q: nat, s0: Sys, s: Sys, m: Move)
    requires Bookkeeping(c, q, s0, s) && GrantsBounded(c, q, s0, s)
    requires (m.AskState? || m.Watch?) && Next(c, q, s, m).Some?
    ensures GrantsBounded(c, q, s0, Next(c, q, s, m).value)
  {
    var s' := Next(c, q, s, m).value;
    OutstandingStep(c, q, s, m);
    AskExtends(c, s0, s, s', Query, m.now);
    if NoSuccess(s') {
      WithinAfterLook(c, q, s.url, Query, m.now, TripCount(c, s0, s), |s.grants|, |Outstanding(s)|, |s.probes|);
    }
  }

  /** No more deliveries are outstanding than the window holds. */
  lemma OutstandingFitsWindow(q: nat, s: Sys)
    requires |s.active| <= q
    ensures |Outstanding(s)| <= q
  {
    SubsetSize(Outstanding(s), s.active.Keys);
  }

  lemma RecordKeepsBound(c: Config, q: nat, s0: Sys, s: Sys, m: Move)
    requires c.Valid() && Bookkeeping(c, q, s0, s) && GrantsBounded(c, q, s0, s)
    requires m.Record? && Next(c, q, s, m).Some?
    ensures GrantsBounded(c, q, s0, Next(c, q, s, m).value)
  {
    var s' := DoRecord(c, s, m.id, m.now);
    assert Next(c, q, s, m).value == s';
    OutstandingStep(c, q, s, m);
    if s.active[m.id].watched {
      AskExtends(c, s0, s, s', if s.active[m.id].phase.ok then Success else Failure, m.now);
      if NoSuccess(s') {
        RecordedFailureKeepsBound(c, q, s0, s, s', m.id, m.now);
      }
    } else {
      assert Outstanding(s') == Outstanding(s);
    }
  }

  lemma RecordedFailureKeepsBound(c: Config, q: nat, s0: Sys, s: Sys, s': Sys, id: Id, now: int)
    requires c.Valid() && |s.active| <= q && GrantsBounded(c, q, s0, s) && NoSuccess(s) && id in Outstanding(s)
    requires s'.url == Locked(c, s.url, Call(Failure, now)) && s'.grants == s.grants && s'.probes == s.probes
    requires TripCount(c, s0, s') == if Trips(c, s.url, Call(Failure, now)) then TripCount(c, s0, s) + 1 else TripCount(c, s0, s)
    requires Outstanding(s') == Outstanding(s) - {id}
    ensures GrantsBounded(c, q, s0, s')
  {
    FailureKeepsBound(c, q, s0, s, now);
    assert |Outstanding(s')| == |Outstanding(s)| - 1;
    assert !s'.url.state.HalfOpen?;
  }

  lemma FailureKeepsBound(c: Config, q: nat, s0: Sys, s: Sys, now: int)
    requires c.Valid() && |s.active| <= q && GrantsBounded(c, q, s0, s) && NoSuccess(s) && Outstanding(s) != {}
    ensures Within(c, q, Locked(c, s.url, Call(Failure, now)),
                   if Trips(c, s.url, Call(Failure, now)) then TripCount(c, s0, s) + 1 else TripCount(c, s0, s),
                   |s.grants|, |Outstanding(s)| - 1, |s.probes|)
  {
    OutstandingFitsWindow(q, s);
    if s.url.state.HalfOpen? {
      SubsetSize(s.probes, Outstanding(s));
    }
    WithinAfterFailure(c, q, s.url, now, TripCount(c, s0, s), |s.grants|, |Outstanding(s)|, |s.probes|);
  }

  lemma BoundStep(c: Config, q: nat, s0: Sys, s: Sys, m: Move)
    requires c.Valid() && Bookkeeping(c, q, s0, s) && GrantsBounded(c, q, s0, s) && Next(c, q, s, m).Some?
    ensures GrantsBounded(c, q, s0, Next(c, q, s, m).value)
  {
    if m.Gate? {
      GateKeepsBound(c, q, s0, s, m);
    } else if m.Record? {
      RecordKeepsBound(c, q, s0, s, m);
    } else if m.AskState? || m.Watch? {
      QueryKeepsBound(c, q, s0, s, m);
    } else {
      OutstandingStep(c, q, s, m);
    }
  }

  lemma {:induction false} ReachableInvariant(c: Config, q: nat, s0: Sys, moves: seq<Move>)
    requires c.Valid() && Start(c, q, s0) && Execute(c, q, s0, moves).Some?
    ensures var s := Execute(c, q, s0, moves).value;
            Bookkeeping(c, q, s0, s) && PostsCounted(s0, s) && GrantsBounded(c, q, s0, s)
  {
    if moves != [] {
      var shorter := moves[..|moves| - 1];
      ReachableInvariant(c, q, s0, shorter);
      var s := Execute(c, q, s0, shorter).value;
      var m := moves[|moves| - 1];
      BookStep(c, q, s0, s, m);
      PostsStep(c, q, s0, s, m);
      BoundStep(c, q, s0, s, m);
    }
  }

  /**
   A load within bounds, with `k` trips: at most `maxFailures - 1 + q + k * q` grants, at most
   three posts for each of them and for each of the `waiting` deliveries already posting at the
   start, and trips `openTimeout` apart.
   */
  ghost predicate LoadWithin(c: Config, q: nat, k: nat, granted: nat, posts: nat, waiting: nat, elapsed: int) {
    && granted <= (c.maxFailures - 1 + q) + k * q
    && posts <= Retry.MAX_ATTEMPTS * (granted + waiting)
    && (k > 0 ==> (k - 1) * c.openTimeout <= elapsed)
  }

  /**
   The load on a target that never succeeds, for every interleaving, any window and any
   starting moment, is within bounds: as many `Allow` calls were granted, and as many HTTP
   posts made to it, as its trips allow for.
   */
  lemma {:induction false} BoundedLoad(c: Config, q: nat, s0: Sys, moves: seq<Move>)
    requires c.Valid() && Start(c, q, s0) && Execute(c, q, s0, moves).Some?
    requires NoSuccess(Execute(c, q, s0, moves).value)
    ensures var s := Execute(c, q, s0, moves).value;
            LoadWithin(c, q, TripCount(c, s0, s), GrantedCalls(c, s0.url, s.calls), PostsMade(c, q, s0, moves),
                       |Outstanding(s0)|, s.clock - s0.clock)
    ensures |Outstanding(s0)| <= q
  {
    var s := Execute(c, q, s0, moves).value;
    EventsCounted(c, q, s0, moves);
    ReachableInvariant(c, q, s0, moves);
    LoadOverall(c, q, s0, s);
    OutstandingFitsWindow(q, s0);
  }

  lemma LoadOverall(c: Config, q: nat, s0: Sys, s: Sys)
    requires c.Valid() && Bookkeeping(c, q, s0, s) && GrantsBounded(c, q, s0, s) && PostsCounted(s0, s) && NoSuccess(s)
    ensures LoadWithin(c, q, TripCount(c, s0, s), |s.grants|, |s.posts|, |Outstanding(s0)|, s.clock - s0.clock)
  {
    GrantsOverall(c, q, s0, s);
    PostsOverall(s0, s);
    TripsOverall(c, q, s0, s);
  }

  lemma GrantsOverall(c: Config, q: nat, s0: Sys, s: Sys)
    requires c.Valid() && Bookkeeping(c, q, s0, s) && GrantsBounded(c, q, s0, s) && NoSuccess(s)
    ensures |s.grants| <= (c.maxFailures - 1 + q) + TripCount(c, s0, s) * q
  {
    OutstandingFitsWindow(q, s);
    if s.url.state.HalfOpen? {
      SubsetSize(s.probes, Outstanding(s));
    }
  }

  lemma PostsOverall(s0: Sys, s: Sys)
    requires PostsCounted(s0, s)
    ensures |s.posts| <= Retry.MAX_ATTEMPTS * (|s.grants| + |Outstanding(s0)|)
  {
    PairsSize(s.posts, Posters(s0, s), Retry.MAX_ATTEMPTS);
    UnionSize(s.grants, Outstanding(s0));
  }

  lemma TripsOverall(c: Config, q: nat, s0: Sys, s: Sys)
    requires c.Valid() && Bookkeeping(c, q, s0, s)
    ensures TripCount(c, s0, s) > 0 ==> (TripCount(c, s0, s) - 1) * c.openTimeout <= s.clock - s0.clock
  {
    TripSpacing(c, s0.url, s.calls);
    if TripTimes(c, s0.url, s.calls) != [] {
      assert s.calls[0] in s.calls && s.calls[|s.calls| - 1] in s.calls;
    }
  }

  lemma UnionSize(a: set<Id>, b: set<Id>)
    ensures |a + b| <= |a| + |b|
  {
    SubsetSize(a + b - a, b);
    assert a + b == a + (a + b - a);
  }

  const WORKER_START: Sys := Sys(map[], {}, FRESH, 0, [], {}, {}, {}, map[])

  /**
   The worker as deployed, from its start: five failures, thirty seconds, a window of
   one hundred. `t` whole timeouts into the run a dead target has seen at most
   `104 + 100 * (t + 1)` grants and three posts for each.
   */
  lemma {:induction false} DeployedWorkerLoad(moves: seq<Move>, t: nat)
    requires Execute(Config(5, 30_000_000_000), 100, WORKER_START, moves).Some?
    requires NoSuccess(Execute(Config(5, 30_000_000_000), 100, WORKER_START, moves).value)
    requires Execute(Config(5, 30_000_000_000), 100, WORKER_START, moves).value.clock < (t + 1) * 30_000_000_000
    ensures var s := Execute(Config(5, 30_000_000_000), 100, WORKER_START, moves).value;
            && GrantedCalls(Config(5, 30_000_000_000), FRESH, s.calls) <= 104 + 100 * (t + 1)
            && PostsMade(Config(5, 30_000_000_000), 100, WORKER_START, moves) <= 3 * (104 + 100 * (t + 1))
    ensures Mirror.WORKER == Config(5, 30_000_000_000) && PREFETCH == 100
  {
    var c := Config(5, 30_000_000_000);
    var s := Execute(c, 100, WORKER_START, moves).value;
    assert Outstanding(WORKER_START) == {};
    BoundedLoad(c, 100, WORKER_START, moves);
    LoadInNumbers(TripCount(c, WORKER_START, s), t, s.clock, GrantedCalls(c, FRESH, s.calls), PostsMade(c, 100, WORKER_START, moves));
  }

  lemma LoadInNumbers(k: nat, t: nat, elapsed: int, granted: nat, posts: nat)
    requires LoadWithin(Config(5, 30_000_000_000), 100, k, granted, posts, 0, elapsed)
    requires elapsed < (t + 1) * 30_000_000_000
    ensures granted <= 104 + 100 * (t + 1) && posts <= 3 * (104 + 100 * (t + 1))
  {
    ScaleKeepsOrder(t + 1, k - 1, 30_000_000_000);
  }

  lemma ScaleKeepsOrder(a: int, b: int, factor: int)
    requires factor > 0
    ensures a <= b ==> a * factor <= b * factor
  {
  }

  // ---- How soon outcomes are recorded ----------------------------------------------------------

  /** The longest that `done` failed attempts with their backoff keep a delivery, in seconds. */
  function SoFar(done: nat): nat {
    Retry.Pow2Monotone(0, done);
    Retry.REQUEST_TIMEOUT * done + Retry.Pow2(done) - 1
  }

  /** How far past its grant a delivery can be in this phase, in seconds. */
  function Reach(phase: Phase): nat {
    if phase.Posting? then SoFar(phase.done) else Retry.WorstCase(Retry.MAX_ATTEMPTS)
  }

  /** Call `g` is a grant. */
  ghost predicate IsGrant(c: Config, calls: seq<Call>, g: nat) {
    g < |calls| && calls[g].op.Allow? && Granted(c, After(c, FRESH, calls[..g]), calls[g].now)
  }

  /** An outstanding delivery has a grant, and is no further past it than its attempts so far account for. */
  ghost predicate OnSchedule(c: Config, calls: seq<Call>, d: Delivery) {
    d.watched && (d.phase.Posting? || d.phase.Decided?) ==>
      IsGrant(c, calls, d.grant) && d.since - calls[d.grant].now <= Reach(d.phase) * SECOND
  }

  /** Outcome `k` comes at most `limit` after its own grant. */
  ghost predicate RecordedWithin(c: Config, calls: seq<Call>, own: map<nat, nat>, k: nat, limit: int) {
    k in own && own[k] < k && IsGrant(c, calls, own[k]) && k < |calls| && calls[k].now - calls[own[k]].now <= limit
  }

  predicate IsOutcome(call: Call) {
    call.op.Success? || call.op.Failure?
  }

  ghost predicate Scheduled(c: Config, slack: nat, s: Sys) {
    && s.url == After(c, FRESH, s.calls)
    && (forall id :: id in s.active ==> OnSchedule(c, s.calls, s.active[id]))
    && (forall id :: id in s.active && s.active[id].phase.Posting? ==> s.active[id].phase.done < Retry.MAX_ATTEMPTS)
    && (forall k: nat :: k < |s.calls| && IsOutcome(s.calls[k]) ==>
          RecordedWithin(c, s.calls, s.own, k, Retry.WorstCase(Retry.MAX_ATTEMPTS) * SECOND + slack))
  }

  /** The outcome is recorded at most `slack` after the retry loop has returned. */
  ghost predicate RecordsSoon(slack: nat, s: Sys, m: Move) {
    m.Record? && m.id in s.active ==> m.now <= s.active[m.id].since + slack
  }

  ghost predicate RecordsSoonThroughout(c: Config, q: nat, slack: nat, moves: seq<Move>) {
    forall i :: 0 <= i < |moves| ==>
      match Execute(c, q, WORKER_START, moves[..i])
      case None => true
      case Some(s) => RecordsSoon(slack, s, moves[i])
  }

  /** An attempt and its backoff take a delivery no further than the next phase allows. */
  lemma AttemptFits(done: nat, attempt: Retry.Attempt)
    requires done < Retry.MAX_ATTEMPTS
    ensures SoFar(done) * SECOND + Delay(done, attempt) <= Reach(Following(done, attempt)) * SECOND
  {
    assert Retry.Pow2(done + 1) == 2 * Retry.Pow2(done);
    assert SoFar(done + 1) == SoFar(done) + Retry.REQUEST_TIMEOUT + Retry.Pow2(done);
    Retry.Pow2Monotone(done, Retry.MAX_ATTEMPTS - 1);
    assert SoFar(done) + Retry.REQUEST_TIMEOUT <= Retry.WorstCase(Retry.MAX_ATTEMPTS);
  }

  /** Grants stay grants as the history grows. */
  lemma GrantStays(c: Config, calls: seq<Call>, call: Call, g: nat)
    requires IsGrant(c, calls, g)
    ensures IsGrant(c, calls + [call], g)
  {
    assert (calls + [call])[..g] == calls[..g];
  }

  lemma ScheduleStays(c: Config, calls: seq<Call>, call: Call, d: Delivery)
    requires OnSchedule(c, calls, d)
    ensures OnSchedule(c, calls + [call], d)
  {
    if d.watched && (d.phase.Posting? || d.phase.Decided?) {
      GrantStays(c, calls, call, d.grant);
    }
  }

  /** What a breaker call keeps of the schedule. */
  lemma CallKeepsSchedule(c: Config, slack: nat, s: Sys, s': Sys, call: Call)
    requires Scheduled(c, slack, s) && s'.calls == s.calls + [call] && s'.url == Locked(c, s.url, call)
    requires forall k :: k in s.own && k != |s.calls| ==> k in s'.own && s'.own[k] == s.own[k]
    requires forall id :: id in s'.active ==>
               (id in s.active && s'.active[id] == s.active[id]) || OnSchedule(c, s'.calls, s'.active[id])
    requires forall id :: id in s'.active && s'.active[id].phase.Posting? ==> s'.active[id].phase.done < Retry.MAX_ATTEMPTS
    requires IsOutcome(call) ==> RecordedWithin(c, s'.calls, s'.own, |s.calls|, Retry.WorstCase(Retry.MAX_ATTEMPTS) * SECOND + slack)
    ensures Scheduled(c, slack, s')
  {
    assert s'.calls[..|s.calls|] == s.calls;
    forall id | id in s'.active
      ensures OnSchedule(c, s'.calls, s'.active[id])
    {
      if id in s.active && s'.active[id] == s.active[id] {
        ScheduleStays(c, s.calls, call, s.active[id]);
      }
    }
    forall k: nat | k < |s'.calls| && IsOutcome(s'.calls[k])
      ensures RecordedWithin(c, s'.calls, s'.own, k, Retry.WorstCase(Retry.MAX_ATTEMPTS) * SECOND + slack)
    {
      if k < |s.calls| {
        assert s'.calls[k] == s.calls[k];
        GrantStays(c, s.calls, call, s.own[k]);
      }
    }
  }

  lemma GateKeepsSchedule(c: Config, slack: nat, s: Sys, id: Id, now: int, pass: bool)
    requires Scheduled(c, slack, s) && id in s.active && s.active[id].phase.Arrived?
    ensures Scheduled(c, slack, DoGate(c, s, id, now, pass))
  {
    var s' := DoGate(c, s, id, now, pass);
    if s.active[id].watched {
      var call := Call(Allow, now);
      if Granted(c, s.url, now) {
        assert (s.calls + [call])[..|s.calls|] == s.calls;
        assert IsGrant(c, s'.calls, |s.calls|);
        assert s'.active[id] == Delivery(true, Posting(0), now, |s.calls|);
        assert SoFar(0) == 0;
        assert OnSchedule(c, s'.calls, s'.active[id]);
      }
      CallKeepsSchedule(c, slack, s, s', call);
    }
  }

  lemma PostKeepsSchedule(c: Config, slack: nat, s: Sys, id: Id, attempt: Retry.Attempt)
    requires Scheduled(c, slack, s) && id in s.active && s.active[id].phase.Posting?
    ensures Scheduled(c, slack, DoPost(s, id, attempt))
  {
    AttemptFits(s.active[id].phase.done, attempt);
    assert OnSchedule(c, s.calls, s.active[id]);
  }

  lemma BuildErrorKeepsSchedule(c: Config, slack: nat, s: Sys, id: Id)
    requires Scheduled(c, slack, s) && id in s.active && s.active[id].phase == Posting(0)
    ensures Scheduled(c, slack, Put(s, id, Decided(false)))
  {
    assert SoFar(0) == 0;
    assert OnSchedule(c, s.calls, s.active[id]);
  }

  lemma RecordKeepsSchedule(c: Config, slack: nat, s: Sys, id: Id, now: int)
    requires Scheduled(c, slack, s) && id in s.active && s.active[id].phase.Decided? && now <= s.active[id].since + slack
    ensures Scheduled(c, slack, DoRecord(c, s, id, now))
  {
    var s' := DoRecord(c, s, id, now);
    if s.active[id].watched {
      var call := Call(if s.active[id].phase.ok then Success else Failure, now);
      assert OnSchedule(c, s.calls, s.active[id]);
      GrantStays(c, s.calls, call, s.active[id].grant);
      CallKeepsSchedule(c, slack, s, s', call);
    }
  }

  lemma QueryKeepsSchedule(c: Config, slack: nat, s: Sys, now: int)
    requires Scheduled(c, slack, s)
    ensures Scheduled(c, slack, DoState(c, s, now))
  {
    CallKeepsSchedule(c, slack, s, DoState(c, s, now), Call(Query, now));
  }

  lemma MoveKeepsSchedule(c: Config, q: nat, slack: nat, s: Sys, m: Move)
    requires Scheduled(c, slack, s) && Next(c, q, s, m).Some? && RecordsSoon(slack, s, m)
    ensures Scheduled(c, slack, Next(c, q, s, m).value)
  {
    match m
    case Gate(id, now, pass) => GateKeepsSchedule(c, slack, s, id, now, pass);
    case Post(id, attempt) => PostKeepsSchedule(c, slack, s, id, attempt);
    case BuildError(id) => BuildErrorKeepsSchedule(c, slack, s, id);
    case Record(id, now) => RecordKeepsSchedule(c, slack, s, id, now);
    case AskState(id, now) =>
      assert Scheduled(c, slack, Put(s, id, Settling));
      QueryKeepsSchedule(c, slack, Put(s, id, Settling), now);
    case Watch(now) => QueryKeepsSchedule(c, slack, s, now);
    case Take(_, _) =>
    case Settle(_) =>
  }

  /**
   Promptness follows from the retry loop: in every run whose outcomes are recorded at most
   `slack` after their loop returns, each comes within 18 seconds and `slack` of its own grant.
   */
  lemma {:induction false} OutcomesArePrompt(c: Config, q: nat, slack: nat, moves: seq<Move>)
    requires Execute(c, q, WORKER_START, moves).Some? && RecordsSoonThroughout(c, q, slack, moves)
    ensures Retry.WorstCase(Retry.MAX_ATTEMPTS) == 18
    ensures Scheduled(c, slack, Execute(c, q, WORKER_START, moves).value)
  {
    assert Retry.Pow2(2) == 4;
    if moves != [] {
      var n := |moves| - 1;
      forall i | 0 <= i < n
        ensures match Execute(c, q, WORKER_START, moves[..n][..i])
                case None => true
                case Some(s) => RecordsSoon(slack, s, moves[..n][i])
      {
        assert moves[..n][..i] == moves[..i];
      }
      OutcomesArePrompt(c, q, slack, moves[..n]);
      assert RecordsSoon(slack, Execute(c, q, WORKER_START, moves[..n]).value, moves[n]);
      MoveKeepsSchedule(c, q, slack, Execute(c, q, WORKER_START, moves[..n]).value, moves[n]);
    }
  }

  /**
   So in every run of the worker, with fewer than twelve seconds between the return of a retry
   loop and the recording of its outcome, its lazy breaker is indistinguishable from an eager one.
   */
  lemma WorkerBreakerActsEagerly(q: nat, slack: nat, moves: seq<Move>)
    requires Execute(Mirror.WORKER, q, WORKER_START, moves).Some? && RecordsSoonThroughout(Mirror.WORKER, q, slack, moves)
    requires slack < 12_000_000_000
    ensures var calls := Execute(Mirror.WORKER, q, WORKER_START, moves).value.calls;
            && LazyEager.NoLateOutcome(Mirror.WORKER, calls)
            && forall i :: 0 <= i <= |calls| ==> LazyEager.Indistinguishable(Mirror.WORKER, calls[..i])
  {
    var s := Execute(Mirror.WORKER, q, WORKER_START, moves).value;
    OutcomesArePrompt(Mirror.WORKER, q, slack, moves);
    assert Start(Mirror.WORKER, q, WORKER_START);
    ReachableInvariant(Mirror.WORKER, q, WORKER_START, moves);
    assert LazyEager.Prompt(Mirror.WORKER, s.calls, s.own) by {
      forall k: nat | k < |s.calls| && IsOutcome(s.calls[k])
        ensures RecordedWithin(Mirror.WORKER, s.calls, s.own, k, 18 * SECOND + slack)
      {
      }
    }
    LazyEager.PromptOutcomesMakeLazyEager(Mirror.WORKER, s.calls, s.own);
  }
}
