/**
 One handled delivery as moves of the worker in `DeadTarget`: the gate, the posts of the
 retry loop, the recorded outcome or the question for the state, and the settlement. The
 delivery handler performs these, so the bound on the load is a bound on what it does.
 */
module WorkerLoad {
  import opened Prelude
  import opened Breaker
  import opened DeadTarget
  import Retry

  lemma ExecuteOneMore(c: Config, q: nat, s0: Sys, moves: seq<Move>, m: Move)
    ensures Execute(c, q, s0, moves + [m])
         == match Execute(c, q, s0, moves) case None => None case Some(s) => Next(c, q, s, m)
  {
    assert (moves + [m])[..|moves|] == moves;
  }

  /** Running on from where a run has got to. */
  lemma {:induction false} ExecuteTwice(c: Config, q: nat, s0: Sys, moves: seq<Move>, s: Sys, more: seq<Move>)
    requires Execute(c, q, s0, moves) == Some(s)
    ensures Execute(c, q, s0, moves + more) == Execute(c, q, s, more)
    decreases |more|
  {
    if more == [] {
      assert moves + more == moves;
    } else {
      var shorter, m := more[..|more| - 1], more[|more| - 1];
      assert Execute(c, q, s0, moves + shorter) == Execute(c, q, s, shorter) by {
        ExecuteTwice(c, q, s0, moves, s, shorter);
      }
      SameOneMore(c, q, s0, moves + shorter, s, shorter, m);
      assert (moves + shorter) + [m] == moves + more && shorter + [m] == more;
    }
  }

  /** Runs that have got to the same state stay together. */
  lemma SameOneMore(c: Config, q: nat, s: Sys, moves: seq<Move>, s': Sys, moves': seq<Move>, m: Move)
    requires Execute(c, q, s, moves) == Execute(c, q, s', moves')
    ensures Execute(c, q, s, moves + [m]) == Execute(c, q, s', moves' + [m])
  {
    ExecuteOneMore(c, q, s, moves, m);
    ExecuteOneMore(c, q, s', moves', m);
  }

  // ---- The retry loop ---------------------------------------------------------------------------

  /** The posts of the first `n` attempts. */
  function PostMoves(id: Id, attempts: seq<Retry.Attempt>, n: nat): seq<Move>
    requires n <= |attempts|
  {
    if n == 0 then [] else PostMoves(id, attempts, n - 1) + [Post(id, attempts[n - 1])]
  }

  function PhaseAfter(attempts: seq<Retry.Attempt>, n: nat): Phase
    requires n <= |attempts|
  {
    if n == 0 then Posting(0) else Following(n - 1, attempts[n - 1])
  }

  /** The backoff behind a delivery after its `n`-th attempt, in seconds. */
  function WaitedAfter(attempts: seq<Retry.Attempt>, n: nat): int
    requires n <= |attempts|
  {
    if PhaseAfter(attempts, n).Posting? then Retry.Pow2(n) - 1 else Retry.Pow2(n - 1) - 1
  }

  /** Nothing but delivery `id` has moved. */
  ghost predicate OnlyThis(s: Sys, s': Sys, id: Id) {
    && s'.url == s.url && s'.clock == s.clock && s'.calls == s.calls && s'.seen == s.seen
    && id in s.active && id in s'.active
    && s'.active == s.active[id := s'.active[id]]
    && s'.active[id].watched == s.active[id].watched
  }

  /** The loop's posts, as long as none before the last is accepted, in phase and in time. */
  lemma {:induction false} AfterPosts(c: Config, q: nat, s: Sys, id: Id, attempts: seq<Retry.Attempt>, n: nat)
    requires id in s.active && s.active[id].phase == Posting(0)
    requires n <= |attempts| && n <= Retry.MAX_ATTEMPTS
    requires forall i :: 0 <= i < n - 1 ==> !Retry.Accepted(Retry.Seen(attempts[i]))
    ensures var r := Execute(c, q, s, PostMoves(id, attempts, n));
            && r.Some? && OnlyThis(s, r.value, id)
            && r.value.active[id].phase == PhaseAfter(attempts, n)
            && r.value.active[id].since
               == s.active[id].since + Retry.TotalSpent(attempts, n) + WaitedAfter(attempts, n) * SECOND
  {
    if n == 0 {
      assert s.active == s.active[id := s.active[id]];
    } else {
      AfterPosts(c, q, s, id, attempts, n - 1);
      var before := Execute(c, q, s, PostMoves(id, attempts, n - 1)).value;
      ExecuteOneMore(c, q, s, PostMoves(id, attempts, n - 1), Post(id, attempts[n - 1]));
      assert PhaseAfter(attempts, n - 1) == Posting(n - 1);
      OnePost(s, before, id, attempts[n - 1]);
      assert Retry.Pow2(n) == 2 * Retry.Pow2(n - 1);
    }
  }

  lemma OnePost(s: Sys, before: Sys, id: Id, attempt: Retry.Attempt)
    requires OnlyThis(s, before, id) && before.active[id].phase.Posting?
    ensures OnlyThis(s, DoPost(before, id, attempt), id)
    ensures var d, d' := before.active[id], DoPost(before, id, attempt).active[id];
            d'.phase == Following(d.phase.done, attempt) && d'.since == d.since + Delay(d.phase.done, attempt)
  {
    assert DoPost(before, id, attempt).active == s.active[id := DoPost(before, id, attempt).active[id]];
  }

  // ---- A handled delivery -------------------------------------------------------------------------

  /** What is known of a handled delivery: readings for admission, state and outcome, and how the loop fared. */
  datatype Handled = Handled(granted: bool, t0: int, t1: int, t2: int, buildable: bool, attempts: seq<Retry.Attempt>, posts: nat, delivered: bool)

  /** The loop fared as `Retry.DeliverWithRetry` says. */
  ghost predicate LoopFared(buildable: bool, attempts: seq<Retry.Attempt>, posts: nat, delivered: bool)
    requires posts <= |attempts|
  {
    && (forall i :: 0 <= i < posts - 1 ==> !Retry.Accepted(Retry.Seen(attempts[i])))
    && (delivered ==> buildable && 1 <= posts && Retry.Accepted(Retry.Seen(attempts[posts - 1])))
    && (!delivered ==> posts == if buildable then Retry.MAX_ATTEMPTS else 0)
    && (!delivered && posts > 0 ==> !Retry.Accepted(Retry.Seen(attempts[posts - 1])))
  }

  ghost predicate Plausible(h: Handled) {
    && h.t0 <= h.t1 && h.t0 <= h.t2
    && |h.attempts| >= Retry.MAX_ATTEMPTS && h.posts <= Retry.MAX_ATTEMPTS
    && (h.granted ==> LoopFared(h.buildable, h.attempts, h.posts, h.delivered))
  }

  function LoopMoves(id: Id, h: Handled): seq<Move>
    requires h.posts <= |h.attempts|
  {
    if h.buildable then PostMoves(id, h.attempts, h.posts) else [BuildError(id)]
  }

  function LoadMoves(id: Id, watched: bool, h: Handled): seq<Move>
    requires h.posts <= |h.attempts|
  {
    if h.granted then [Gate(id, h.t0, true)] + LoopMoves(id, h) + [Record(id, h.t2)] + [Settle(id)]
    else if watched then [Gate(id, h.t0, false)] + [AskState(id, h.t1)] + [Settle(id)]
    else [Gate(id, h.t0, false)] + [Settle(id)]
  }

  /** The breaker calls of a handled delivery. */
  function CallsOf(h: Handled): seq<Call> {
    [Call(Allow, h.t0)] +
    [if h.granted then Call(if h.delivered then Success else Failure, h.t2) else Call(Query, h.t1)]
  }

  function UrlAfter(c: Config, u: Url, h: Handled): Url {
    Locked(c, Locked(c, u, CallsOf(h)[0]), CallsOf(h)[1])
  }

  /** What handling leaves of the worker: the delivery is gone, and the breaker saw its calls if it was watched. */
  ghost predicate Served(c: Config, s: Sys, s': Sys, id: Id, watched: bool, h: Handled) {
    && s'.active == s.active - {id} && s'.seen == s.seen
    && s'.url == (if watched then UrlAfter(c, s.url, h) else s.url)
    && s'.calls == (if watched then s.calls + CallsOf(h) else s.calls)
    && s'.clock == (if !watched then s.clock else CallsOf(h)[1].now)
  }

  lemma GateMoves(c: Config, q: nat, s: Sys, id: Id, now: int, granted: bool)
    requires id in s.active && s.active[id].phase.Arrived? && s.clock <= now
    requires s.active[id].watched ==> granted == Granted(c, s.url, now)
    ensures var r := Next(c, q, s, Gate(id, now, granted));
            && r.Some? && id in r.value.active && r.value.active == s.active[id := r.value.active[id]] && r.value.seen == s.seen
            && r.value.active[id].watched == s.active[id].watched
            && (granted ==> r.value.active[id].phase == Posting(0))
            && (!granted ==> r.value.active[id].phase == if s.active[id].watched then Blocked else Settling)
            && (if s.active[id].watched
                then r.value.url == Locked(c, s.url, Call(Allow, now)) && r.value.calls == s.calls + [Call(Allow, now)] && r.value.clock == now
                else r.value.url == s.url && r.value.calls == s.calls && r.value.clock == s.clock)
  {
  }

  lemma RecordAndSettle(c: Config, q: nat, s: Sys, id: Id, now: int)
    requires id in s.active && s.active[id].phase.Decided? && s.clock <= now
    ensures var op := if s.active[id].phase.ok then Success else Failure;
            var r := Next(c, q, DoRecord(c, s, id, now), Settle(id));
            && r.Some? && r.value.active == s.active - {id} && r.value.seen == s.seen
            && (if s.active[id].watched
                then r.value.url == Locked(c, s.url, Call(op, now)) && r.value.calls == s.calls + [Call(op, now)] && r.value.clock == now
                else r.value.url == s.url && r.value.calls == s.calls && r.value.clock == s.clock)
  {
    var s1 := DoRecord(c, s, id, now);
    assert s1.active - {id} == s.active - {id};
  }

  lemma LoopRuns(c: Config, q: nat, s: Sys, id: Id, h: Handled)
    requires Plausible(h) && h.granted && id in s.active && s.active[id].phase == Posting(0)
    ensures var r := Execute(c, q, s, LoopMoves(id, h));
            r.Some? && OnlyThis(s, r.value, id) && r.value.active[id].phase == Decided(h.delivered)
  {
    if h.buildable {
      AfterPosts(c, q, s, id, h.attempts, h.posts);
    } else {
      ExecuteOneMore(c, q, s, [], BuildError(id));
      assert [] + [BuildError(id)] == [BuildError(id)];
      var s' := Put(s, id, Decided(false));
      assert s'.active == s.active[id := s'.active[id]];
    }
  }

  lemma GrantedIsServed(c: Config, q: nat, s: Sys, id: Id, h: Handled)
    requires Plausible(h) && h.granted && id in s.active && s.active[id].phase.Arrived? && s.clock <= h.t0
    requires s.active[id].watched ==> Granted(c, s.url, h.t0)
    ensures var r := Execute(c, q, s, LoadMoves(id, s.active[id].watched, h));
            r.Some? && Served(c, s, r.value, id, s.active[id].watched, h)
  {
    var gate := [Gate(id, h.t0, true)];
    GateMoves(c, q, s, id, h.t0, true);
    ExecuteOneMore(c, q, s, [], gate[0]);
    assert [] + gate == gate;
    var s1 := Execute(c, q, s, gate).value;
    LoopRuns(c, q, s1, id, h);
    ExecuteTwice(c, q, s, gate, s1, LoopMoves(id, h));
    var s2 := Execute(c, q, s, gate + LoopMoves(id, h)).value;
    ExecuteOneMore(c, q, s, gate + LoopMoves(id, h), Record(id, h.t2));
    RecordAndSettle(c, q, s2, id, h.t2);
    ExecuteOneMore(c, q, s, gate + LoopMoves(id, h) + [Record(id, h.t2)], Settle(id));
    assert s2.active - {id} == s.active - {id};
  }

  lemma RefusedElsewhereIsServed(c: Config, q: nat, s: Sys, id: Id, h: Handled)
    requires Plausible(h) && !h.granted && id in s.active && s.active[id].phase.Arrived? && s.clock <= h.t0 && !s.active[id].watched
    ensures var r := Execute(c, q, s, LoadMoves(id, false, h));
            r.Some? && Served(c, s, r.value, id, false, h)
  {
    var gate := [] + [Gate(id, h.t0, false)];
    GateMoves(c, q, s, id, h.t0, false);
    ExecuteOneMore(c, q, s, [], Gate(id, h.t0, false));
    ExecuteOneMore(c, q, s, gate, Settle(id));
    assert LoadMoves(id, false, h) == gate + [Settle(id)];
    assert Execute(c, q, s, gate).value.active - {id} == s.active - {id};
  }

  /** The question for the state, and the settlement, of a refused delivery. */
  lemma AskAndSettle(c: Config, q: nat, s: Sys, id: Id, now: int)
    requires id in s.active && s.active[id].phase.Blocked? && s.clock <= now
    ensures var r := Next(c, q, DoState(c, Put(s, id, Settling), now), Settle(id));
            && r.Some? && r.value.active == s.active - {id} && r.value.seen == s.seen
            && r.value.url == Locked(c, s.url, Call(Query, now)) && r.value.calls == s.calls + [Call(Query, now)] && r.value.clock == now
  {
    assert DoState(c, Put(s, id, Settling), now).active - {id} == s.active - {id};
  }

  lemma RefusedIsServed(c: Config, q: nat, s: Sys, id: Id, h: Handled)
    requires Plausible(h) && !h.granted && id in s.active && s.active[id].phase.Arrived? && s.clock <= h.t0 && s.active[id].watched
    requires !Granted(c, s.url, h.t0)
    ensures var r := Execute(c, q, s, LoadMoves(id, true, h));
            r.Some? && Served(c, s, r.value, id, true, h)
  {
    var gate := [] + [Gate(id, h.t0, false)];
    GateMoves(c, q, s, id, h.t0, false);
    ExecuteOneMore(c, q, s, [], Gate(id, h.t0, false));
    var s1 := Execute(c, q, s, gate).value;
    ExecuteOneMore(c, q, s, gate, AskState(id, h.t1));
    AskAndSettle(c, q, s1, id, h.t1);
    ExecuteOneMore(c, q, s, gate + [AskState(id, h.t1)], Settle(id));
    assert LoadMoves(id, true, h) == gate + [AskState(id, h.t1)] + [Settle(id)];
    assert s1.active - {id} == s.active - {id};
  }

  /** Handling a delivery, granted or refused, is a run of the worker. */
  lemma HandlingIsARun(c: Config, q: nat, s: Sys, id: Id, h: Handled)
    requires Plausible(h) && id in s.active && s.active[id].phase.Arrived? && s.clock <= h.t0
    requires s.active[id].watched ==> h.granted == Granted(c, s.url, h.t0)
    ensures var r := Execute(c, q, s, LoadMoves(id, s.active[id].watched, h));
            r.Some? && Served(c, s, r.value, id, s.active[id].watched, h)
  {
    if h.granted {
      GrantedIsServed(c, q, s, id, h);
    } else if s.active[id].watched {
      RefusedIsServed(c, q, s, id, h);
    } else {
      RefusedElsewhereIsServed(c, q, s, id, h);
    }
  }
}
