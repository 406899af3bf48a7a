/**
 What the two tiers do not do: grants from a gateway's cache are not counted by the limit,
 and an invalidation does not reach a call that Redis has already admitted. Both with runs
 that show it and with the exact condition.
 */
module LeaseLimits {
  import opened Prelude
  import opened SlidingWindow
  import opened LeaseFleet
  import Cache

  // ---- Grants that are not counted ------------------------------------------------------------

  /** One admission, its lease stored, and `n` more calls of the same gateway, all at time 0. */
  function BurstOf(n: nat): seq<Move> {
    if n == 0 then [Lookup(0, 0, 0), ReadClock(0, 0), Evaluate(0, 0, 0), StoreLease(0, 0)]
    else BurstOf(n - 1) + [Lookup(0, 0, 0)]
  }

  /** Gateway 0 holds a fresh lease after one admission and `n` grants from its cache. */
  ghost predicate Leased(p: Policy, s: Sys, n: nat) {
    && |s.hits| == n && s.rejections == 0 && |s.admissions| == 1
    && s.requests == map[] && 0 in s.gateways && s.gateways[0].lease == Some(Lease(p, 0)) && s.gateways[0].clock == 0
  }

  /**
   Grants from the cache are not counted: under every limit of at least one, one admission by
   Redis can be followed by any number of them at the same instant.
   */
  lemma {:induction false} CacheGrantsAreUncounted(p: Policy, n: nat)
    requires p.requests >= 1
    ensures var s := Execute(p, BurstOf(n));
            |s.hits| == n && s.rejections == 0 && |s.admissions| == 1
    ensures Leased(p, Execute(p, BurstOf(n)), n)
  {
    if n == 0 {
      BurstBegins(p);
    } else {
      CacheGrantsAreUncounted(p, n - 1);
      ExecuteOneMore(p, BurstOf(n - 1), Lookup(0, 0, 0));
      LeaseGrants(p, Execute(p, BurstOf(n - 1)), n - 1);
    }
  }

  lemma LeaseGrants(p: Policy, s: Sys, n: nat)
    requires Leased(p, s, n)
    ensures Leased(p, Do(p, s, Lookup(0, 0, 0)), n + 1)
  {
  }

  lemma BurstBegins(p: Policy)
    requires p.requests >= 1
    ensures Leased(p, Execute(p, BurstOf(0)), 0)
  {
    var passed := [] + [Lookup(0, 0, 0)] + [ReadClock(0, 0)] + [Evaluate(0, 0, 0)];
    FirstCallPasses(p);
    ExecuteOneMore(p, passed, StoreLease(0, 0));
    assert BurstOf(0) == passed + [StoreLease(0, 0)];
  }

  lemma FirstIsAdmitted(p: Policy, s: Sys)
    requires p.requests >= 1 && s.requests == map[0 := Stamped(0, 0)] && s.ops == [] && s.admissions == map[]
    ensures var s' := Do(p, s, Evaluate(0, 0, 0));
            && s'.requests == map[0 := Passed(0, 0, 0)] && s'.admissions.Keys == {0} && |s'.admissions| == 1
            && s'.admissions[0].stamp == 0
            && s'.hits == s.hits && s'.rejections == s.rejections
            && At(s', 0).clock == At(s, 0).clock && At(s', 1) == At(s, 1) && s'.ops == [Eval(0, 0, 0)]
  {
    assert Prune(ABSENT.members, Millis(0) - ScriptLimit(p).window) == map[];
    assert Do(p, s, Evaluate(0, 0, 0)) == DoEvaluate(p, s, 0, 0, 0);
  }

  // ---- What an invalidation undoes ------------------------------------------------------------

  /** The grant is served by the lease of a store whose admission is not among `earlier`. */
  ghost predicate FreshlyServed(p: Policy, earlier: set<Member>, stores: seq<Store>, hit: Hit) {
    exists store <- stores ::
      store.node == hit.node && store.at <= hit.at && Cache.Live(Lease(p, store.at), hit.at) && store.member !in earlier
  }

  /**
   After `moves`, an invalidation delivered to `node` and `more`: all grants from the cache of
   `node` since the invalidation are served by admissions evaluated since then.
   */
  ghost predicate GrantsAreFresh(p: Policy, moves: seq<Move>, node: Node, more: seq<Move>) {
    var before, s := Execute(p, moves), Execute(p, moves + [Invalidate(node)] + more);
    forall i :: |before.hits| <= i < |s.hits| && s.hits[i].node == node ==>
      FreshlyServed(p, before.admissions.Keys, s.stores, s.hits[i])
  }

  /** A call of the node has been admitted and has yet to store its lease. */
  ghost predicate AboutToStore(s: Sys, node: Node) {
    exists r :: r in s.requests && s.requests[r].Passed? && s.requests[r].node == node
  }

  /**
   An invalidation ends the grants that rest on earlier admissions, whatever follows, if and
   only if no call of the gateway stands between evaluation and store when it is delivered.
   */
  lemma InvalidationTakesEffectIff(p: Policy, moves: seq<Move>, node: Node)
    requires Execute(p, moves).published
    ensures (forall more :: GrantsAreFresh(p, moves, node, more)) <==> !AboutToStore(Execute(p, moves), node)
  {
    if AboutToStore(Execute(p, moves), node) {
      StaleLeaseGrants(p, moves, node);
    } else {
      forall more
        ensures GrantsAreFresh(p, moves, node, more)
      {
        FreshSince(p, moves, node, more);
      }
    }
  }

  /** What a continuation without a stale store keeps. */
  ghost predicate Renewed(p: Policy, earlier: set<Member>, hits: nat, node: Node, s: Sys) {
    && earlier <= s.admissions.Keys
    && hits <= |s.hits|
    && (forall r :: r in s.requests && s.requests[r].Passed? && s.requests[r].node == node ==> s.requests[r].member !in earlier)
    && LeaseRenewed(p, earlier, s.stores, node, At(s, node))
    && (forall i :: hits <= i < |s.hits| && s.hits[i].node == node ==> FreshlyServed(p, earlier, s.stores, s.hits[i]))
  }

  ghost predicate LeaseRenewed(p: Policy, earlier: set<Member>, stores: seq<Store>, node: Node, g: Gateway) {
    g.lease.Some? ==>
      exists store <- stores ::
        store.node == node && store.at <= g.clock && g.lease.value == Lease(p, store.at) && store.member !in earlier
  }

  lemma LookupRenews(p: Policy, earlier: set<Member>, hits: nat, node: Node, s: Sys, r: Request, n: Node, at: int)
    requires Renewed(p, earlier, hits, node, s) && At(s, n).clock <= at
    ensures Renewed(p, earlier, hits, node, DoLookup(s, r, n, at))
  {
    if n == node && Serves(At(s, n), at) {
      var store :| store in s.stores && store.node == node && store.at <= At(s, node).clock
                   && At(s, node).lease.value == Lease(p, store.at) && store.member !in earlier;
      assert FreshlyServed(p, earlier, s.stores, Hit(node, at));
    }
  }

  lemma StoreRenews(p: Policy, earlier: set<Member>, hits: nat, node: Node, s: Sys, r: Request, at: int)
    requires Renewed(p, earlier, hits, node, s) && r in s.requests && s.requests[r].Passed?
    ensures Renewed(p, earlier, hits, node, DoStore(p, s, r, at))
  {
    var s' := DoStore(p, s, r, at);
    assert s'.stores[|s.stores|] == Store(s.requests[r].node, at, s.requests[r].member);
    assert forall store <- s.stores :: store in s'.stores;
    forall i | hits <= i < |s'.hits| && s'.hits[i].node == node
      ensures FreshlyServed(p, earlier, s'.stores, s'.hits[i])
    {
      assert FreshlyServed(p, earlier, s.stores, s.hits[i]);
    }
    if s.requests[r].node != node {
      assert At(s', node) == At(s, node);
    }
  }

  lemma EvaluateRenews(p: Policy, earlier: set<Member>, hits: nat, node: Node, s: Sys, r: Request, server: int, member: Member)
    requires Renewed(p, earlier, hits, node, s) && r in s.requests && s.requests[r].Stamped? && member !in s.admissions
    ensures Renewed(p, earlier, hits, node, DoEvaluate(p, s, r, server, member))
  {
    var s' := DoEvaluate(p, s, r, server, member);
    assert At(s', node).lease == At(s, node).lease && At(s', node).clock == At(s, node).clock;
  }

  lemma ReadRenews(p: Policy, earlier: set<Member>, hits: nat, node: Node, s: Sys, r: Request, at: int)
    requires Renewed(p, earlier, hits, node, s) && r in s.requests && At(s, s.requests[r].node).clock <= at
    ensures Renewed(p, earlier, hits, node, DoReadClock(s, r, at))
  {
  }

  lemma MoveRenews(p: Policy, earlier: set<Member>, hits: nat, node: Node, s: Sys, m: Move)
    requires Renewed(p, earlier, hits, node, s) && AdmissionsLogged(p, s)
    ensures Renewed(p, earlier, hits, node, Do(p, s, m))
  {
    if Can(p, s, m) {
      match m
      case Lookup(r, n, at) => LookupRenews(p, earlier, hits, node, s, r, n, at);
      case ReadClock(r, at) => ReadRenews(p, earlier, hits, node, s, r, at);
      case Evaluate(r, server, member) =>
        LogMembers(ScriptLimit(p), s.ops);
        assert member !in s.admissions.Keys;
        EvaluateRenews(p, earlier, hits, node, s, r, server, member);
      case StoreLease(r, at) => StoreRenews(p, earlier, hits, node, s, r, at);
      case _ =>
    }
  }

  lemma {:induction false} FreshSince(p: Policy, moves: seq<Move>, node: Node, more: seq<Move>)
    requires Execute(p, moves).published && !AboutToStore(Execute(p, moves), node)
    ensures GrantsAreFresh(p, moves, node, more)
    ensures var before := Execute(p, moves);
            Renewed(p, before.admissions.Keys, |before.hits|, node, Execute(p, moves + [Invalidate(node)] + more))
    decreases |more|
  {
    var before := Execute(p, moves);
    var all := moves + [Invalidate(node)] + more;
    if more == [] {
      assert all == moves + [Invalidate(node)];
      ExecuteOneMore(p, moves, Invalidate(node));
    } else {
      var shorter, m := moves + [Invalidate(node)] + more[..|more| - 1], more[|more| - 1];
      assert all == shorter + [m];
      FreshSince(p, moves, node, more[..|more| - 1]);
      ReachableAdmissions(p, shorter);
      ExecuteOneMore(p, shorter, m);
      MoveRenews(p, before.admissions.Keys, |before.hits|, node, Execute(p, shorter), m);
    }
  }

  /** A call that stands between evaluation and store installs its lease after the invalidation, and a grant follows. */
  lemma StaleLeaseGrants(p: Policy, moves: seq<Move>, node: Node)
    requires Execute(p, moves).published && AboutToStore(Execute(p, moves), node)
    ensures exists more :: !GrantsAreFresh(p, moves, node, more)
  {
    var s0 := Execute(p, moves);
    var r :| r in s0.requests && s0.requests[r].Passed? && s0.requests[r].node == node;
    var at := At(s0, node).clock;
    var more := [StoreLease(r, at), Lookup(r, node, at)];
    var invalidated := moves + [Invalidate(node)];
    ExecuteOneMore(p, moves, Invalidate(node));
    ExecuteOneMore(p, invalidated, StoreLease(r, at));
    ExecuteOneMore(p, invalidated + [StoreLease(r, at)], Lookup(r, node, at));
    assert invalidated + more == invalidated + [StoreLease(r, at)] + [Lookup(r, node, at)];
    assert StoresAdmitted(s0) by {
      ReachableAdmissions(p, moves);
    }
    StaleStore(p, s0, node, r);
    var s := Execute(p, invalidated + more);
    assert !FreshlyServed(p, s0.admissions.Keys, s.stores, s.hits[|s0.hits|]);
    assert !GrantsAreFresh(p, moves, node, more);
  }

  /** The moves of such a call, from the state in which the invalidation arrives. */
  lemma StaleStore(p: Policy, s0: Sys, node: Node, r: Request)
    requires s0.published && StoresAdmitted(s0)
    requires r in s0.requests && s0.requests[r].Passed? && s0.requests[r].node == node
    ensures var at := At(s0, node).clock;
            var s := Do(p, Do(p, Do(p, s0, Invalidate(node)), StoreLease(r, at)), Lookup(r, node, at));
            && s.hits == s0.hits + [Hit(node, at)]
            && forall store <- s.stores :: store.member in s0.admissions
  {
    var at := At(s0, node).clock;
    var s1 := DoInvalidate(s0, node);
    assert Do(p, s0, Invalidate(node)) == s1;
    var s2 := DoStore(p, s1, r, at);
    assert Do(p, s1, StoreLease(r, at)) == s2;
    LeaseServesAtOnce(p, at);
    assert Do(p, s2, Lookup(r, node, at)) == DoLookup(s2, r, node, at);
    assert s2.stores == s0.stores + [Store(node, at, s0.requests[r].member)];
  }

  lemma LeaseServesAtOnce(p: Policy, at: int)
    ensures Cache.Live(Lease(p, at), at)
  {
  }

  /** Two calls on two gateways; the second is rejected while the first has yet to store its lease. */
  const RACE: seq<Move> :=
    [] + [Lookup(0, 0, 0)] + [ReadClock(0, 0)] + [Evaluate(0, 0, 0)]
    + [Lookup(1, 1, 0)] + [ReadClock(1, 0)] + [Evaluate(1, 0, 1)]

  /**
   Such a run exists under every limit of one with a window of a millisecond or more: the
   rejection is published, its invalidation reaches the first gateway, which stores its lease
   after that and grants the next request from it.
   */
  lemma InvalidationBeforeStoreIsIgnored(p: Policy)
    requires p.requests == 1 && p.window >= MILLISECOND
    ensures var s := Execute(p, RACE);
            && s.published && s.rejections == 1 && s.admissions.Keys == {0} && AboutToStore(s, 0)
    ensures var s := Execute(p, RACE + [Invalidate(0)] + [StoreLease(0, 0)] + [Lookup(0, 0, 0)]);
            s.hits == [Hit(0, 0)] && s.admissions.Keys == {0} && s.rejections == 1
  {
    RaceRuns(p);
    var s := Execute(p, RACE);
    assert s.requests[0].Passed?;
    ExecuteOneMore(p, RACE, Invalidate(0));
    ExecuteOneMore(p, RACE + [Invalidate(0)], StoreLease(0, 0));
    ExecuteOneMore(p, RACE + [Invalidate(0)] + [StoreLease(0, 0)], Lookup(0, 0, 0));
    LeaseServesAtOnce(p, 0);
  }

  lemma RaceRuns(p: Policy)
    requires p.requests == 1 && p.window >= MILLISECOND
    ensures var s := Execute(p, RACE);
            && s.published && s.rejections == 1 && s.admissions.Keys == {0} && s.hits == []
            && s.requests == map[0 := Passed(0, 0, 0)] && At(s, 0).clock == 0
  {
    var first := [] + [Lookup(0, 0, 0)] + [ReadClock(0, 0)] + [Evaluate(0, 0, 0)];
    FirstCallPasses(p);
    var s3 := Execute(p, first);
    var second := first + [Lookup(1, 1, 0)] + [ReadClock(1, 0)];
    ExecuteOneMore(p, first, Lookup(1, 1, 0));
    ExecuteOneMore(p, first + [Lookup(1, 1, 0)], ReadClock(1, 0));
    var s5 := Execute(p, second);
    assert s5.requests == map[0 := Passed(0, 0, 0), 1 := Stamped(1, 0)];
    assert s5.ops == s3.ops && s5.admissions == s3.admissions && s5.hits == [] && At(s5, 0) == At(s3, 0);
    ExecuteOneMore(p, second, Evaluate(1, 0, 1));
    FirstCallFillsLimit(p);
    assert RACE == second + [Evaluate(1, 0, 1)];
    assert Execute(p, RACE) == DoEvaluate(p, s5, 1, 0, 1);
  }

  lemma FirstCallPasses(p: Policy)
    requires p.requests >= 1
    ensures var s := Execute(p, [] + [Lookup(0, 0, 0)] + [ReadClock(0, 0)] + [Evaluate(0, 0, 0)]);
            && s.requests == map[0 := Passed(0, 0, 0)] && s.admissions.Keys == {0} && |s.admissions| == 1
            && s.admissions[0].stamp == 0
            && s.hits == [] && s.rejections == 0 && At(s, 0).clock == 0 && At(s, 1) == STARTED
            && s.ops == [Eval(0, 0, 0)]
  {
    ExecuteOneMore(p, [], Lookup(0, 0, 0));
    ExecuteOneMore(p, [] + [Lookup(0, 0, 0)], ReadClock(0, 0));
    var asked := [] + [Lookup(0, 0, 0)] + [ReadClock(0, 0)];
    assert Execute(p, asked).requests == map[0 := Stamped(0, 0)];
    ExecuteOneMore(p, asked, Evaluate(0, 0, 0));
    FirstIsAdmitted(p, Execute(p, asked));
  }

  lemma FirstCallFillsLimit(p: Policy)
    requires p.requests == 1 && p.window >= MILLISECOND
    ensures !Admits(ScriptLimit(p), After(ScriptLimit(p), [Eval(0, 0, 0)]), 0)
    ensures 1 !in Members([Eval(0, 0, 0)])
  {
    var l := ScriptLimit(p);
    assert l.window >= 1;
    assert [Eval(0, 0, 0)][..0] == [];
    assert Prune(ABSENT.members, 0 - l.window) == map[];
    assert After(l, [Eval(0, 0, 0)]).members == map[0 := 0];
    assert Prune(map[0 := 0], 0 - l.window) == map[0 := 0];
  }

  // ---- What the limit bounds -------------------------------------------------------------------

  /** Grants from caches at readings in `[from, to)`. */
  ghost function HitsIn(s: Sys, from: int, to: int): set<nat> {
    set i: nat | i < |s.hits| && from <= s.hits[i].at < to
  }

  /** Admissions by Redis stamped in `[from, to)`. */
  ghost function AdmissionsIn(s: Sys, from: int, to: int): set<Member> {
    set m | m in s.admissions && from <= s.admissions[m].stamp < to
  }

  /** All grants of the run in the window that begins at `from`, counted by Redis or not, are within the limit. */
  ghost predicate GrantsWithinLimit(p: Policy, moves: seq<Move>, from: int) {
    var s := Execute(p, moves);
    |HitsIn(s, from, from + p.window)| + |AdmissionsIn(s, from, from + p.window)| <= if p.requests > 0 then p.requests else 0
  }

  /**
   The limit bounds all grants in every window of every run if and only if it allows none or
   the window is empty. It is the cache that breaks it: the run that does has one admission.
   */
  lemma LimitBoundsAllGrantsIff(p: Policy)
    ensures (forall moves, from :: GrantsWithinLimit(p, moves, from)) <==> p.requests <= 0 || p.window <= 0
  {
    if p.window <= 0 {
      forall moves, from
        ensures GrantsWithinLimit(p, moves, from)
      {
        EmptyWindow(p, moves, from);
      }
    } else if p.requests <= 0 {
      forall moves, from
        ensures GrantsWithinLimit(p, moves, from)
      {
        NothingIsGranted(p, moves);
        var s := Execute(p, moves);
        assert HitsIn(s, from, from + p.window) == {} && AdmissionsIn(s, from, from + p.window) == {};
      }
    } else {
      CacheGrantsAreUncounted(p, p.requests);
      BurstFillsWindow(p, p.requests);
    }
  }

  lemma EmptyWindow(p: Policy, moves: seq<Move>, from: int)
    requires p.window <= 0
    ensures GrantsWithinLimit(p, moves, from)
  {
    var s := Execute(p, moves);
    assert HitsIn(s, from, from + p.window) == {} && AdmissionsIn(s, from, from + p.window) == {};
  }

  /** All of a burst falls in one window. */
  lemma BurstFillsWindow(p: Policy, n: nat)
    requires p.requests >= 1 && p.window > 0 && n >= p.requests
    ensures !GrantsWithinLimit(p, BurstOf(n), 0)
  {
    var s := Execute(p, BurstOf(n));
    CacheGrantsAreUncounted(p, n);
    BurstAtOnce(p, n);
    BelowAre(n);
    assert HitsIn(s, 0, p.window) == Below(n);
    assert AdmissionsIn(s, 0, p.window) == s.admissions.Keys;
    assert |s.admissions| == |s.admissions.Keys|;
  }

  /** The numbers below `n`. */
  function Below(n: nat): set<nat> {
    if n == 0 then {} else Below(n - 1) + {n - 1}
  }

  lemma {:induction false} BelowAre(n: nat)
    ensures |Below(n)| == n && forall i: nat :: i in Below(n) <==> i < n
  {
    if n > 0 {
      BelowAre(n - 1);
    }
  }

  /** Everything in a burst happens at time 0. */
  lemma {:induction false} BurstAtOnce(p: Policy, n: nat)
    requires p.requests >= 1
    ensures var s := Execute(p, BurstOf(n));
            && (forall i :: 0 <= i < |s.hits| ==> s.hits[i].at == 0)
            && (forall m :: m in s.admissions ==> s.admissions[m].stamp == 0)
  {
    if n == 0 {
      FirstStampIsZero(p);
    } else {
      BurstAtOnce(p, n - 1);
      assert BurstOf(n) == BurstOf(n - 1) + [Lookup(0, 0, 0)];
      ExecuteOneMore(p, BurstOf(n - 1), Lookup(0, 0, 0));
      LookupAtZero(p, Execute(p, BurstOf(n - 1)));
    }
  }

  lemma LookupAtZero(p: Policy, s: Sys)
    ensures var s' := Do(p, s, Lookup(0, 0, 0));
            s'.admissions == s.admissions && (s'.hits == s.hits || s'.hits == s.hits + [Hit(0, 0)])
  {
  }

  lemma FirstStampIsZero(p: Policy)
    requires p.requests >= 1
    ensures var s := Execute(p, BurstOf(0));
            s.hits == [] && forall m :: m in s.admissions ==> s.admissions[m].stamp == 0
  {
    var passed := [] + [Lookup(0, 0, 0)] + [ReadClock(0, 0)] + [Evaluate(0, 0, 0)];
    FirstCallPasses(p);
    ExecuteOneMore(p, passed, StoreLease(0, 0));
    assert BurstOf(0) == passed + [StoreLease(0, 0)];
  }

  lemma {:induction false} NothingIsGranted(p: Policy, moves: seq<Move>)
    requires p.requests <= 0
    ensures var s := Execute(p, moves);
            && s.hits == [] && s.admissions == map[]
            && (forall r :: r in s.requests ==> !s.requests[r].Passed?)
            && (forall n :: n in s.gateways ==> s.gateways[n].lease.None?)
  {
    if moves != [] {
      NothingIsGranted(p, moves[..|moves| - 1]);
    }
  }
}
