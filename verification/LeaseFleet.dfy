/**
 A fleet of gateways in front of one Redis, for one limiter key. Each gateway keeps a
 short lease in its own cache after an admission by Redis and grants requests from
 it without asking again; a rejection publishes an invalidation, which may reach each
 gateway late, repeatedly, out of order or not at all.

 Calls of `Allow` are split into their atomic steps: cache lookup, clock reading,
 script evaluation, cache store. Gateway readings are in nanoseconds, Redis time in
 milliseconds. Other keys touch neither the lease nor the sorted set of this one
 (`Cache`, `SlidingWindow`), so one key is enough.
 */
module LeaseFleet {
  import opened Prelude
  import opened SlidingWindow
  import Cache

  type Node = nat
  type Request = nat

  /** The limit configured for the key: its window is a Go duration in nanoseconds. */
  datatype Policy = Policy(window: int, requests: int)

  /** Whole milliseconds; Go's integer division truncates toward zero. */
  function Millis(ns: int): int {
    if ns >= 0 then ns / 1_000_000 else -((-ns) / 1_000_000)
  }

  function Tenth(ns: int): int {
    if ns >= 0 then ns / 10 else -((-ns) / 10)
  }

  /** The lifetime of a lease: a tenth of the window, at most a second. */
  function LeaseTime(p: Policy): int {
    var ttl := Tenth(p.window);
    if ttl > SECOND then SECOND else ttl
  }

  /** What the script is given: the window in whole milliseconds. */
  function ScriptLimit(p: Policy): Limit {
    Limit(Millis(p.window), p.requests)
  }

  /** The cache item a store at time `at` leaves behind. */
  function Lease(p: Policy, at: int): Cache.Item<bool> {
    Cache.Item(true, if LeaseTime(p) > 0 then at + LeaseTime(p) else 0)
  }

  /** A lease lapses some day if and only if the window is at least ten nanoseconds. */
  lemma LeaseLapsesIff(p: Policy, at: int)
    requires at >= 0
    ensures (exists t :: !Cache.Live(Lease(p, at), t)) <==> p.window >= 10
  {
    if p.window >= 10 {
      assert !Cache.Live(Lease(p, at), at + LeaseTime(p) + 1);
    }
  }

  // ---- The fleet -----------------------------------------------------------------------

  /** One gateway: its cached lease and latest clock reading, and what has happened to it. */
  datatype Gateway = Gateway(
    lease: Option<Cache.Item<bool>>,
    clock: int,
    epoch: nat,                        // invalidations received
    newest: Option<int>)               // stamp of the newest admission since the last of them

  const STARTED: Gateway := Gateway(None, 0, 0, None)

  datatype Phase =
    | Missed(node: Node, since: int)                    // lookup failed at `since`
    | Stamped(node: Node, stamp: int)                   // clock read
    | Passed(node: Node, stamp: int, member: Member)    // admitted; the lease is still to be stored

  datatype Admission = Admission(node: Node, stamp: int, epoch: nat)

  datatype Store = Store(node: Node, at: int, member: Member)

  datatype Hit = Hit(node: Node, at: int)

  datatype Sys = Sys(
    gateways: map<Node, Gateway>,
    requests: map<Request, Phase>,
    ops: seq<Op>,                      // what Redis has done with the key
    admissions: map<Member, Admission>,
    published: bool,                   // an invalidation has been sent
    stores: seq<Store>,
    hits: seq<Hit>,                    // grants from the cache
    rejections: nat)

  const INITIAL: Sys := Sys(map[], map[], [], map[], false, [], [], 0)

  datatype Move =
    | Lookup(request: Request, node: Node, at: int)
    | ReadClock(request: Request, at: int)
    | Evaluate(request: Request, server: int, member: Member)
    | EvaluateFails(request: Request)      // the script did not run
    | ReplyLost(request: Request)          // it ran and admitted, but the gateway saw an error
    | StoreLease(request: Request, at: int)
    | Invalidate(node: Node)
    | KeyExpires(server: int)

  function At(s: Sys, node: Node): Gateway {
    if node in s.gateways then s.gateways[node] else STARTED
  }

  predicate RedisInTime(s: Sys, server: int) {
    s.ops != [] ==> s.ops[|s.ops| - 1].server <= server
  }

  /** The cache serves the gateway's lease at reading `at`. */
  predicate Serves(g: Gateway, at: int) {
    g.lease.Some? && Cache.Live(g.lease.value, at) && g.lease.value.value
  }

  function DoLookup(s: Sys, request: Request, node: Node, at: int): Sys {
    var s' := s.(gateways := s.gateways[node := At(s, node).(clock := at)]);
    if Serves(At(s, node), at)
    then s'.(hits := s.hits + [Hit(node, at)])
    else s'.(requests := s.requests[request := Missed(node, at)])
  }

  function DoReadClock(s: Sys, request: Request, at: int): Sys
    requires request in s.requests
  {
    var node := s.requests[request].node;
    s.(gateways := s.gateways[node := At(s, node).(clock := at)],
       requests := s.requests[request := Stamped(node, at)])
  }

  function DoEvaluate(p: Policy, s: Sys, request: Request, server: int, member: Member): Sys
    requires request in s.requests && s.requests[request].Stamped?
  {
    var l := ScriptLimit(p);
    var node, stamp := s.requests[request].node, s.requests[request].stamp;
    var s' := s.(ops := s.ops + [Eval(server, Millis(stamp), member)]);
    if Admits(l, After(l, s.ops), Millis(stamp)) then
      s'.(admissions := s.admissions[member := Admission(node, stamp, At(s, node).epoch)],
          gateways := s.gateways[node := At(s, node).(newest := Some(stamp))],
          requests := s.requests[request := Passed(node, stamp, member)])
    else
      s'.(requests := s.requests - {request}, published := true, rejections := s.rejections + 1)
  }

  function DoStore(p: Policy, s: Sys, request: Request, at: int): Sys
    requires request in s.requests && s.requests[request].Passed?
  {
    var node := s.requests[request].node;
    s.(gateways := s.gateways[node := At(s, node).(lease := Some(Lease(p, at)), clock := at)],
       requests := s.requests - {request},
       stores := s.stores + [Store(node, at, s.requests[request].member)])
  }

  function DoInvalidate(s: Sys, node: Node): Sys {
    var g := At(s, node);
    s.(gateways := s.gateways[node := g.(lease := None, epoch := g.epoch + 1, newest := None)])
  }

  /** The move is possible: its request is in the right phase, clocks do not go back, members are fresh. */
  predicate Can(p: Policy, s: Sys, m: Move) {
    match m
    case Lookup(r, node, at) => r !in s.requests && At(s, node).clock <= at
    case ReadClock(r, at) => r in s.requests && s.requests[r].Missed? && At(s, s.requests[r].node).clock <= at
    case Evaluate(r, server, member) =>
      r in s.requests && s.requests[r].Stamped? && RedisInTime(s, server) && member !in Members(s.ops)
    case EvaluateFails(r) => r in s.requests && s.requests[r].Stamped?
    case ReplyLost(r) => r in s.requests && s.requests[r].Passed?
    case StoreLease(r, at) => r in s.requests && s.requests[r].Passed? && At(s, s.requests[r].node).clock <= at
    case Invalidate(node) => s.published
    case KeyExpires(server) =>
      var k := After(ScriptLimit(p), s.ops);
      k.deadline.Some? && k.deadline.value <= server && RedisInTime(s, server)
  }

  /** One step of the fleet; a move that is not possible changes nothing. */
  function Do(p: Policy, s: Sys, m: Move): Sys {
    if !Can(p, s, m) then s
    else
      match m
      case Lookup(r, node, at) => DoLookup(s, r, node, at)
      case ReadClock(r, at) => DoReadClock(s, r, at)
      case Evaluate(r, server, member) => DoEvaluate(p, s, r, server, member)
      case EvaluateFails(r) => s.(requests := s.requests - {r})
      case ReplyLost(r) => s.(requests := s.requests - {r})
      case StoreLease(r, at) => DoStore(p, s, r, at)
      case Invalidate(node) => DoInvalidate(s, node)
      case KeyExpires(server) => s.(ops := s.ops + [Expire(server)])
  }

  /** The state after any sequence of moves. */
  function Execute(p: Policy, moves: seq<Move>): Sys {
    if moves == [] then INITIAL else Do(p, Execute(p, moves[..|moves| - 1]), moves[|moves| - 1])
  }

  lemma ExecuteOneMore(p: Policy, moves: seq<Move>, m: Move)
    ensures Execute(p, moves + [m]) == Do(p, Execute(p, moves), m)
  {
    assert (moves + [m])[..|moves|] == moves;
  }

  /** The state after some more moves. */
  function Continue(p: Policy, s: Sys, moves: seq<Move>): Sys {
    if moves == [] then s else Do(p, Continue(p, s, moves[..|moves| - 1]), moves[|moves| - 1])
  }

  lemma ContinueOneMore(p: Policy, s: Sys, moves: seq<Move>, m: Move)
    ensures Continue(p, s, moves + [m]) == Do(p, Continue(p, s, moves), m)
  {
    assert (moves + [m])[..|moves|] == moves;
  }

  /** Continuing a run is running the longer sequence, so what holds of all runs holds after it. */
  lemma {:induction false} ContinueIsExecute(p: Policy, moves: seq<Move>, more: seq<Move>)
    ensures Continue(p, Execute(p, moves), more) == Execute(p, moves + more)
    decreases |more|
  {
    var all := moves + more;
    if more == [] {
      assert all == moves;
    } else {
      ContinueIsExecute(p, moves, more[..|more| - 1]);
      assert all[..|all| - 1] == moves + more[..|more| - 1];
    }
  }

  // ---- Lease coverage ---------------------------------------------------------------------

  /** Some store on the node lies at most a lease time before its reading `at`. */
  ghost predicate Covered(ttl: int, stores: seq<Store>, node: Node, at: int) {
    exists j :: 0 <= j < |stores| && stores[j].node == node && stores[j].at <= at <= stores[j].at + ttl
  }

  /** The gateway's lease, if any, runs out `ttl` after a store it made at a reading it has passed. */
  ghost predicate LeftByStore(ttl: int, stores: seq<Store>, node: Node, g: Gateway) {
    g.lease.Some? ==>
      exists j :: 0 <= j < |stores| && stores[j].node == node && stores[j].at <= g.clock
                  && g.lease.value.expiration == stores[j].at + ttl && g.lease.value.expiration > 0
  }

  ghost predicate LeasesTraced(ttl: int, s: Sys) {
    && (forall n :: n in s.gateways ==> s.gateways[n].clock >= 0 && LeftByStore(ttl, s.stores, n, s.gateways[n]))
    && (forall i :: 0 <= i < |s.hits| ==> Covered(ttl, s.stores, s.hits[i].node, s.hits[i].at))
  }

  /** A store, and a request about to store, follow an admission of their own node. */
  ghost predicate StoresAdmitted(s: Sys) {
    && (forall i :: 0 <= i < |s.stores| ==>
          s.stores[i].member in s.admissions && s.admissions[s.stores[i].member].node == s.stores[i].node)
    && (forall r :: r in s.requests && s.requests[r].Passed? ==>
          s.requests[r].member in s.admissions && s.admissions[s.requests[r].member].node == s.requests[r].node)
  }

  ghost predicate AdmissionsLogged(p: Policy, s: Sys) {
    var l := ScriptLimit(p);
    && s.admissions.Keys == Log(l, s.ops).Keys
    && (forall m :: m in s.admissions ==> Log(l, s.ops)[m].now == Millis(s.admissions[m].stamp))
  }

  lemma StoreExtends(ttl: int, stores: seq<Store>, extra: Store, node: Node, at: int, g: Gateway)
    ensures Covered(ttl, stores, node, at) ==> Covered(ttl, stores + [extra], node, at)
    ensures LeftByStore(ttl, stores, node, g) ==> LeftByStore(ttl, stores + [extra], node, g)
  {
    var all := stores + [extra];
    assert forall j :: 0 <= j < |stores| ==> all[j] == stores[j];
  }

  /** A lease that is served covers the reading; a lease that is not stays where it was. */
  lemma LookupKeepsTraces(ttl: int, s: Sys, r: Request, node: Node, at: int)
    requires LeasesTraced(ttl, s) && At(s, node).clock <= at
    ensures LeasesTraced(ttl, DoLookup(s, r, node, at))
  {
    var g := At(s, node);
    assert g.clock >= 0 && LeftByStore(ttl, s.stores, node, g);
    assert LeftByStore(ttl, s.stores, node, g.(clock := at));
    assert Serves(g, at) ==> Covered(ttl, s.stores, node, at);
  }

  lemma ReadKeepsTraces(ttl: int, s: Sys, r: Request, at: int)
    requires LeasesTraced(ttl, s) && r in s.requests && At(s, s.requests[r].node).clock <= at
    ensures LeasesTraced(ttl, DoReadClock(s, r, at))
  {
    var node := s.requests[r].node;
    assert LeftByStore(ttl, s.stores, node, At(s, node).(clock := at));
  }

  lemma StoreKeepsTraces(p: Policy, s: Sys, r: Request, at: int)
    requires p.window >= 10 && LeasesTraced(LeaseTime(p), s)
    requires r in s.requests && s.requests[r].Passed? && At(s, s.requests[r].node).clock <= at
    ensures LeasesTraced(LeaseTime(p), DoStore(p, s, r, at))
  {
    var ttl := LeaseTime(p);
    var s' := DoStore(p, s, r, at);
    var extra := Store(s.requests[r].node, at, s.requests[r].member);
    forall i | 0 <= i < |s'.hits|
      ensures Covered(ttl, s'.stores, s'.hits[i].node, s'.hits[i].at)
    {
      StoreExtends(ttl, s.stores, extra, s.hits[i].node, s.hits[i].at, STARTED);
    }
    forall n | n in s'.gateways
      ensures s'.gateways[n].clock >= 0 && LeftByStore(ttl, s'.stores, n, s'.gateways[n])
    {
      if n == extra.node {
        assert s'.stores[|s.stores|] == extra;
      } else {
        StoreExtends(ttl, s.stores, extra, n, 0, s.gateways[n]);
      }
    }
  }

  lemma EvaluateKeepsTraces(p: Policy, ttl: int, s: Sys, r: Request, server: int, member: Member)
    requires LeasesTraced(ttl, s) && r in s.requests && s.requests[r].Stamped?
    ensures LeasesTraced(ttl, DoEvaluate(p, s, r, server, member))
  {
    var node := s.requests[r].node;
    assert LeftByStore(ttl, s.stores, node, At(s, node).(newest := Some(s.requests[r].stamp)));
  }

  lemma MoveKeepsTraces(p: Policy, s: Sys, m: Move)
    requires p.window >= 10 && LeasesTraced(LeaseTime(p), s)
    ensures LeasesTraced(LeaseTime(p), Do(p, s, m))
  {
    if Can(p, s, m) {
      match m
      case Lookup(r, node, at) => LookupKeepsTraces(LeaseTime(p), s, r, node, at);
      case ReadClock(r, at) => ReadKeepsTraces(LeaseTime(p), s, r, at);
      case StoreLease(r, at) => StoreKeepsTraces(p, s, r, at);
      case Evaluate(r, server, member) => EvaluateKeepsTraces(p, LeaseTime(p), s, r, server, member);
      case _ =>
    }
  }

  lemma EvaluateKeepsLog(p: Policy, s: Sys, r: Request, server: int, member: Member)
    requires AdmissionsLogged(p, s) && r in s.requests && s.requests[r].Stamped?
    ensures AdmissionsLogged(p, DoEvaluate(p, s, r, server, member))
  {
    var stamp := s.requests[r].stamp;
    LogOfEvaluation(ScriptLimit(p), s.ops, Eval(server, Millis(stamp), member));
  }

  lemma LogOfEvaluation(l: Limit, ops: seq<Op>, e: Op)
    requires e.Eval?
    ensures Log(l, ops + [e])
         == if Admits(l, After(l, ops), e.now) then Log(l, ops)[e.member := Stamp(e.server, e.now)] else Log(l, ops)
  {
    assert (ops + [e])[..|ops|] == ops;
  }

  lemma ExpiryKeepsLog(p: Policy, s: Sys, server: int)
    requires AdmissionsLogged(p, s)
    ensures AdmissionsLogged(p, s.(ops := s.ops + [Expire(server)]))
  {
    assert (s.ops + [Expire(server)])[..|s.ops|] == s.ops;
  }

  lemma EvaluateKeepsStores(p: Policy, s: Sys, r: Request, server: int, member: Member)
    requires StoresAdmitted(s) && r in s.requests && s.requests[r].Stamped? && member !in s.admissions
    ensures StoresAdmitted(DoEvaluate(p, s, r, server, member))
  {
  }

  lemma MoveKeepsAdmissions(p: Policy, s: Sys, m: Move)
    requires AdmissionsLogged(p, s) && StoresAdmitted(s)
    ensures AdmissionsLogged(p, Do(p, s, m)) && StoresAdmitted(Do(p, s, m))
  {
    if Can(p, s, m) {
      if m.Evaluate? {
        LogMembers(ScriptLimit(p), s.ops);
        assert m.member !in s.admissions.Keys;
        EvaluateKeepsLog(p, s, m.request, m.server, m.member);
        EvaluateKeepsStores(p, s, m.request, m.server, m.member);
      } else if m.KeyExpires? {
        ExpiryKeepsLog(p, s, m.server);
      }
    }
  }

  lemma {:induction false} ReachableAdmissions(p: Policy, moves: seq<Move>)
    ensures AdmissionsLogged(p, Execute(p, moves)) && StoresAdmitted(Execute(p, moves))
  {
    if moves != [] {
      ReachableAdmissions(p, moves[..|moves| - 1]);
      MoveKeepsAdmissions(p, Execute(p, moves[..|moves| - 1]), moves[|moves| - 1]);
    }
  }

  lemma {:induction false} ReachableTraces(p: Policy, moves: seq<Move>)
    requires p.window >= 10
    ensures LeasesTraced(LeaseTime(p), Execute(p, moves))
  {
    if moves != [] {
      ReachableTraces(p, moves[..|moves| - 1]);
      MoveKeepsTraces(p, Execute(p, moves[..|moves| - 1]), moves[|moves| - 1]);
    }
  }

  /**
   Every grant from a cache is covered by an admission: the same gateway stored the lease at
   most a tenth of the window and at most a second earlier, after Redis admitted and logged
   one of its requests. No
   use of invalidations is made, so all of them may be lost.
   */
  lemma {:induction false} LeaseCoverage(p: Policy, moves: seq<Move>, i: nat)
    requires p.window >= 10 && i < |Execute(p, moves).hits|
    ensures var s := Execute(p, moves);
            exists store <- s.stores ::
              && store.node == s.hits[i].node
              && store.at <= s.hits[i].at && s.hits[i].at <= store.at + p.window / 10 && s.hits[i].at <= store.at + 1_000_000_000
              && store.member in Log(ScriptLimit(p), s.ops)
              && store.member in s.admissions && s.admissions[store.member].node == store.node
  {
    ReachableTraces(p, moves);
    ReachableAdmissions(p, moves);
    var s := Execute(p, moves);
    assert Covered(LeaseTime(p), s.stores, s.hits[i].node, s.hits[i].at);
    var j :| 0 <= j < |s.stores| && s.stores[j].node == s.hits[i].node
             && s.stores[j].at <= s.hits[i].at <= s.stores[j].at + LeaseTime(p);
    assert s.stores[j] in s.stores && s.stores[j].member in s.admissions.Keys;
  }

  /** Grants from a cache never extend it: they stop within a tenth of the window, and a second, of the gateway's last store. */
  lemma {:induction false} GrantsStop(p: Policy, moves: seq<Move>, node: Node, last: int)
    requires p.window >= 10
    requires forall store <- Execute(p, moves).stores :: store.node == node ==> store.at <= last
    ensures forall hit <- Execute(p, moves).hits :: hit.node == node ==>
              hit.at <= last + p.window / 10 && hit.at <= last + 1_000_000_000
  {
    ReachableTraces(p, moves);
    var s := Execute(p, moves);
    forall hit <- s.hits | hit.node == node
      ensures hit.at <= last + p.window / 10 && hit.at <= last + 1_000_000_000
    {
      assert Covered(LeaseTime(p), s.stores, hit.node, hit.at);
      var j :| 0 <= j < |s.stores| && s.stores[j].node == node && s.stores[j].at <= hit.at <= s.stores[j].at + LeaseTime(p);
      assert s.stores[j] in s.stores;
    }
  }

  /** Only its own stores and invalidations change a gateway's lease. */
  lemma MoveKeepsLease(p: Policy, s: Sys, m: Move, node: Node)
    requires m != Invalidate(node)
    ensures |s.stores| <= |Do(p, s, m).stores| && Do(p, s, m).stores[..|s.stores|] == s.stores
    ensures (forall j :: |s.stores| <= j < |Do(p, s, m).stores| ==> Do(p, s, m).stores[j].node != node) ==>
              At(Do(p, s, m), node).lease == At(s, node).lease
  {
    if Can(p, s, m) && m.StoreLease? {
      var s' := DoStore(p, s, m.request, m.at);
      assert s'.stores[|s.stores|].node == s.requests[m.request].node;
    }
  }

  /** No invalidation has reached the gateway and no later store of its own renewed the lease. */
  ghost predicate Undisturbed(s: Sys, s': Sys, node: Node) {
    |s.stores| <= |s'.stores| && forall j :: |s.stores| <= j < |s'.stores| ==> s'.stores[j].node != node
  }

  lemma {:induction false} LeaseStays(p: Policy, s: Sys, more: seq<Move>, node: Node)
    requires (forall m <- more :: m != Invalidate(node)) && Undisturbed(s, Continue(p, s, more), node)
    ensures At(Continue(p, s, more), node).lease == At(s, node).lease
    ensures Continue(p, s, more).stores[..|s.stores|] == s.stores
    decreases |more|
  {
    if more != [] {
      var shorter, m := more[..|more| - 1], more[|more| - 1];
      var s1 := Continue(p, s, shorter);
      assert m in more;
      MoveKeepsLease(p, s1, m, node);
      StoresGrow(p, s, shorter);
      assert forall j :: |s.stores| <= j < |s1.stores| ==> s1.stores[j] == Continue(p, s, more).stores[j];
      assert forall x <- shorter :: x in more;
      LeaseStays(p, s, shorter, node);
    }
  }

  lemma {:induction false} StoresGrow(p: Policy, s: Sys, more: seq<Move>)
    ensures |s.stores| <= |Continue(p, s, more).stores|
    decreases |more|
  {
    if more != [] {
      StoresGrow(p, s, more[..|more| - 1]);
    }
  }

  /** The lease that a store leaves is served for a tenth of the window, and a second at most. */
  lemma LeaseIsLive(p: Policy, at: int, t: int)
    requires p.window >= 10 && at >= 0
    ensures Cache.Live(Lease(p, at), t) <==> t <= at + p.window / 10 && t <= at + 1_000_000_000
  {
  }

  /**
   How long a lease lasts, exactly: after a store at `at`, with no invalidation of the gateway and
   no later store of its own in between, a call that looks at `t` is granted from the cache if and
   only if `t` is at most a tenth of the window and at most a second later; otherwise it goes on
   to ask Redis.
   */
  lemma LeaseServesExactly(p: Policy, moves: seq<Move>, r: Request, at: int, more: seq<Move>, q: Request, t: int)
    requires p.window >= 10 && Can(p, Execute(p, moves), StoreLease(r, at))
    requires var node := Execute(p, moves).requests[r].node;
             && (forall m <- more :: m != Invalidate(node))
             && Undisturbed(Execute(p, moves + [StoreLease(r, at)]), Execute(p, moves + [StoreLease(r, at)] + more), node)
             && Can(p, Execute(p, moves + [StoreLease(r, at)] + more), Lookup(q, node, t))
    ensures var node := Execute(p, moves).requests[r].node;
            var s := Execute(p, moves + [StoreLease(r, at)] + more);
            var s' := Do(p, s, Lookup(q, node, t));
            if t <= at + p.window / 10 && t <= at + 1_000_000_000
            then s'.hits == s.hits + [Hit(node, t)] && s'.requests == s.requests
            else s'.hits == s.hits && q in s'.requests && s'.requests[q] == Missed(node, t)
  {
    var s0 := Execute(p, moves);
    var node := s0.requests[r].node;
    ReachableTraces(p, moves);
    assert At(s0, node).clock >= 0;
    ExecuteOneMore(p, moves, StoreLease(r, at));
    var s1 := Execute(p, moves + [StoreLease(r, at)]);
    assert At(s1, node).lease == Some(Lease(p, at));
    ContinueIsExecute(p, moves + [StoreLease(r, at)], more);
    LeaseStays(p, s1, more, node);
    LeaseIsLive(p, at, t);
  }

  // ---- The window bound for the fleet -------------------------------------------------------

  ghost predicate WithinSkew(ops: seq<Op>, skew: nat) {
    forall op <- ops :: op.Eval? ==> op.server - skew <= op.now <= op.server
  }

  lemma {:induction false} HistoryExtends(l: Limit, skew: nat, ops: seq<Op>, op: Op)
    requires Possible(l, skew, ops)
    requires ops != [] ==> ops[|ops| - 1].server <= op.server
    requires op.Eval? ==> op.server - skew <= op.now <= op.server && op.member !in Members(ops)
    requires op.Expire? ==> After(l, ops).deadline.Some? && After(l, ops).deadline.value <= op.server
    ensures Possible(l, skew, ops + [op])
  {
    assert (ops + [op])[..|ops|] == ops;
  }

  /** What a move makes Redis do, if anything. */
  function RedisOp(p: Policy, s: Sys, m: Move): Option<Op> {
    if !Can(p, s, m) then None
    else if m.Evaluate? then Some(Eval(m.server, Millis(s.requests[m.request].stamp), m.member))
    else if m.KeyExpires? then Some(Expire(m.server))
    else None
  }

  lemma MoveActsOnRedis(p: Policy, s: Sys, m: Move)
    ensures Do(p, s, m).ops == if RedisOp(p, s, m).Some? then s.ops + [RedisOp(p, s, m).value] else s.ops
    ensures RedisOp(p, s, m).Some? ==>
              var op := RedisOp(p, s, m).value;
              && RedisInTime(s, op.server)
              && (op.Eval? ==> op.member !in Members(s.ops))
              && (op.Expire? ==> var k := After(ScriptLimit(p), s.ops); k.deadline.Some? && k.deadline.value <= op.server)
  {
  }

  lemma {:induction false} RedisHistoryPossible(p: Policy, skew: nat, moves: seq<Move>)
    requires WithinSkew(Execute(p, moves).ops, skew)
    ensures Possible(ScriptLimit(p), skew, Execute(p, moves).ops)
  {
    if moves != [] {
      var shorter, m := moves[..|moves| - 1], moves[|moves| - 1];
      var s := Execute(p, shorter);
      var ops := Execute(p, moves).ops;
      MoveActsOnRedis(p, s, m);
      assert forall op <- s.ops :: op in ops;
      RedisHistoryPossible(p, skew, shorter);
      if RedisOp(p, s, m).Some? {
        assert ops[|s.ops|] in ops;
        HistoryExtends(ScriptLimit(p), skew, s.ops, ops[|s.ops|]);
      }
    }
  }

  /**
   However the fleet's steps interleave, whatever invalidations do, and however late the
   key expires, Redis admits at most `requests` calls in any interval of length
   `window - skew` milliseconds.
   */
  lemma {:induction false} FleetWindowBound(p: Policy, skew: nat, moves: seq<Move>, from: int)
    requires WithinSkew(Execute(p, moves).ops, skew)
    ensures var log := Log(ScriptLimit(p), Execute(p, moves).ops);
            var to := from + p.window / 1_000_000 - skew;
            && |AdmittedIn(log, from, to)| <= (if p.requests > 0 then p.requests else 0)
            && |StampedIn(log, from, to)| <= (if p.requests > 0 then p.requests else 0)
  {
    var ops := Execute(p, moves).ops;
    var log, to := Log(ScriptLimit(p), ops), from + p.window / 1_000_000 - skew;
    assert Possible(ScriptLimit(p), skew, ops) by {
      RedisHistoryPossible(p, skew, moves);
    }
    WindowBound(ScriptLimit(p), skew, ops, from);
    if p.window < 0 {
      assert AdmittedIn(log, from, to) == {} && StampedIn(log, from, to) == {};
    }
  }
}
