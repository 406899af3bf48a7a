/**
 The two-tier limiter object of one gateway: its cache, the shared Redis and its own
 counters. A call is taken as a whole here, with the clock readings and the Redis time of
 its steps as parameters; `LeaseFleet` interleaves the steps of many. Redis carries the
 fleet's state for one key that is watched, every call of every gateway is proved to be moves
 of that fleet, and a whole deployment of gateways on one Redis stays in step with it.
 */
module TwoTierLimiter {
  import opened Prelude
  import opened SlidingWindow
  import LeaseFleet
  import Cache

  /** Redis as the limiters share it: sorted sets by key, and the invalidation channel. */
  class Redis {
    var keys: map<Cache.Key, KeyState>
    var invalidations: seq<Cache.Key>

    ghost const watched: Cache.Key        // the key the fleet below is about
    ghost const limit: LeaseFleet.Policy  // and the limit configured for it
    ghost var fleet: LeaseFleet.Sys

    /** The fleet's history is what made the watched key's sorted set. */
    ghost predicate Valid()
      reads this
    {
      After(LeaseFleet.ScriptLimit(limit), fleet.ops) == Lookup(watched)
    }

    constructor (ghost watched: Cache.Key, ghost limit: LeaseFleet.Policy)
      ensures Valid() && keys == map[] && invalidations == []
      ensures this.watched == watched && this.limit == limit && fleet == LeaseFleet.INITIAL
    {
      keys, invalidations := map[], [];
      this.watched, this.limit, fleet := watched, limit, LeaseFleet.INITIAL;
    }

    ghost function Lookup(key: Cache.Key): KeyState
      reads this
    {
      if key in keys then keys[key] else ABSENT
    }

    /** EVAL of the sliding-window script on one key. */
    method Eval(key: Cache.Key, l: Limit, now: int, member: Member, server: int) returns (allowed: int)
      modifies this`keys
      ensures keys == old(keys)[key := Apply(l, old(Lookup(key)), SlidingWindow.Eval(server, now, member))]
      ensures allowed == if Admits(l, old(Lookup(key)), now) then 1 else 0
    {
      var redisKey := new RedisKey();
      if key in keys {
        redisKey.members, redisKey.deadline := keys[key].members, keys[key].deadline;
      }
      allowed := redisKey.SlidingWindow(now, l.window, l.requests, member, server);
      keys := keys[key := redisKey.Value()];
    }
  }

  // ---- Calls as moves of the fleet ---------------------------------------------------------------

  /** The fleet's view of one gateway and key: its lease is the cached item, its history gives the sorted set. */
  ghost predicate Shows(p: LeaseFleet.Policy, s: LeaseFleet.Sys, node: LeaseFleet.Node, items: map<Cache.Key, Cache.Item<bool>>,
                        key: Cache.Key, k: KeyState)
  {
    && LeaseFleet.At(s, node).lease == (if key in items then Some(items[key]) else None)
    && After(LeaseFleet.ScriptLimit(p), s.ops) == k
  }

  /** What becomes of a script call: it answers, never runs, or runs but the gateway sees an error. */
  datatype Reply = Answered | NotRun | Lost

  /** One call of `Allow`: its number, its clock readings and what Redis makes of it. */
  datatype Call = Call(request: nat, t0: int, t1: int, reply: Reply, server: int, member: Member, t2: int)

  /** The call can happen now: clocks do not go back, and its number and member are fresh. */
  ghost predicate Timely(s: LeaseFleet.Sys, node: nat, c: Call) {
    && c.request !in s.requests && LeaseFleet.At(s, node).clock <= c.t0 <= c.t1 <= c.t2
    && LeaseFleet.RedisInTime(s, c.server) && c.member !in Members(s.ops)
  }

  /** The moves of a call. After a cache hit all but the first are impossible and change nothing. */
  function CallMoves(node: nat, c: Call): seq<LeaseFleet.Move> {
    var asked := [] + [LeaseFleet.Lookup(c.request, node, c.t0)] + [LeaseFleet.ReadClock(c.request, c.t1)];
    match c.reply
    case Answered => asked + [LeaseFleet.Evaluate(c.request, c.server, c.member)] + [LeaseFleet.StoreLease(c.request, c.t2)]
    case NotRun => asked + [LeaseFleet.EvaluateFails(c.request)]
    case Lost => asked + [LeaseFleet.Evaluate(c.request, c.server, c.member)] + [LeaseFleet.ReplyLost(c.request)]
  }

  predicate Hit(items: map<Cache.Key, Cache.Item<bool>>, key: Cache.Key, c: Call) {
    Cache.FlatGet(items, key, c.t0) == Some(true)
  }

  /** The call is admitted by the script and learns of it. */
  predicate Admitted(p: LeaseFleet.Policy, items: map<Cache.Key, Cache.Item<bool>>, key: Cache.Key, k: KeyState, c: Call) {
    !Hit(items, key, c) && c.reply.Answered? && Admits(LeaseFleet.ScriptLimit(p), k, LeaseFleet.Millis(c.t1))
  }

  /** The cached items after a call. */
  function ItemsAfter(p: LeaseFleet.Policy, items: map<Cache.Key, Cache.Item<bool>>, key: Cache.Key, k: KeyState, c: Call)
    : map<Cache.Key, Cache.Item<bool>>
  {
    if Admitted(p, items, key, k, c) then Cache.Flat(items, Cache.Timed(Cache.Set(key, true, LeaseFleet.LeaseTime(p)), c.t2)) else items
  }

  /** The key's sorted set after a call. */
  function KeyAfter(p: LeaseFleet.Policy, items: map<Cache.Key, Cache.Item<bool>>, key: Cache.Key, k: KeyState, c: Call): KeyState {
    if Hit(items, key, c) || c.reply.NotRun? then k
    else Apply(LeaseFleet.ScriptLimit(p), k, Eval(c.server, LeaseFleet.Millis(c.t1), c.member))
  }

  /**
   A call is its moves: they take the fleet from the cached items and sorted set before it to
   those after it, whether it hits, is admitted, is refused or fails, and they grant from the
   cache exactly when it hits.
   */
  lemma CallIsAFleetRun(p: LeaseFleet.Policy, s: LeaseFleet.Sys, node: nat, items: map<Cache.Key, Cache.Item<bool>>,
                        key: Cache.Key, k: KeyState, c: Call)
    requires Shows(p, s, node, items, key, k) && Timely(s, node, c)
    ensures var s' := LeaseFleet.Continue(p, s, CallMoves(node, c));
            && Shows(p, s', node, ItemsAfter(p, items, key, k, c), key, KeyAfter(p, items, key, k, c))
            && |s'.hits| == |s.hits| + (if Hit(items, key, c) then 1 else 0)
            && c.request !in s'.requests
  {
    if Hit(items, key, c) {
      HitIsAFleetRun(p, s, node, items, key, k, c);
    } else {
      MissIsAFleetRun(p, s, node, items, key, k, c);
    }
  }

  /** A number that is not under way: every move of its call but the lookup changes nothing. */
  lemma IdleMoves(p: LeaseFleet.Policy, s: LeaseFleet.Sys, c: Call)
    requires c.request !in s.requests
    ensures LeaseFleet.Do(p, s, LeaseFleet.ReadClock(c.request, c.t1)) == s
    ensures LeaseFleet.Do(p, s, LeaseFleet.Evaluate(c.request, c.server, c.member)) == s
    ensures LeaseFleet.Do(p, s, LeaseFleet.EvaluateFails(c.request)) == s
    ensures LeaseFleet.Do(p, s, LeaseFleet.ReplyLost(c.request)) == s
    ensures LeaseFleet.Do(p, s, LeaseFleet.StoreLease(c.request, c.t2)) == s
  {
  }

  /** The moves of a call, one after the other. */
  lemma CallUnfolds(p: LeaseFleet.Policy, s: LeaseFleet.Sys, node: nat, c: Call)
    ensures var asked := LeaseFleet.Do(p, LeaseFleet.Do(p, s, LeaseFleet.Lookup(c.request, node, c.t0)), LeaseFleet.ReadClock(c.request, c.t1));
            var ran := LeaseFleet.Do(p, asked, LeaseFleet.Evaluate(c.request, c.server, c.member));
            LeaseFleet.Continue(p, s, CallMoves(node, c)) ==
              match c.reply
              case Answered => LeaseFleet.Do(p, ran, LeaseFleet.StoreLease(c.request, c.t2))
              case NotRun => LeaseFleet.Do(p, asked, LeaseFleet.EvaluateFails(c.request))
              case Lost => LeaseFleet.Do(p, ran, LeaseFleet.ReplyLost(c.request))
  {
    var look, read := LeaseFleet.Lookup(c.request, node, c.t0), LeaseFleet.ReadClock(c.request, c.t1);
    var eval := LeaseFleet.Evaluate(c.request, c.server, c.member);
    LeaseFleet.ContinueOneMore(p, s, [], look);
    LeaseFleet.ContinueOneMore(p, s, [] + [look], read);
    match c.reply
    case Answered =>
      LeaseFleet.ContinueOneMore(p, s, [] + [look] + [read], eval);
      LeaseFleet.ContinueOneMore(p, s, [] + [look] + [read] + [eval], LeaseFleet.StoreLease(c.request, c.t2));
    case NotRun =>
      LeaseFleet.ContinueOneMore(p, s, [] + [look] + [read], LeaseFleet.EvaluateFails(c.request));
    case Lost =>
      LeaseFleet.ContinueOneMore(p, s, [] + [look] + [read], eval);
      LeaseFleet.ContinueOneMore(p, s, [] + [look] + [read] + [eval], LeaseFleet.ReplyLost(c.request));
  }

  /** A call that hits the cache is the fleet's lookup alone. */
  lemma HitIsAFleetRun(p: LeaseFleet.Policy, s: LeaseFleet.Sys, node: nat, items: map<Cache.Key, Cache.Item<bool>>,
                       key: Cache.Key, k: KeyState, c: Call)
    requires Shows(p, s, node, items, key, k) && Timely(s, node, c) && Hit(items, key, c)
    ensures var s' := LeaseFleet.Continue(p, s, CallMoves(node, c));
            && s' == LeaseFleet.Do(p, s, LeaseFleet.Lookup(c.request, node, c.t0))
            && Shows(p, s', node, items, key, k) && |s'.hits| == |s.hits| + 1 && c.request !in s'.requests
  {
    var s1 := LeaseFleet.Do(p, s, LeaseFleet.Lookup(c.request, node, c.t0));
    assert s1 == LeaseFleet.DoLookup(s, c.request, node, c.t0);
    CallUnfolds(p, s, node, c);
    IdleMoves(p, s1, c);
  }

  /** A call that misses has read the clock after two moves. */
  lemma MissIsStamped(p: LeaseFleet.Policy, s: LeaseFleet.Sys, node: nat, items: map<Cache.Key, Cache.Item<bool>>,
                      key: Cache.Key, k: KeyState, c: Call)
    requires Shows(p, s, node, items, key, k) && Timely(s, node, c) && !Hit(items, key, c)
    ensures var s' := LeaseFleet.Do(p, LeaseFleet.Do(p, s, LeaseFleet.Lookup(c.request, node, c.t0)), LeaseFleet.ReadClock(c.request, c.t1));
            && c.request in s'.requests && s'.requests[c.request] == LeaseFleet.Stamped(node, c.t1)
            && LeaseFleet.At(s', node).clock == c.t1 && LeaseFleet.At(s', node).lease == LeaseFleet.At(s, node).lease
            && s'.ops == s.ops && s'.hits == s.hits
  {
  }

  /** A call that misses is answered by Redis, refused by it, or fails before or after the script. */
  lemma MissIsAFleetRun(p: LeaseFleet.Policy, s: LeaseFleet.Sys, node: nat, items: map<Cache.Key, Cache.Item<bool>>,
                        key: Cache.Key, k: KeyState, c: Call)
    requires Shows(p, s, node, items, key, k) && Timely(s, node, c) && !Hit(items, key, c)
    ensures var s' := LeaseFleet.Continue(p, s, CallMoves(node, c));
            && Shows(p, s', node, ItemsAfter(p, items, key, k, c), key, KeyAfter(p, items, key, k, c))
            && s'.hits == s.hits && c.request !in s'.requests
  {
    var asked := LeaseFleet.Do(p, LeaseFleet.Do(p, s, LeaseFleet.Lookup(c.request, node, c.t0)), LeaseFleet.ReadClock(c.request, c.t1));
    CallUnfolds(p, s, node, c);
    MissIsStamped(p, s, node, items, key, k, c);
    if !c.reply.NotRun? {
      EvaluationShows(p, asked, node, k, c);
      var ran := LeaseFleet.Do(p, asked, LeaseFleet.Evaluate(c.request, c.server, c.member));
      if c.reply.Answered? {
        StoreShows(p, ran, node, c);
        LeaseIsCached(p, items, key, c.t2);
      } else {
        LostShows(p, ran, node, c);
      }
    }
  }

  /** How long an admission leaves the key cached: a tenth of the window, and a second at most; for good below ten nanoseconds. */
  lemma LeaseIsServed(p: LeaseFleet.Policy, items: map<Cache.Key, Cache.Item<bool>>, key: Cache.Key, k: KeyState, c: Call, t: int)
    requires Admitted(p, items, key, k, c) && c.t2 >= 0
    ensures Cache.FlatGet(ItemsAfter(p, items, key, k, c), key, t) == Some(true) <==>
              p.window < 10 || (t <= c.t2 + p.window / 10 && t <= c.t2 + 1_000_000_000)
  {
  }

  /** When the script admits, in the units of the configuration. */
  lemma AdmissionMeans(p: LeaseFleet.Policy, k: KeyState, t: int)
    requires t >= 0 && p.window >= 0
    ensures Admits(LeaseFleet.ScriptLimit(p), k, LeaseFleet.Millis(t)) <==>
              |set m | m in k.members && k.members[m] > t / 1_000_000 - p.window / 1_000_000| < p.requests
  {
    PruneIsRecent(k.members, t / 1_000_000 - p.window / 1_000_000);
  }

  /** Both, for a call that misses. */
  lemma AnswerMeans(p: LeaseFleet.Policy, items: map<Cache.Key, Cache.Item<bool>>, key: Cache.Key, k: KeyState, c: Call)
    ensures Admitted(p, items, key, k, c) && c.t2 >= 0 ==>
              forall t :: Cache.FlatGet(ItemsAfter(p, items, key, k, c), key, t) == Some(true) <==>
                            p.window < 10 || (t <= c.t2 + p.window / 10 && t <= c.t2 + 1_000_000_000)
    ensures c.t1 >= 0 && p.window >= 0 ==>
              (Admits(LeaseFleet.ScriptLimit(p), k, LeaseFleet.Millis(c.t1)) <==>
                 |set m | m in k.members && k.members[m] > c.t1 / 1_000_000 - p.window / 1_000_000| < p.requests)
  {
    if Admitted(p, items, key, k, c) && c.t2 >= 0 {
      forall t
        ensures Cache.FlatGet(ItemsAfter(p, items, key, k, c), key, t) == Some(true) <==>
                  p.window < 10 || (t <= c.t2 + p.window / 10 && t <= c.t2 + 1_000_000_000)
      {
        LeaseIsServed(p, items, key, k, c, t);
      }
    }
    if c.t1 >= 0 && p.window >= 0 {
      AdmissionMeans(p, k, c.t1);
    }
  }

  lemma LeaseIsCached(p: LeaseFleet.Policy, items: map<Cache.Key, Cache.Item<bool>>, key: Cache.Key, at: int)
    ensures var after := Cache.Flat(items, Cache.Timed(Cache.Set(key, true, LeaseFleet.LeaseTime(p)), at));
            key in after && after[key] == LeaseFleet.Lease(p, at)
  {
  }

  /** The call's request after evaluation: passed, or gone. */
  ghost predicate Evaluated(s: LeaseFleet.Sys, node: nat, c: Call) {
    c.request in s.requests ==> s.requests[c.request] == LeaseFleet.Passed(node, c.t1, c.member)
  }

  lemma EvaluationShows(p: LeaseFleet.Policy, s: LeaseFleet.Sys, node: nat, k: KeyState, c: Call)
    requires c.request in s.requests && s.requests[c.request] == LeaseFleet.Stamped(node, c.t1)
    requires LeaseFleet.RedisInTime(s, c.server) && c.member !in Members(s.ops) && After(LeaseFleet.ScriptLimit(p), s.ops) == k
    ensures var s' := LeaseFleet.Do(p, s, LeaseFleet.Evaluate(c.request, c.server, c.member));
            var l := LeaseFleet.ScriptLimit(p);
            && After(l, s'.ops) == Apply(l, k, Eval(c.server, LeaseFleet.Millis(c.t1), c.member))
            && LeaseFleet.At(s', node).lease == LeaseFleet.At(s, node).lease
            && LeaseFleet.At(s', node).clock == LeaseFleet.At(s, node).clock
            && Evaluated(s', node, c) && (c.request in s'.requests <==> Admits(l, k, LeaseFleet.Millis(c.t1)))
            && s'.hits == s.hits
  {
    var s' := LeaseFleet.DoEvaluate(p, s, c.request, c.server, c.member);
    assert LeaseFleet.Do(p, s, LeaseFleet.Evaluate(c.request, c.server, c.member)) == s';
    var eval := Eval(c.server, LeaseFleet.Millis(c.t1), c.member);
    assert s'.ops == s.ops + [eval];
    AfterOneMore(LeaseFleet.ScriptLimit(p), s.ops, eval);
  }

  lemma StoreShows(p: LeaseFleet.Policy, s: LeaseFleet.Sys, node: nat, c: Call)
    requires Evaluated(s, node, c) && LeaseFleet.At(s, node).clock <= c.t2
    ensures var s' := LeaseFleet.Do(p, s, LeaseFleet.StoreLease(c.request, c.t2));
            && LeaseFleet.At(s', node).lease
               == (if c.request in s.requests then Some(LeaseFleet.Lease(p, c.t2)) else LeaseFleet.At(s, node).lease)
            && s'.ops == s.ops && s'.hits == s.hits && c.request !in s'.requests
  {
  }

  lemma LostShows(p: LeaseFleet.Policy, s: LeaseFleet.Sys, node: nat, c: Call)
    requires Evaluated(s, node, c)
    ensures var s' := LeaseFleet.Do(p, s, LeaseFleet.ReplyLost(c.request));
            && LeaseFleet.At(s', node) == LeaseFleet.At(s, node)
            && s'.ops == s.ops && s'.hits == s.hits && c.request !in s'.requests
  {
  }

  /** The request, if it is under way, is the gateway's. */
  ghost predicate Mine(s: LeaseFleet.Sys, r: nat, node: nat) {
    r in s.requests ==> s.requests[r].node == node
  }

  /** A move of the gateway's own request leaves the leases of other gateways alone. */
  lemma OwnMoveKeepsOthers(p: LeaseFleet.Policy, s: LeaseFleet.Sys, m: LeaseFleet.Move, r: nat, node: nat, other: nat)
    requires Mine(s, r, node) && other != node
    requires m.Lookup? || m.ReadClock? || m.Evaluate? || m.EvaluateFails? || m.ReplyLost? || m.StoreLease?
    requires m.request == r && (m.Lookup? ==> m.node == node)
    ensures LeaseFleet.At(LeaseFleet.Do(p, s, m), other).lease == LeaseFleet.At(s, other).lease && Mine(LeaseFleet.Do(p, s, m), r, node)
  {
  }

  /** So does a whole call. */
  lemma CallKeepsOthers(p: LeaseFleet.Policy, s: LeaseFleet.Sys, node: nat, c: Call, other: nat)
    requires c.request !in s.requests && other != node
    ensures LeaseFleet.At(LeaseFleet.Continue(p, s, CallMoves(node, c)), other).lease == LeaseFleet.At(s, other).lease
  {
    CallUnfolds(p, s, node, c);
    var look, read := LeaseFleet.Lookup(c.request, node, c.t0), LeaseFleet.ReadClock(c.request, c.t1);
    var eval := LeaseFleet.Evaluate(c.request, c.server, c.member);
    OwnMoveKeepsOthers(p, s, look, c.request, node, other);
    var s1 := LeaseFleet.Do(p, s, look);
    OwnMoveKeepsOthers(p, s1, read, c.request, node, other);
    var s2 := LeaseFleet.Do(p, s1, read);
    OwnMoveKeepsOthers(p, s2, eval, c.request, node, other);
    var s3 := LeaseFleet.Do(p, s2, eval);
    match c.reply
    case Answered => OwnMoveKeepsOthers(p, s3, LeaseFleet.StoreLease(c.request, c.t2), c.request, node, other);
    case NotRun => OwnMoveKeepsOthers(p, s2, LeaseFleet.EvaluateFails(c.request), c.request, node, other);
    case Lost => OwnMoveKeepsOthers(p, s3, LeaseFleet.ReplyLost(c.request), c.request, node, other);
  }

  /** The leases of all gateways but one are as they were. */
  ghost predicate OthersKeepLeases(s: LeaseFleet.Sys, s': LeaseFleet.Sys, node: nat) {
    forall other :: other != node ==> LeaseFleet.At(s', other).lease == LeaseFleet.At(s, other).lease
  }

  lemma CallLeavesOthers(p: LeaseFleet.Policy, s: LeaseFleet.Sys, node: nat, c: Call)
    requires c.request !in s.requests
    ensures OthersKeepLeases(s, LeaseFleet.Continue(p, s, CallMoves(node, c)), node)
  {
    forall other | other != node
      ensures LeaseFleet.At(LeaseFleet.Continue(p, s, CallMoves(node, c)), other).lease == LeaseFleet.At(s, other).lease
    {
      CallKeepsOthers(p, s, node, c, other);
    }
  }

  /** An invalidation of the watched key is the fleet's move. */
  lemma InvalidationIsAFleetMove(p: LeaseFleet.Policy, s: LeaseFleet.Sys, node: nat, items: map<Cache.Key, Cache.Item<bool>>,
                                 key: Cache.Key, k: KeyState)
    requires Shows(p, s, node, items, key, k) && s.published
    ensures Shows(p, LeaseFleet.Do(p, s, LeaseFleet.Invalidate(node)), node, items - {key}, key, k)
  {
  }

  lemma InvalidationLeavesOthers(p: LeaseFleet.Policy, s: LeaseFleet.Sys, node: nat)
    ensures OthersKeepLeases(s, LeaseFleet.Do(p, s, LeaseFleet.Invalidate(node)), node)
  {
  }

  /** The moves of a sequence of calls on one gateway. */
  function AllMoves(node: nat, calls: seq<Call>): seq<LeaseFleet.Move> {
    if calls == [] then [] else AllMoves(node, calls[..|calls| - 1]) + CallMoves(node, calls[|calls| - 1])
  }

  /** Cached items and sorted set after a sequence of calls for one key, from the start. */
  function AfterCalls(p: LeaseFleet.Policy, key: Cache.Key, calls: seq<Call>): (map<Cache.Key, Cache.Item<bool>>, KeyState) {
    if calls == [] then (map[], ABSENT)
    else
      var before, c := AfterCalls(p, key, calls[..|calls| - 1]), calls[|calls| - 1];
      (ItemsAfter(p, before.0, key, before.1, c), KeyAfter(p, before.0, key, before.1, c))
  }

  function CountHits(p: LeaseFleet.Policy, key: Cache.Key, calls: seq<Call>): nat {
    if calls == [] then 0
    else
      var before, c := calls[..|calls| - 1], calls[|calls| - 1];
      CountHits(p, key, before) + if Hit(AfterCalls(p, key, before).0, key, c) then 1 else 0
  }

  ghost predicate AllTimely(p: LeaseFleet.Policy, node: nat, calls: seq<Call>) {
    calls == [] ||
    var before := calls[..|calls| - 1];
    AllTimely(p, node, before) && Timely(LeaseFleet.Execute(p, AllMoves(node, before)), node, calls[|calls| - 1])
  }

  /**
   Any sequence of calls is a run of the fleet: the run of their moves ends with the lease and
   the sorted set that the calls leave, and with as many cache grants as there were hits.
   */
  lemma {:induction false} CallsAreAFleetRun(p: LeaseFleet.Policy, node: nat, key: Cache.Key, calls: seq<Call>)
    requires AllTimely(p, node, calls)
    ensures var s := LeaseFleet.Execute(p, AllMoves(node, calls));
            && Shows(p, s, node, AfterCalls(p, key, calls).0, key, AfterCalls(p, key, calls).1)
            && |s.hits| == CountHits(p, key, calls)
  {
    if calls != [] {
      var before, c := calls[..|calls| - 1], calls[|calls| - 1];
      CallsAreAFleetRun(p, node, key, before);
      var s, made := LeaseFleet.Execute(p, AllMoves(node, before)), AfterCalls(p, key, before);
      CallIsAFleetRun(p, s, node, made.0, key, made.1, c);
      LeaseFleet.ContinueIsExecute(p, AllMoves(node, before), CallMoves(node, c));
    }
  }

  lemma FlatOneMore<V>(steps: seq<Cache.Timed<V>>, step: Cache.Timed<V>)
    ensures Cache.FlatAfter(steps + [step]) == Cache.Flat(Cache.FlatAfter(steps), step)
  {
    assert (steps + [step])[..|steps|] == steps;
  }

  // ---- The object ----------------------------------------------------------------------------------

  datatype Answer = Allowed | Refused | Error

  class TwoTierRateLimiter {
    const l1: Cache.ShardedCache<bool>
    const rdb: Redis
    var allowedCount: nat
    var rejectedCount: nat

    ghost const node: nat  // this gateway in the fleet

    ghost function Items(): map<Cache.Key, Cache.Item<bool>>
      reads l1
    {
      Cache.FlatAfter(l1.steps)
    }

    /** The fleet shows this gateway's lease and Redis's sorted set for the watched key. */
    ghost predicate Valid()
      reads this, l1, l1.shards, rdb
    {
      l1.Valid() && Shows(rdb.limit, rdb.fleet, node, Items(), rdb.watched, rdb.Lookup(rdb.watched))
    }

    constructor (l1: Cache.ShardedCache<bool>, rdb: Redis, ghost node: nat)
      requires l1.Valid() && Shows(rdb.limit, rdb.fleet, node, Cache.FlatAfter(l1.steps), rdb.watched, rdb.Lookup(rdb.watched))
      ensures Valid() && this.l1 == l1 && this.rdb == rdb && allowedCount == 0 && rejectedCount == 0 && this.node == node
    {
      this.l1, this.rdb := l1, rdb;
      allowedCount, rejectedCount := 0, 0;
      this.node := node;
    }

    /** The part of `Allow` behind a cache miss: Redis decides; an admission leaves a lease, a rejection an invalidation. */
    method AskRedis(key: Cache.Key, p: LeaseFleet.Policy, c: Call) returns (answer: Answer)
      requires l1.Valid() && !Hit(Items(), key, c)
      modifies this`allowedCount, this`rejectedCount, l1`steps, l1.shards, rdb`keys, rdb`invalidations
      ensures l1.Valid()
      ensures answer == if !c.reply.Answered? then Error
                        else if Admits(LeaseFleet.ScriptLimit(p), old(rdb.Lookup(key)), LeaseFleet.Millis(c.t1)) then Allowed else Refused
      ensures c.reply.NotRun? ==> rdb.keys == old(rdb.keys)
      ensures !c.reply.NotRun? ==> rdb.keys == old(rdb.keys)[key := KeyAfter(p, old(Items()), key, old(rdb.Lookup(key)), c)]
      ensures Items() == ItemsAfter(p, old(Items()), key, old(rdb.Lookup(key)), c)
      ensures answer == Allowed && !Hit(old(Items()), key, c) && c.t2 >= 0 ==>
                forall t :: Cache.FlatGet(Items(), key, t) == Some(true) <==>
                              p.window < 10 || (t <= c.t2 + p.window / 10 && t <= c.t2 + 1_000_000_000)
      ensures !Hit(old(Items()), key, c) && c.reply.Answered? && c.t1 >= 0 && p.window >= 0 ==>
                (answer == Allowed <==>
                   |set m | m in old(rdb.Lookup(key)).members
                            && old(rdb.Lookup(key)).members[m] > c.t1 / 1_000_000 - p.window / 1_000_000| < p.requests)
      ensures rdb.invalidations == old(rdb.invalidations) + if answer == Refused then [key] else []
      ensures allowedCount == old(allowedCount) + if answer == Allowed then 1 else 0
      ensures rejectedCount == old(rejectedCount) + if answer == Refused then 1 else 0
    {
      AnswerMeans(p, Items(), key, rdb.Lookup(key), c);
      var nowMs := LeaseFleet.Millis(c.t1);
      var windowMs := LeaseFleet.Millis(p.window);
      if c.reply.NotRun? {
        return Error;
      }
      var allowedVal := rdb.Eval(key, Limit(windowMs, p.requests), nowMs, c.member, c.server);
      if c.reply.Lost? {
        return Error;
      }
      if allowedVal == 1 {
        var l1TTL := LeaseFleet.Tenth(p.window);
        if l1TTL > SECOND {
          l1TTL := SECOND;
        }
        FlatOneMore(l1.steps, Cache.Timed(Cache.Set(key, true, l1TTL), c.t2));
        l1.Set(key, true, l1TTL, c.t2);
        allowedCount := allowedCount + 1;
        return Allowed;
      }
      rdb.invalidations := rdb.invalidations + [key];
      rejectedCount := rejectedCount + 1;
      return Refused;
    }

    /**
     A cached `true` is granted without asking Redis; otherwise the script decides, unless its
     call fails. Every call that is answered is counted once. A call for the watched key is
     its moves of the fleet, and calls for other keys do not touch the fleet.
     */
    method Allow(key: Cache.Key, p: LeaseFleet.Policy, c: Call) returns (answer: Answer)
      requires Valid() && (key == rdb.watched ==> p == rdb.limit && Timely(rdb.fleet, node, c))
      modifies this`allowedCount, this`rejectedCount, l1`steps, l1.shards, rdb
      ensures Valid() && OthersKeepLeases(old(rdb.fleet), rdb.fleet, node)
      ensures answer == if Hit(old(Items()), key, c) then Allowed
                        else if !c.reply.Answered? then Error
                        else if Admits(LeaseFleet.ScriptLimit(p), old(rdb.Lookup(key)), LeaseFleet.Millis(c.t1)) then Allowed
                        else Refused
      ensures Items() == ItemsAfter(p, old(Items()), key, old(rdb.Lookup(key)), c)
      ensures answer == Allowed && !Hit(old(Items()), key, c) && c.t2 >= 0 ==>
                forall t :: Cache.FlatGet(Items(), key, t) == Some(true) <==>
                              p.window < 10 || (t <= c.t2 + p.window / 10 && t <= c.t2 + 1_000_000_000)
      ensures !Hit(old(Items()), key, c) && c.reply.Answered? && c.t1 >= 0 && p.window >= 0 ==>
                (answer == Allowed <==>
                   |set m | m in old(rdb.Lookup(key)).members
                            && old(rdb.Lookup(key)).members[m] > c.t1 / 1_000_000 - p.window / 1_000_000| < p.requests)
      ensures rdb.keys == if Hit(old(Items()), key, c) || c.reply.NotRun? then old(rdb.keys)
                          else old(rdb.keys)[key := KeyAfter(p, old(Items()), key, old(rdb.Lookup(key)), c)]
      ensures rdb.invalidations == old(rdb.invalidations) + if answer == Refused then [key] else []
      ensures allowedCount == old(allowedCount) + if answer == Allowed then 1 else 0
      ensures rejectedCount == old(rejectedCount) + if answer == Refused then 1 else 0
      ensures rdb.fleet == if key == rdb.watched then LeaseFleet.Continue(rdb.limit, old(rdb.fleet), CallMoves(node, c)) else old(rdb.fleet)
    {
      if key == rdb.watched {
        CallIsAFleetRun(rdb.limit, rdb.fleet, node, Items(), rdb.watched, rdb.Lookup(rdb.watched), c);
        CallLeavesOthers(rdb.limit, rdb.fleet, node, c);
        rdb.fleet := LeaseFleet.Continue(rdb.limit, rdb.fleet, CallMoves(node, c));
      }
      answer := Decide(key, p, c);
    }

    /** What `Allow` does, whatever the fleet: the cache first, and Redis behind it. */
    method Decide(key: Cache.Key, p: LeaseFleet.Policy, c: Call) returns (answer: Answer)
      requires l1.Valid()
      modifies this`allowedCount, this`rejectedCount, l1`steps, l1.shards, rdb`keys, rdb`invalidations
      ensures l1.Valid()
      ensures answer == if Hit(old(Items()), key, c) then Allowed
                        else if !c.reply.Answered? then Error
                        else if Admits(LeaseFleet.ScriptLimit(p), old(rdb.Lookup(key)), LeaseFleet.Millis(c.t1)) then Allowed
                        else Refused
      ensures Items() == ItemsAfter(p, old(Items()), key, old(rdb.Lookup(key)), c)
      ensures answer == Allowed && !Hit(old(Items()), key, c) && c.t2 >= 0 ==>
                forall t :: Cache.FlatGet(Items(), key, t) == Some(true) <==>
                              p.window < 10 || (t <= c.t2 + p.window / 10 && t <= c.t2 + 1_000_000_000)
      ensures !Hit(old(Items()), key, c) && c.reply.Answered? && c.t1 >= 0 && p.window >= 0 ==>
                (answer == Allowed <==>
                   |set m | m in old(rdb.Lookup(key)).members
                            && old(rdb.Lookup(key)).members[m] > c.t1 / 1_000_000 - p.window / 1_000_000| < p.requests)
      ensures rdb.keys == if Hit(old(Items()), key, c) || c.reply.NotRun? then old(rdb.keys)
                          else old(rdb.keys)[key := KeyAfter(p, old(Items()), key, old(rdb.Lookup(key)), c)]
      ensures rdb.invalidations == old(rdb.invalidations) + if answer == Refused then [key] else []
      ensures allowedCount == old(allowedCount) + if answer == Allowed then 1 else 0
      ensures rejectedCount == old(rejectedCount) + if answer == Refused then 1 else 0
    {
      FlatOneMore(l1.steps, Cache.Timed(Cache.Get(key), c.t0));
      var val := l1.Get(key, c.t0);
      if val.Some? && val.value {
        allowedCount := allowedCount + 1;
        return Allowed;
      }
      answer := AskRedis(key, p, c);
    }

    /** The listener's reaction to an invalidation, which somebody has published. */
    method OnInvalidation(key: Cache.Key, ghost now: int)
      requires Valid() && (key == rdb.watched ==> rdb.fleet.published)
      modifies rdb`fleet, l1`steps, l1.shards
      ensures Valid() && Items() == old(Items()) - {key} && OthersKeepLeases(old(rdb.fleet), rdb.fleet, node)
      ensures rdb.fleet == if key == rdb.watched then LeaseFleet.Do(rdb.limit, old(rdb.fleet), LeaseFleet.Invalidate(node)) else old(rdb.fleet)
    {
      if key == rdb.watched {
        InvalidationIsAFleetMove(rdb.limit, rdb.fleet, node, Items(), rdb.watched, rdb.Lookup(rdb.watched));
        InvalidationLeavesOthers(rdb.limit, rdb.fleet, node);
        rdb.fleet := LeaseFleet.Do(rdb.limit, rdb.fleet, LeaseFleet.Invalidate(node));
      }
      FlatOneMore(l1.steps, Cache.Timed(Cache.Delete(key), now));
      l1.Delete(key, now);
    }
  }

  /** Any number of gateways on one Redis. */
  class Deployment {
    const rdb: Redis
    const gateways: seq<TwoTierRateLimiter>

    /** Each gateway is a node of its own, with a cache of its own. */
    ghost predicate Separate() {
      && (forall i :: 0 <= i < |gateways| ==> gateways[i].rdb == rdb && gateways[i].node == i)
      && (forall i, j :: 0 <= i < j < |gateways| ==>
            gateways[i] != gateways[j] && gateways[i].l1 != gateways[j].l1 && gateways[i].l1.shards != gateways[j].l1.shards)
    }

    ghost predicate Valid()
      reads rdb, gateways, set g <- gateways :: g.l1, set g <- gateways :: g.l1.shards
    {
      Separate() && forall i :: 0 <= i < |gateways| ==> gateways[i].Valid()
    }

    constructor (rdb: Redis, gateways: seq<TwoTierRateLimiter>)
      requires forall i :: 0 <= i < |gateways| ==> gateways[i].rdb == rdb && gateways[i].node == i && gateways[i].Valid()
      requires forall i, j :: 0 <= i < j < |gateways| ==>
                 gateways[i] != gateways[j] && gateways[i].l1 != gateways[j].l1 && gateways[i].l1.shards != gateways[j].l1.shards
      ensures Valid() && this.rdb == rdb && this.gateways == gateways
    {
      this.rdb, this.gateways := rdb, gateways;
    }

    /**
     A call on one of the gateways. All gateways stay in step with the fleet, so the calls of a
     deployment, on whichever gateways they are made, are one run of it.
     */
    method Allow(i: nat, key: Cache.Key, p: LeaseFleet.Policy, c: Call) returns (answer: Answer)
      requires Valid() && i < |gateways| && (key == rdb.watched ==> p == rdb.limit && Timely(rdb.fleet, i, c))
      modifies gateways[i], gateways[i].l1, gateways[i].l1.shards, rdb
      ensures Valid()
      ensures rdb.fleet == if key == rdb.watched then LeaseFleet.Continue(rdb.limit, old(rdb.fleet), CallMoves(i, c)) else old(rdb.fleet)
      ensures answer == if Hit(old(gateways[i].Items()), key, c) then Allowed
                        else if !c.reply.Answered? then Error
                        else if Admits(LeaseFleet.ScriptLimit(p), old(rdb.Lookup(key)), LeaseFleet.Millis(c.t1)) then Allowed
                        else Refused
    {
      answer := gateways[i].Allow(key, p, c);
      forall j | 0 <= j < |gateways| && j != i
        ensures gateways[j].Valid()
      {
        assert gateways[j].Items() == old(gateways[j].Items());
        assert LeaseFleet.At(rdb.fleet, j).lease == LeaseFleet.At(old(rdb.fleet), j).lease;
      }
    }

    /** An invalidation that reaches one of the gateways. */
    method OnInvalidation(i: nat, key: Cache.Key, ghost now: int)
      requires Valid() && i < |gateways| && (key == rdb.watched ==> rdb.fleet.published)
      modifies gateways[i].l1, gateways[i].l1.shards, rdb`fleet
      ensures Valid()
      ensures rdb.fleet == if key == rdb.watched then LeaseFleet.Do(rdb.limit, old(rdb.fleet), LeaseFleet.Invalidate(i)) else old(rdb.fleet)
    {
      gateways[i].OnInvalidation(key, now);
      forall j | 0 <= j < |gateways| && j != i
        ensures gateways[j].Valid()
      {
        assert gateways[j].Items() == old(gateways[j].Items());
        assert LeaseFleet.At(rdb.fleet, j).lease == LeaseFleet.At(old(rdb.fleet), j).lease;
      }
    }
  }
}
