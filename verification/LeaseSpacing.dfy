/**
 What leases save: how far apart a gateway's own admissions are, and how large a limit
 must be for the whole fleet never to be refused.
 */
module LeaseSpacing {
  import opened Prelude
  import opened SlidingWindow
  import opened LeaseFleet

  /** At most one call per gateway is under way at a time, and no admission's reply is lost. */
  ghost predicate Serial(s: Sys, m: Move) {
    && (m.Lookup? ==> forall r :: r in s.requests ==> s.requests[r].node != m.node)
    && !m.ReplyLost?
  }

  ghost predicate SerialRun(p: Policy, moves: seq<Move>) {
    forall i :: 0 <= i < |moves| ==> Serial(Execute(p, moves[..i]), moves[i])
  }

  // ---- Spacing on one gateway ------------------------------------------------------------

  /** Admissions of one gateway with no invalidation between them are more than `ttl` apart. */
  ghost predicate Separated(ttl: int, admissions: map<Member, Admission>) {
    forall a, b :: a in admissions && b in admissions && a != b
                   && admissions[a].node == admissions[b].node && admissions[a].epoch == admissions[b].epoch ==>
      || admissions[a].stamp > admissions[b].stamp + ttl
      || admissions[b].stamp > admissions[a].stamp + ttl
  }

  /** What a gateway knows of its own admissions. */
  ghost predicate Known(g: Gateway, a: Admission) {
    && a.stamp <= g.clock
    && a.epoch <= g.epoch
    && (a.epoch == g.epoch ==> g.newest.Some? && a.stamp <= g.newest.value)
  }

  ghost predicate AllKnown(s: Sys) {
    forall m :: m in s.admissions ==> Known(At(s, s.admissions[m].node), s.admissions[m])
  }

  ghost predicate OneCallPerNode(s: Sys) {
    forall q, r :: q in s.requests && r in s.requests && s.requests[q].node == s.requests[r].node ==> q == r
  }

  /** A call under way is past its gateway's newest lease, or is the one that will store it. */
  ghost predicate PastLease(ttl: int, g: Gateway, phase: Phase) {
    match phase
    case Missed(_, since) => since <= g.clock && (g.newest.Some? ==> since > g.newest.value + ttl)
    case Stamped(_, stamp) => stamp <= g.clock && (g.newest.Some? ==> stamp > g.newest.value + ttl)
    case Passed(_, stamp, _) => stamp <= g.clock && (g.newest.Some? ==> stamp >= g.newest.value)
  }

  ghost predicate CallsPastLeases(ttl: int, s: Sys) {
    forall r :: r in s.requests ==> PastLease(ttl, At(s, s.requests[r].node), s.requests[r])
  }

  ghost predicate Storing(s: Sys, node: Node) {
    exists r :: r in s.requests && s.requests[r].Passed? && s.requests[r].node == node
  }

  /** The cached lease outlasts the newest admission by `ttl`. */
  ghost predicate HoldsLease(ttl: int, g: Gateway) {
    g.newest.Some? ==>
      && g.lease.Some? && g.lease.value.value && g.lease.value.expiration > 0
      && g.lease.value.expiration >= g.newest.value + ttl
  }

  ghost predicate LeasesHeld(ttl: int, s: Sys) {
    forall n :: n in s.gateways && !Storing(s, n) ==> HoldsLease(ttl, s.gateways[n])
  }

  ghost predicate Spacing(ttl: int, s: Sys) {
    Separated(ttl, s.admissions) && AllKnown(s) && OneCallPerNode(s) && CallsPastLeases(ttl, s) && LeasesHeld(ttl, s)
  }

  /** A gateway that is about to store stays so while that request is left alone. */
  lemma StillStoring(s: Sys, s': Sys, node: Node)
    requires Storing(s, node)
    requires forall q :: q in s.requests && s.requests[q].Passed? && s.requests[q].node == node ==>
               q in s'.requests && s'.requests[q] == s.requests[q]
    ensures Storing(s', node)
  {
  }

  lemma LookupKeepsCalls(ttl: int, s: Sys, r: Request, node: Node, at: int)
    requires Spacing(ttl, s) && r !in s.requests && At(s, node).clock <= at
    requires forall q :: q in s.requests ==> s.requests[q].node != node
    ensures var s' := DoLookup(s, r, node, at); OneCallPerNode(s') && CallsPastLeases(ttl, s')
  {
    assert !Storing(s, node);
    assert HoldsLease(ttl, At(s, node));
  }

  lemma LookupKeepsLeases(ttl: int, s: Sys, r: Request, node: Node, at: int)
    requires LeasesHeld(ttl, s) && r !in s.requests
    ensures LeasesHeld(ttl, DoLookup(s, r, node, at))
  {
    var s' := DoLookup(s, r, node, at);
    forall n | Storing(s, n)
      ensures Storing(s', n)
    {
      StillStoring(s, s', n);
    }
    assert forall n :: n in s'.gateways ==> s'.gateways[n].newest == At(s, n).newest && s'.gateways[n].lease == At(s, n).lease;
  }

  lemma LookupKeepsSpacing(ttl: int, s: Sys, r: Request, node: Node, at: int)
    requires Spacing(ttl, s) && r !in s.requests && At(s, node).clock <= at
    requires forall q :: q in s.requests ==> s.requests[q].node != node
    ensures Spacing(ttl, DoLookup(s, r, node, at))
  {
    LookupKeepsCalls(ttl, s, r, node, at);
    LookupKeepsLeases(ttl, s, r, node, at);
  }

  lemma ReadKeepsSpacing(ttl: int, s: Sys, r: Request, at: int)
    requires Spacing(ttl, s) && r in s.requests && s.requests[r].Missed? && At(s, s.requests[r].node).clock <= at
    ensures Spacing(ttl, DoReadClock(s, r, at))
  {
    var s' := DoReadClock(s, r, at);
    forall n | Storing(s, n)
      ensures Storing(s', n)
    {
      StillStoring(s, s', n);
    }
  }

  /** A call that evaluates is more than a lease time after its gateway's other admissions of the epoch. */
  lemma EvaluateKeepsSeparation(p: Policy, ttl: int, s: Sys, r: Request, server: int, member: Member)
    requires Spacing(ttl, s) && r in s.requests && s.requests[r].Stamped? && member !in s.admissions
    ensures Separated(ttl, DoEvaluate(p, s, r, server, member).admissions)
  {
    assert PastLease(ttl, At(s, s.requests[r].node), s.requests[r]);
  }

  lemma EvaluateKeepsKnown(p: Policy, ttl: int, s: Sys, r: Request, server: int, member: Member)
    requires ttl > 0 && Spacing(ttl, s) && r in s.requests && s.requests[r].Stamped? && member !in s.admissions
    ensures AllKnown(DoEvaluate(p, s, r, server, member))
  {
    assert PastLease(ttl, At(s, s.requests[r].node), s.requests[r]);
  }

  lemma EvaluateKeepsCalls(p: Policy, ttl: int, s: Sys, r: Request, server: int, member: Member)
    requires Spacing(ttl, s) && r in s.requests && s.requests[r].Stamped?
    ensures var s' := DoEvaluate(p, s, r, server, member); OneCallPerNode(s') && CallsPastLeases(ttl, s')
  {
    assert PastLease(ttl, At(s, s.requests[r].node), s.requests[r]);
  }

  lemma EvaluateKeepsLeases(p: Policy, ttl: int, s: Sys, r: Request, server: int, member: Member)
    requires LeasesHeld(ttl, s) && r in s.requests && s.requests[r].Stamped?
    ensures LeasesHeld(ttl, DoEvaluate(p, s, r, server, member))
  {
    var s' := DoEvaluate(p, s, r, server, member);
    var node := s.requests[r].node;
    forall n | Storing(s, n)
      ensures Storing(s', n)
    {
      StillStoring(s, s', n);
    }
    if r in s'.requests {
      assert s'.requests[r].Passed? && s'.requests[r].node == node;
      assert Storing(s', node);
    }
  }

  lemma EvaluateKeepsSpacing(p: Policy, ttl: int, s: Sys, r: Request, server: int, member: Member)
    requires ttl > 0 && Spacing(ttl, s) && r in s.requests && s.requests[r].Stamped? && member !in s.admissions
    ensures Spacing(ttl, DoEvaluate(p, s, r, server, member))
  {
    EvaluateKeepsSeparation(p, ttl, s, r, server, member);
    EvaluateKeepsKnown(p, ttl, s, r, server, member);
    EvaluateKeepsCalls(p, ttl, s, r, server, member);
    EvaluateKeepsLeases(p, ttl, s, r, server, member);
  }

  lemma StoreKeepsSpacing(p: Policy, s: Sys, r: Request, at: int)
    requires p.window >= 10 && Spacing(LeaseTime(p), s)
    requires r in s.requests && s.requests[r].Passed? && At(s, s.requests[r].node).clock <= at && at >= 0
    ensures Spacing(LeaseTime(p), DoStore(p, s, r, at))
  {
    var s' := DoStore(p, s, r, at);
    var node := s.requests[r].node;
    assert PastLease(LeaseTime(p), At(s, node), s.requests[r]);
    forall n | n != node && Storing(s, n)
      ensures Storing(s', n)
    {
      StillStoring(s, s', n);
    }
  }

  lemma FailureKeepsSpacing(ttl: int, s: Sys, r: Request)
    requires Spacing(ttl, s) && r in s.requests && s.requests[r].Stamped?
    ensures Spacing(ttl, s.(requests := s.requests - {r}))
  {
    var s' := s.(requests := s.requests - {r});
    forall n | Storing(s, n)
      ensures Storing(s', n)
    {
      StillStoring(s, s', n);
    }
  }

  lemma InvalidationKeepsSpacing(ttl: int, s: Sys, node: Node)
    requires Spacing(ttl, s)
    ensures Spacing(ttl, DoInvalidate(s, node))
  {
    var s' := DoInvalidate(s, node);
    assert forall n :: Storing(s', n) <==> Storing(s, n);
  }

  lemma ExpiryKeepsSpacing(ttl: int, s: Sys, server: int)
    requires Spacing(ttl, s)
    ensures Spacing(ttl, s.(ops := s.ops + [Expire(server)]))
  {
    var s' := s.(ops := s.ops + [Expire(server)]);
    assert forall n :: Storing(s', n) <==> Storing(s, n);
  }

  lemma MoveKeepsClocks(p: Policy, s: Sys, m: Move)
    requires ClocksStarted(s)
    ensures ClocksStarted(Do(p, s, m))
  {
  }

  ghost predicate ClocksStarted(s: Sys) {
    forall n :: n in s.gateways ==> s.gateways[n].clock >= 0
  }

  lemma MoveKeepsSpacing(p: Policy, s: Sys, m: Move)
    requires p.window >= 10 && Spacing(LeaseTime(p), s) && AdmissionsLogged(p, s) && ClocksStarted(s) && Serial(s, m)
    ensures Spacing(LeaseTime(p), Do(p, s, m))
  {
    var ttl := LeaseTime(p);
    if Can(p, s, m) {
      match m
      case Lookup(r, node, at) => LookupKeepsSpacing(ttl, s, r, node, at);
      case ReadClock(r, at) => ReadKeepsSpacing(ttl, s, r, at);
      case Evaluate(r, server, member) =>
        LogMembers(ScriptLimit(p), s.ops);
        assert member !in s.admissions.Keys;
        EvaluateKeepsSpacing(p, ttl, s, r, server, member);
      case EvaluateFails(r) => FailureKeepsSpacing(ttl, s, r);
      case StoreLease(r, at) => StoreKeepsSpacing(p, s, r, at);
      case Invalidate(node) => InvalidationKeepsSpacing(ttl, s, node);
      case KeyExpires(server) => ExpiryKeepsSpacing(ttl, s, server);
    }
  }

  lemma SerialPrefix(p: Policy, moves: seq<Move>, n: nat)
    requires SerialRun(p, moves) && n <= |moves|
    ensures SerialRun(p, moves[..n])
  {
    forall i | 0 <= i < n
      ensures Serial(Execute(p, moves[..n][..i]), moves[..n][i])
    {
      assert moves[..n][..i] == moves[..i];
    }
  }

  lemma {:induction false} ReachableSpacing(p: Policy, moves: seq<Move>)
    requires p.window >= 10 && SerialRun(p, moves)
    ensures Spacing(LeaseTime(p), Execute(p, moves)) && ClocksStarted(Execute(p, moves))
  {
    if moves != [] {
      var n := |moves| - 1;
      SerialPrefix(p, moves, n);
      ReachableSpacing(p, moves[..n]);
      ReachableAdmissions(p, moves[..n]);
      assert Serial(Execute(p, moves[..n]), moves[n]);
      MoveKeepsSpacing(p, Execute(p, moves[..n]), moves[n]);
      MoveKeepsClocks(p, Execute(p, moves[..n]), moves[n]);
    }
  }

  /**
   With calls serialised per gateway, two admissions of one gateway that have no
   invalidation delivered to it between them were stamped more than a lease time apart.
   */
  lemma LeaseSpacing(p: Policy, moves: seq<Move>, a: Member, b: Member)
    requires p.window >= 10 && SerialRun(p, moves) && a != b
    requires var adm := Execute(p, moves).admissions;
             a in adm && b in adm && adm[a].node == adm[b].node && adm[a].epoch == adm[b].epoch
    ensures var adm := Execute(p, moves).admissions;
            var ttl := if p.window / 10 > 1_000_000_000 then 1_000_000_000 else p.window / 10;
            adm[a].stamp > adm[b].stamp + ttl || adm[b].stamp > adm[a].stamp + ttl
  {
    ReachableSpacing(p, moves);
  }

  // ---- Counting spaced admissions -----------------------------------------------------------

  /** How many points more than `gap` apart fit in a half-open interval of length `length`. */
  function Fits(length: int, gap: int): nat
    requires length > 0 && gap > 0
  {
    (length + gap - 1) / gap
  }

  lemma FitsCovers(length: int, gap: int)
    requires length > 0 && gap > 0
    ensures length <= Fits(length, gap) * gap && Fits(length, gap) >= 1
  {
    var q, r := (length + gap - 1) / gap, (length + gap - 1) % gap;
    assert q * gap + r == length + gap - 1;
  }

  /** The members' stamps are pairwise more than `gap` apart. */
  ghost predicate Apart(gap: int, adm: map<Member, Admission>, ms: set<Member>) {
    && ms <= adm.Keys
    && forall a, b :: a in ms && b in ms && a != b ==> adm[a].stamp > adm[b].stamp + gap || adm[b].stamp > adm[a].stamp + gap
  }

  lemma {:induction false} Latest(adm: map<Member, Admission>, ms: set<Member>) returns (last: Member)
    requires ms <= adm.Keys && ms != {}
    ensures last in ms && forall m :: m in ms ==> adm[m].stamp <= adm[last].stamp
    decreases |ms|
  {
    var first :| first in ms;
    var rest := ms - {first};
    last := first;
    if rest != {} {
      var other := Latest(adm, rest);
      if adm[other].stamp > adm[first].stamp {
        last := other;
      }
    }
    assert forall m :: m in ms ==> m == first || m in rest;
  }

  lemma {:induction false} SpacedSetFits(gap: int, adm: map<Member, Admission>, ms: set<Member>, lo: int, hi: int)
    requires gap > 0 && Apart(gap, adm, ms) && ms != {}
    requires forall m :: m in ms ==> lo < adm[m].stamp <= hi
    ensures (|ms| - 1) * gap < hi - lo
    decreases |ms|
  {
    var last := Latest(adm, ms);
    var rest := ms - {last};
    assert |ms| == |rest| + 1;
    if rest != {} {
      assert Apart(gap, adm, rest);
      SpacedSetFits(gap, adm, rest, lo, adm[last].stamp - gap - 1);
      OneMoreGap(|rest| - 1, gap);
    } else {
      assert |ms| - 1 == 0;
    }
  }

  lemma OneMoreGap(n: int, gap: int)
    ensures (n + 1) * gap == n * gap + gap
  {
  }

  lemma FewerThan(n: nat, gap: int, length: int, c: nat)
    requires gap > 0 && n * gap < length && length <= c * gap
    ensures n < c
  {
  }

  /** One gateway's share of an interval no longer than `c` gaps: at most `c` admissions. */
  lemma SpacedSetSize(gap: int, adm: map<Member, Admission>, ms: set<Member>, lo: int, hi: int, c: nat)
    requires gap > 0 && lo < hi && hi - lo <= c * gap && Apart(gap, adm, ms)
    requires forall m :: m in ms ==> lo < adm[m].stamp <= hi
    ensures |ms| <= c
  {
    if ms != {} {
      SpacedSetFits(gap, adm, ms, lo, hi);
      FewerThan(|ms| - 1, gap, hi - lo, c);
    }
  }

  /** One fewer when all of them are more than `gap` before some point of the interval. */
  lemma SpacedSetBefore(gap: int, adm: map<Member, Admission>, ms: set<Member>, lo: int, point: int, hi: int, c: nat)
    requires gap > 0 && lo < point <= hi && hi - lo <= c * gap && Apart(gap, adm, ms)
    requires forall m :: m in ms ==> lo < adm[m].stamp && adm[m].stamp + gap < point
    ensures |ms| < c
  {
    if ms != {} {
      SpacedSetFits(gap, adm, ms, lo, point - gap - 1);
      assert |ms| * gap == (|ms| - 1) * gap + gap;
      FewerThan(|ms|, gap, hi - lo, c);
    } else {
      FewerThan(0, gap, hi - lo, c);
    }
  }

  ghost function OfNode(adm: map<Member, Admission>, ms: set<Member>, node: Node): set<Member>
    requires ms <= adm.Keys
  {
    set m | m in ms && adm[m].node == node
  }

  /** Summing shares of at most `c` over the gateways, one of which has fewer. */
  lemma {:induction false} SharesAddUp(adm: map<Member, Admission>, ms: set<Member>, nodes: nat, c: nat, special: Node)
    requires ms <= adm.Keys && forall m :: m in ms ==> adm[m].node < nodes
    requires forall n: Node :: n < nodes ==> |OfNode(adm, ms, n)| <= c
    requires special < nodes ==> |OfNode(adm, ms, special)| < c
    ensures special < nodes ==> |ms| < nodes * c
    ensures |ms| <= nodes * c
    decreases nodes
  {
    if nodes == 0 {
      assert ms == {};
    } else {
      var top := OfNode(adm, ms, nodes - 1);
      var rest := ms - top;
      forall n: Node | n < nodes - 1
        ensures OfNode(adm, rest, n) == OfNode(adm, ms, n)
      {
      }
      SharesAddUp(adm, rest, nodes - 1, c, special);
      assert ms == rest + top;
      assert |ms| == |rest| + |top|;
      assert nodes * c == (nodes - 1) * c + c;
    }
  }

  // ---- A limit that is never reached -----------------------------------------------------------

  /**
   All gateways read one clock, and a script runs before that clock has moved more than
   `delay` past the reading it is given.
   */
  ghost predicate InSync(nodes: nat, delay: nat, s: Sys, m: Move) {
    && (m.Lookup? ==> m.node < nodes)
    && (m.Lookup? || m.ReadClock? || m.StoreLease? ==> forall n :: n in s.gateways ==> s.gateways[n].clock <= m.at)
    && (m.Evaluate? && m.request in s.requests && s.requests[m.request].Stamped? ==>
          forall n :: n in s.gateways ==> s.gateways[n].clock <= s.requests[m.request].stamp + delay)
  }

  ghost predicate SyncedRun(p: Policy, nodes: nat, delay: nat, moves: seq<Move>) {
    forall i :: 0 <= i < |moves| ==> InSync(nodes, delay, Execute(p, moves[..i]), moves[i])
  }

  ghost predicate Untroubled(nodes: nat, s: Sys) {
    && !s.published && s.rejections == 0
    && (forall n :: n in s.gateways ==> s.gateways[n].epoch == 0)
    && (forall n :: n in s.gateways ==> s.gateways[n].clock >= 0)
    && (forall m :: m in s.admissions ==>
          s.admissions[m].node < nodes && s.admissions[m].epoch == 0 && s.admissions[m].stamp >= 0)
    && (forall r :: r in s.requests ==>
          && s.requests[r].node < nodes
          && (s.requests[r].Stamped? ==> s.requests[r].stamp >= 0))
  }

  /** What the sorted set holds was admitted with that score. */
  lemma {:induction false} SetWithinLog(l: Limit, ops: seq<Op>)
    ensures forall m :: m in After(l, ops).members ==> m in Log(l, ops) && Log(l, ops)[m].now == After(l, ops).members[m]
  {
    if ops != [] {
      SetWithinLog(l, ops[..|ops| - 1]);
    }
  }

  /** A member kept in the window, in milliseconds, was stamped less than the window ago, in nanoseconds. */
  lemma KeptIsRecent(window: int, stamp: int, now: int)
    requires window >= 0 && stamp >= 0 && now >= 0
    requires Millis(stamp) > Millis(now) - Millis(window)
    ensures stamp > now - window
  {
  }

  /** The members that pruning keeps at a call's stamp. */
  ghost function KeptAt(p: Policy, s: Sys, stamp: int): set<Member> {
    Prune(After(ScriptLimit(p), s.ops).members, Millis(stamp) - ScriptLimit(p).window).Keys
  }

  lemma KeptAreRecentAdmissions(p: Policy, s: Sys, stamp: int)
    requires p.window >= 10 && stamp >= 0 && AdmissionsLogged(p, s)
    requires forall m :: m in s.admissions ==> s.admissions[m].stamp >= 0
    ensures KeptAt(p, s, stamp) <= s.admissions.Keys
    ensures forall m :: m in KeptAt(p, s, stamp) ==> s.admissions[m].stamp > stamp - p.window
  {
    SetWithinLog(ScriptLimit(p), s.ops);
    forall m | m in KeptAt(p, s, stamp)
      ensures m in s.admissions && s.admissions[m].stamp > stamp - p.window
    {
      assert m in Log(ScriptLimit(p), s.ops).Keys;
      KeptIsRecent(p.window, s.admissions[m].stamp, stamp);
    }
  }

  /** A call's stamp when every clock is at most `delay` past it. */
  ghost predicate NearNow(delay: nat, s: Sys, stamp: int) {
    stamp >= 0 && forall n :: n in s.gateways ==> s.gateways[n].clock <= stamp + delay
  }

  /** The limit covers `c` admissions per gateway, and `c` lease times cover the window and the delay. */
  ghost predicate Roomy(p: Policy, ttl: int, nodes: nat, delay: nat, c: nat) {
    ttl > 0 && p.window + delay <= c * ttl && nodes * c <= p.requests
  }

  lemma ShareOfNode(p: Policy, ttl: int, nodes: nat, delay: nat, c: nat, s: Sys, stamp: int, n: Node)
    requires p.window >= 10 && Spacing(ttl, s) && Untroubled(nodes, s) && NearNow(delay, s, stamp)
    requires Roomy(p, ttl, nodes, delay, c)
    requires KeptAt(p, s, stamp) <= s.admissions.Keys
    requires forall m :: m in KeptAt(p, s, stamp) ==> s.admissions[m].stamp > stamp - p.window
    ensures |OfNode(s.admissions, KeptAt(p, s, stamp), n)| <= c
  {
    var share := OfNode(s.admissions, KeptAt(p, s, stamp), n);
    forall m | m in share
      ensures stamp - p.window < s.admissions[m].stamp <= stamp + delay
    {
      assert Known(At(s, n), s.admissions[m]);
    }
    assert Apart(ttl, s.admissions, share);
    SpacedSetSize(ttl, s.admissions, share, stamp - p.window, stamp + delay, c);
  }

  lemma ShareOfCaller(p: Policy, ttl: int, nodes: nat, delay: nat, c: nat, s: Sys, r: Request)
    requires p.window >= 10 && Spacing(ttl, s) && Untroubled(nodes, s)
    requires Roomy(p, ttl, nodes, delay, c)
    requires r in s.requests && s.requests[r].Stamped? && NearNow(delay, s, s.requests[r].stamp)
    requires KeptAt(p, s, s.requests[r].stamp) <= s.admissions.Keys
    requires forall m :: m in KeptAt(p, s, s.requests[r].stamp) ==> s.admissions[m].stamp > s.requests[r].stamp - p.window
    ensures |OfNode(s.admissions, KeptAt(p, s, s.requests[r].stamp), s.requests[r].node)| < c
  {
    var node, stamp := s.requests[r].node, s.requests[r].stamp;
    var share := OfNode(s.admissions, KeptAt(p, s, stamp), node);
    assert PastLease(ttl, At(s, node), s.requests[r]);
    forall m | m in share
      ensures stamp - p.window < s.admissions[m].stamp && s.admissions[m].stamp + ttl < stamp
    {
      assert Known(At(s, node), s.admissions[m]);
    }
    assert Apart(ttl, s.admissions, share);
    SpacedSetBefore(ttl, s.admissions, share, stamp - p.window, stamp, stamp + delay, c);
  }

  lemma FewKept(p: Policy, ttl: int, nodes: nat, delay: nat, c: nat, s: Sys, r: Request)
    requires p.window >= 10 && Spacing(ttl, s) && AdmissionsLogged(p, s) && Untroubled(nodes, s)
    requires r in s.requests && s.requests[r].Stamped? && NearNow(delay, s, s.requests[r].stamp)
    requires Roomy(p, ttl, nodes, delay, c)
    ensures |KeptAt(p, s, s.requests[r].stamp)| < nodes * c
  {
    var stamp := s.requests[r].stamp;
    var kept := KeptAt(p, s, stamp);
    KeptAreRecentAdmissions(p, s, stamp);
    ShareOfCaller(p, ttl, nodes, delay, c, s, r);
    forall n: Node | n < nodes
      ensures |OfNode(s.admissions, kept, n)| <= c
    {
      ShareOfNode(p, ttl, nodes, delay, c, s, stamp, n);
    }
    SharesAddUp(s.admissions, kept, nodes, c, s.requests[r].node);
  }

  lemma EvaluationAdmits(p: Policy, ttl: int, nodes: nat, delay: nat, c: nat, s: Sys, r: Request)
    requires p.window >= 10 && Spacing(ttl, s) && AdmissionsLogged(p, s) && Untroubled(nodes, s)
    requires r in s.requests && s.requests[r].Stamped? && NearNow(delay, s, s.requests[r].stamp)
    requires Roomy(p, ttl, nodes, delay, c)
    ensures Admits(ScriptLimit(p), After(ScriptLimit(p), s.ops), Millis(s.requests[r].stamp))
  {
    FewKept(p, ttl, nodes, delay, c, s, r);
    KeptSize(p, s, s.requests[r].stamp);
  }

  /** The script admits when fewer members are kept than the limit. */
  lemma KeptSize(p: Policy, s: Sys, stamp: int)
    ensures Admits(ScriptLimit(p), After(ScriptLimit(p), s.ops), Millis(stamp)) <==> |KeptAt(p, s, stamp)| < p.requests
  {
    var members := Prune(After(ScriptLimit(p), s.ops).members, Millis(stamp) - ScriptLimit(p).window);
    assert |members| == |members.Keys|;
  }

  lemma EvaluateStaysUntroubled(p: Policy, nodes: nat, s: Sys, r: Request, server: int, member: Member)
    requires Untroubled(nodes, s) && r in s.requests && s.requests[r].Stamped?
    requires Admits(ScriptLimit(p), After(ScriptLimit(p), s.ops), Millis(s.requests[r].stamp))
    ensures Untroubled(nodes, DoEvaluate(p, s, r, server, member))
  {
  }

  lemma MoveStaysUntroubled(p: Policy, ttl: int, nodes: nat, delay: nat, c: nat, s: Sys, m: Move)
    requires p.window >= 10 && Spacing(ttl, s) && AdmissionsLogged(p, s) && Untroubled(nodes, s)
    requires Roomy(p, ttl, nodes, delay, c) && InSync(nodes, delay, s, m)
    ensures Untroubled(nodes, Do(p, s, m))
  {
    if m.Evaluate? {
      if Can(p, s, m) {
        EvaluationAdmits(p, ttl, nodes, delay, c, s, m.request);
        EvaluateStaysUntroubled(p, nodes, s, m.request, m.server, m.member);
      }
    } else {
      OthersStayUntroubled(p, nodes, delay, s, m);
    }
  }

  lemma OthersStayUntroubled(p: Policy, nodes: nat, delay: nat, s: Sys, m: Move)
    requires Untroubled(nodes, s) && InSync(nodes, delay, s, m) && !m.Evaluate?
    ensures Untroubled(nodes, Do(p, s, m))
  {
  }

  lemma {:induction false} ReachableUntroubled(p: Policy, nodes: nat, delay: nat, c: nat, moves: seq<Move>)
    requires p.window >= 10 && SerialRun(p, moves) && SyncedRun(p, nodes, delay, moves)
    requires Roomy(p, LeaseTime(p), nodes, delay, c)
    ensures Untroubled(nodes, Execute(p, moves))
  {
    if moves != [] {
      var n := |moves| - 1;
      SerialPrefix(p, moves, n);
      assert SyncedRun(p, nodes, delay, moves[..n]) by {
        forall i | 0 <= i < n
          ensures InSync(nodes, delay, Execute(p, moves[..n][..i]), moves[..n][i])
        {
          assert moves[..n][..i] == moves[..i];
        }
      }
      ReachableUntroubled(p, nodes, delay, c, moves[..n]);
      ReachableSpacing(p, moves[..n]);
      ReachableAdmissions(p, moves[..n]);
      assert InSync(nodes, delay, Execute(p, moves[..n]), moves[n]);
      MoveStaysUntroubled(p, LeaseTime(p), nodes, delay, c, Execute(p, moves[..n]), moves[n]);
    }
  }

  /**
   A fleet of `nodes` gateways on one clock, with calls serialised per gateway and scripts
   run within `delay` of their reading, is never refused when the limit is at least
   `nodes * ceil((window + delay) / ttl)`, `ttl` being the lease time; nothing is ever invalidated either.
   */
  lemma {:induction false} AmpleLimitNeverRejects(p: Policy, nodes: nat, delay: nat, moves: seq<Move>)
    requires p.window >= 10 && SerialRun(p, moves) && SyncedRun(p, nodes, delay, moves)
    requires var ttl := if p.window / 10 > 1_000_000_000 then 1_000_000_000 else p.window / 10;
             p.requests >= nodes * ((p.window + delay + ttl - 1) / ttl)
    ensures Execute(p, moves).rejections == 0 && !Execute(p, moves).published
  {
    var c := Fits(p.window + delay, LeaseTime(p));
    FitsCovers(p.window + delay, LeaseTime(p));
    ReachableUntroubled(p, nodes, delay, c, moves);
  }
}
