/**
 Why the limit that a fleet never exhausts (`LeaseSpacing.AmpleLimitNeverRejects`) needs its
 two conditions on calls. One gateway, with everything at one instant, exhausts any limit at
 all when its calls overlap, and also when they do not but replies are lost.
 */
module Crowding {
  import opened Prelude
  import opened SlidingWindow
  import opened LeaseFleet
  import opened LeaseLimits
  import opened LeaseSpacing

  // ---- The sorted set fills up -------------------------------------------------------------------

  /** Members 0 to `j - 1`, all with score 0. */
  function Zeros(j: nat): map<Member, int> {
    if j == 0 then map[] else Zeros(j - 1)[j - 1 := 0]
  }

  lemma {:induction false} ZerosAre(j: nat)
    ensures Zeros(j).Keys == Below(j) && forall m :: m in Zeros(j) ==> Zeros(j)[m] == 0
  {
    if j > 0 {
      ZerosAre(j - 1);
      assert Zeros(j).Keys == Zeros(j - 1).Keys + {j - 1};
    }
  }

  lemma ZerosSize(j: nat)
    ensures |Zeros(j)| == j
  {
    ZerosAre(j);
    BelowAre(j);
    assert |Zeros(j)| == |Zeros(j).Keys|;
  }

  /** Redis has admitted members 0 to `j - 1` at time 0 and nothing else has happened. */
  ghost predicate Filled(l: Limit, ops: seq<Op>, j: nat) {
    After(l, ops).members == Zeros(j) && Members(ops) == Below(j) && (ops != [] ==> ops[|ops| - 1].server == 0)
  }

  lemma PruneZeros(l: Limit, k: KeyState, j: nat)
    requires k.members == Zeros(j) && l.window >= 1
    ensures Prune(k.members, 0 - l.window) == Zeros(j)
    ensures Admits(l, k, 0) <==> j < l.requests
    ensures j < l.requests ==> Apply(l, k, Eval(0, 0, j)).members == Zeros(j + 1)
  {
    ZerosAre(j);
    ZerosSize(j);
    assert Prune(k.members, 0 - l.window) == Zeros(j);
  }

  lemma FilledKeeps(l: Limit, ops: seq<Op>, j: nat)
    requires Filled(l, ops, j) && l.window >= 1
    ensures Admits(l, After(l, ops), 0) <==> j < l.requests
    ensures j !in Members(ops)
  {
    PruneZeros(l, After(l, ops), j);
    BelowAre(j);
  }

  lemma FilledOneMore(l: Limit, ops: seq<Op>, j: nat)
    requires Filled(l, ops, j) && l.window >= 1 && j < l.requests
    ensures Filled(l, ops + [Eval(0, 0, j)], j + 1)
  {
    PruneZeros(l, After(l, ops), j);
    AfterOneMore(l, ops, Eval(0, 0, j));
    MembersGrow(ops, Eval(0, 0, j));
  }

  /** What an evaluation by call `j`, whose stamp is 0, makes of the fleet. */
  lemma EvaluationAt(p: Policy, s: Sys, j: nat)
    requires j in s.requests && s.requests[j] == Stamped(0, 0)
    requires Filled(ScriptLimit(p), s.ops, j) && ScriptLimit(p).window >= 1
    ensures var s' := Do(p, s, Evaluate(j, 0, j));
            if j < p.requests then
              && s'.requests == s.requests[j := Passed(0, 0, j)] && s'.ops == s.ops + [Eval(0, 0, j)] && s'.rejections == s.rejections
              && At(s', 0).lease == At(s, 0).lease && At(s', 0).clock == At(s, 0).clock
            else
              s'.rejections == s.rejections + 1
  {
    FilledKeeps(ScriptLimit(p), s.ops, j);
    assert Do(p, s, Evaluate(j, 0, j)) == DoEvaluate(p, s, j, 0, j);
  }

  // ---- Everything at one instant, on one gateway ---------------------------------------------------

  predicate AtZero(m: Move) {
    match m
    case Lookup(_, node, at) => node == 0 && at == 0
    case ReadClock(_, at) => at == 0
    case StoreLease(_, at) => at == 0
    case _ => true
  }

  ghost predicate StillZero(s: Sys) {
    && (forall n :: n in s.gateways ==> s.gateways[n].clock == 0)
    && (forall r :: r in s.requests && s.requests[r].Stamped? ==> s.requests[r].stamp == 0)
  }

  lemma MoveStaysAtZero(p: Policy, s: Sys, m: Move)
    requires StillZero(s) && AtZero(m)
    ensures StillZero(Do(p, s, m))
  {
  }

  lemma {:induction false} ZeroRun(p: Policy, moves: seq<Move>)
    requires forall m <- moves :: AtZero(m)
    ensures StillZero(Execute(p, moves))
  {
    if moves != [] {
      assert moves[|moves| - 1] in moves;
      ZeroRun(p, moves[..|moves| - 1]);
      MoveStaysAtZero(p, Execute(p, moves[..|moves| - 1]), moves[|moves| - 1]);
    }
  }

  /** Such a run has one gateway, one clock and no delay. */
  lemma ZeroIsSynced(p: Policy, moves: seq<Move>)
    requires forall m <- moves :: AtZero(m)
    ensures SyncedRun(p, 1, 0, moves)
  {
    forall i | 0 <= i < |moves|
      ensures InSync(1, 0, Execute(p, moves[..i]), moves[i])
    {
      assert moves[i] in moves;
      assert forall m <- moves[..i] :: m in moves;
      ZeroRun(p, moves[..i]);
    }
  }

  // ---- One call after the other, all replies lost -----------------------------------------------------

  /** `n` calls one after the other, each admitted, and each reply lost. */
  function Lossy(n: nat): seq<Move> {
    if n == 0 then []
    else Lossy(n - 1) + [Lookup(n - 1, 0, 0)] + [ReadClock(n - 1, 0)] + [Evaluate(n - 1, 0, n - 1)] + [ReplyLost(n - 1)]
  }

  /** No call is under way, no lease is held, and Redis has admitted `j` members. */
  ghost predicate Idle(p: Policy, s: Sys, j: nat) {
    && s.requests == map[] && s.rejections == 0 && At(s, 0).lease.None? && At(s, 0).clock == 0
    && Filled(ScriptLimit(p), s.ops, j)
  }

  /** A call that misses and reads the clock. */
  lemma CallReads(p: Policy, s: Sys, j: nat)
    requires Idle(p, s, j)
    ensures var s' := Do(p, Do(p, s, Lookup(j, 0, 0)), ReadClock(j, 0));
            && s'.requests == map[j := Stamped(0, 0)] && s'.ops == s.ops && s'.rejections == 0
            && At(s', 0).lease.None? && At(s', 0).clock == 0
  {
    var s1 := Do(p, s, Lookup(j, 0, 0));
    assert s1 == DoLookup(s, j, 0, 0);
    assert s1.requests == map[j := Missed(0, 0)];
  }

  lemma CallIsLost(p: Policy, s: Sys, j: nat)
    requires s.requests == map[j := Stamped(0, 0)] && s.rejections == 0 && At(s, 0).lease.None? && At(s, 0).clock == 0
    requires Filled(ScriptLimit(p), s.ops, j) && ScriptLimit(p).window >= 1 && j < p.requests
    ensures Idle(p, Do(p, Do(p, s, Evaluate(j, 0, j)), ReplyLost(j)), j + 1)
  {
    var s1 := Do(p, s, Evaluate(j, 0, j));
    EvaluationAt(p, s, j);
    assert s1.requests == map[j := Passed(0, 0, j)];
    assert Filled(ScriptLimit(p), s1.ops, j + 1) by {
      FilledOneMore(ScriptLimit(p), s.ops, j);
    }
    LosingLeavesIdle(p, s1, j);
  }

  lemma LosingLeavesIdle(p: Policy, s: Sys, j: nat)
    requires s.requests == map[j := Passed(0, 0, j)] && s.rejections == 0 && At(s, 0).lease.None? && At(s, 0).clock == 0
    requires Filled(ScriptLimit(p), s.ops, j + 1)
    ensures Idle(p, Do(p, s, ReplyLost(j)), j + 1)
  {
    LosingKeeps(p, s, j);
  }

  lemma LosingKeeps(p: Policy, s: Sys, j: nat)
    requires s.requests == map[j := Passed(0, 0, j)]
    ensures Do(p, s, ReplyLost(j)) == s.(requests := map[])
  {
    assert s.requests - {j} == map[];
  }

  lemma CallIsRejected(p: Policy, s: Sys, j: nat)
    requires j in s.requests && s.requests[j] == Stamped(0, 0) && s.rejections == 0
    requires Filled(ScriptLimit(p), s.ops, j) && ScriptLimit(p).window >= 1 && j >= p.requests
    ensures Do(p, s, Evaluate(j, 0, j)).rejections == 1
  {
    EvaluationAt(p, s, j);
  }

  lemma ExecuteTwoMore(p: Policy, moves: seq<Move>, a: Move, b: Move)
    ensures Execute(p, moves + [a] + [b]) == Do(p, Do(p, Execute(p, moves), a), b)
  {
    ExecuteOneMore(p, moves, a);
    ExecuteOneMore(p, moves + [a], b);
  }

  lemma InitiallyFilled(l: Limit)
    ensures Filled(l, [], 0)
  {
    assert Members([]) == {};
  }

  lemma StartIsIdle(p: Policy)
    ensures Idle(p, Execute(p, []), 0)
  {
    InitiallyFilled(ScriptLimit(p));
  }

  lemma ExecuteFourMore(p: Policy, moves: seq<Move>, a: Move, b: Move, c: Move, d: Move)
    ensures Execute(p, moves + [a] + [b] + [c] + [d]) == Do(p, Do(p, Do(p, Do(p, Execute(p, moves), a), b), c), d)
  {
    ExecuteTwoMore(p, moves, a, b);
    ExecuteTwoMore(p, moves + [a] + [b], c, d);
  }

  /** One call of the run of lost replies. */
  lemma OneMoreLost(p: Policy, s: Sys, j: nat)
    requires Idle(p, s, j) && j < p.requests && ScriptLimit(p).window >= 1
    ensures Idle(p, Do(p, Do(p, Do(p, Do(p, s, Lookup(j, 0, 0)), ReadClock(j, 0)), Evaluate(j, 0, j)), ReplyLost(j)), j + 1)
  {
    CallReads(p, s, j);
    CallIsLost(p, Do(p, Do(p, s, Lookup(j, 0, 0)), ReadClock(j, 0)), j);
  }

  lemma {:induction false} LossyRuns(p: Policy, n: nat)
    requires n <= p.requests && ScriptLimit(p).window >= 1
    ensures Idle(p, Execute(p, Lossy(n)), n)
  {
    if n == 0 {
      assert Idle(p, Execute(p, []), 0) by {
        StartIsIdle(p);
      }
    } else {
      LossyRuns(p, n - 1);
      LossyOneMore(p, n - 1, Execute(p, Lossy(n - 1)));
    }
  }

  lemma LossyOneMore(p: Policy, n: nat, s: Sys)
    requires s == Execute(p, Lossy(n)) && Idle(p, s, n) && n < p.requests && ScriptLimit(p).window >= 1
    ensures Idle(p, Execute(p, Lossy(n + 1)), n + 1)
  {
    var look, read, evaluate, lose := Lookup(n, 0, 0), ReadClock(n, 0), Evaluate(n, 0, n), ReplyLost(n);
    assert Execute(p, Lossy(n + 1)) == Do(p, Do(p, Do(p, Do(p, s, look), read), evaluate), lose) by {
      assert Lossy(n + 1) == Lossy(n) + [look] + [read] + [evaluate] + [lose];
      ExecuteFourMore(p, Lossy(n), look, read, evaluate, lose);
    }
    OneMoreLost(p, s, n);
  }

  lemma {:induction false} LossyAtZero(n: nat)
    ensures forall m <- Lossy(n) :: AtZero(m)
  {
    if n > 0 {
      LossyAtZero(n - 1);
    }
  }

  /** No call of the run begins while another one of its gateway is under way. */
  ghost predicate OneAtATime(p: Policy, moves: seq<Move>) {
    moves == [] ||
    var before, m := moves[..|moves| - 1], moves[|moves| - 1];
    && OneAtATime(p, before)
    && (m.Lookup? ==> forall r :: r in Execute(p, before).requests ==> Execute(p, before).requests[r].node != m.node)
  }

  lemma OneAtATimeOn(p: Policy, moves: seq<Move>, m: Move)
    requires OneAtATime(p, moves)
    requires m.Lookup? ==> forall r :: r in Execute(p, moves).requests ==> Execute(p, moves).requests[r].node != m.node
    ensures OneAtATime(p, moves + [m])
  {
    assert (moves + [m])[..|moves|] == moves;
  }

  lemma {:induction false} LossyIsSerial(p: Policy, n: nat)
    requires n <= p.requests && ScriptLimit(p).window >= 1
    ensures OneAtATime(p, Lossy(n))
  {
    if n > 0 {
      var before := Lossy(n - 1);
      LossyIsSerial(p, n - 1);
      LossyRuns(p, n - 1);
      OneAtATimeOn(p, before, Lookup(n - 1, 0, 0));
      OneAtATimeOn(p, before + [Lookup(n - 1, 0, 0)], ReadClock(n - 1, 0));
      var asked := before + [Lookup(n - 1, 0, 0)] + [ReadClock(n - 1, 0)];
      OneAtATimeOn(p, asked, Evaluate(n - 1, 0, n - 1));
      OneAtATimeOn(p, asked + [Evaluate(n - 1, 0, n - 1)], ReplyLost(n - 1));
      assert Lossy(n) == asked + [Evaluate(n - 1, 0, n - 1)] + [ReplyLost(n - 1)];
    }
  }

  /** The run of lost replies, and one call more. */
  function LossyAndOne(n: nat): seq<Move> {
    Lossy(n) + [Lookup(n, 0, 0)] + [ReadClock(n, 0)] + [Evaluate(n, 0, n)]
  }

  /**
   However large the limit, one gateway making one call at a time, on one clock and without
   delay, is rejected if the replies to its admissions are lost.
   */
  lemma LostRepliesExhaustAnyLimit(p: Policy)
    requires p.requests >= 0 && p.window >= MILLISECOND
    ensures var moves := LossyAndOne(p.requests);
            SyncedRun(p, 1, 0, moves) && OneAtATime(p, moves) && Execute(p, moves).rejections == 1
  {
    var n := p.requests;
    LossyAtZero(n);
    ZeroIsSynced(p, LossyAndOne(n));
    assert OneAtATime(p, LossyAndOne(n)) by {
      LossyIsSerial(p, n);
      LossyRuns(p, n);
      OneAtATimeOn(p, Lossy(n), Lookup(n, 0, 0));
      OneAtATimeOn(p, Lossy(n) + [Lookup(n, 0, 0)], ReadClock(n, 0));
      OneAtATimeOn(p, Lossy(n) + [Lookup(n, 0, 0)] + [ReadClock(n, 0)], Evaluate(n, 0, n));
    }
    assert Execute(p, LossyAndOne(n)).rejections == 1 by {
      LossyRuns(p, n);
      ExecuteTwoMore(p, Lossy(n), Lookup(n, 0, 0), ReadClock(n, 0));
      ExecuteOneMore(p, Lossy(n) + [Lookup(n, 0, 0)] + [ReadClock(n, 0)], Evaluate(n, 0, n));
      LastIsRejected(p, Execute(p, Lossy(n)), n);
    }
  }

  lemma LastIsRejected(p: Policy, s: Sys, n: nat)
    requires Idle(p, s, n) && n >= p.requests && ScriptLimit(p).window >= 1
    ensures Do(p, Do(p, Do(p, s, Lookup(n, 0, 0)), ReadClock(n, 0)), Evaluate(n, 0, n)).rejections == 1
  {
    CallReads(p, s, n);
    CallIsRejected(p, Do(p, Do(p, s, Lookup(n, 0, 0)), ReadClock(n, 0)), n);
  }

  // ---- Calls that overlap --------------------------------------------------------------------------------

  /** `n` calls that have all missed and read the clock. */
  function Crowd(n: nat): seq<Move> {
    if n == 0 then [] else Crowd(n - 1) + [Lookup(n - 1, 0, 0)] + [ReadClock(n - 1, 0)]
  }

  /** The first `j` of them evaluated. */
  function Rush(n: nat, j: nat): seq<Move> {
    if j == 0 then Crowd(n) else Rush(n, j - 1) + [Evaluate(j - 1, 0, j - 1)]
  }

  /** Calls `j` to `n - 1` are about to ask Redis, which has admitted `j` members. */
  ghost predicate Crowded(p: Policy, s: Sys, n: nat, j: nat) {
    && (forall r :: r in s.requests ==> r < n) && (forall r: nat :: j <= r < n ==> r in s.requests && s.requests[r] == Stamped(0, 0))
    && s.rejections == 0 && At(s, 0).lease.None? && At(s, 0).clock == 0
    && Filled(ScriptLimit(p), s.ops, j)
  }

  lemma OneMoreInCrowd(p: Policy, s: Sys, n: nat)
    requires Crowded(p, s, n, 0)
    ensures Crowded(p, Do(p, Do(p, s, Lookup(n, 0, 0)), ReadClock(n, 0)), n + 1, 0)
  {
    var s1 := Do(p, s, Lookup(n, 0, 0));
    assert s1 == DoLookup(s, n, 0, 0);
    var s2 := Do(p, s1, ReadClock(n, 0));
    assert s2 == DoReadClock(s1, n, 0);
  }

  lemma {:induction false} CrowdGathers(p: Policy, n: nat)
    ensures Crowded(p, Execute(p, Crowd(n)), n, 0)
  {
    if n == 0 {
      assert Crowded(p, Execute(p, []), 0, 0) by {
        StartIsIdle(p);
      }
    } else {
      CrowdGathers(p, n - 1);
      CrowdOneMore(p, n - 1, Execute(p, Crowd(n - 1)));
    }
  }

  lemma CrowdOneMore(p: Policy, n: nat, s: Sys)
    requires s == Execute(p, Crowd(n)) && Crowded(p, s, n, 0)
    ensures Crowded(p, Execute(p, Crowd(n + 1)), n + 1, 0)
  {
    assert Execute(p, Crowd(n + 1)) == Do(p, Do(p, s, Lookup(n, 0, 0)), ReadClock(n, 0)) by {
      assert Crowd(n + 1) == Crowd(n) + [Lookup(n, 0, 0)] + [ReadClock(n, 0)];
      ExecuteTwoMore(p, Crowd(n), Lookup(n, 0, 0), ReadClock(n, 0));
    }
    OneMoreInCrowd(p, s, n);
  }

  lemma OneMoreAdmitted(p: Policy, s: Sys, n: nat, j: nat)
    requires Crowded(p, s, n, j) && j < n && j < p.requests && ScriptLimit(p).window >= 1
    ensures Crowded(p, Do(p, s, Evaluate(j, 0, j)), n, j + 1)
  {
    EvaluationAt(p, s, j);
    FilledOneMore(ScriptLimit(p), s.ops, j);
  }

  lemma {:induction false} RushRuns(p: Policy, n: nat, j: nat)
    requires j <= n && j <= p.requests && ScriptLimit(p).window >= 1
    ensures Crowded(p, Execute(p, Rush(n, j)), n, j)
    decreases j
  {
    if j == 0 {
      CrowdGathers(p, n);
    } else {
      RushRuns(p, n, j - 1);
      RushOneMore(p, n, j - 1, Execute(p, Rush(n, j - 1)));
    }
  }

  lemma RushOneMore(p: Policy, n: nat, j: nat, s: Sys)
    requires s == Execute(p, Rush(n, j)) && Crowded(p, s, n, j) && j < n && j < p.requests && ScriptLimit(p).window >= 1
    ensures Crowded(p, Execute(p, Rush(n, j + 1)), n, j + 1)
  {
    var evaluate := Evaluate(j, 0, j);
    assert Execute(p, Rush(n, j + 1)) == Do(p, s, evaluate) by {
      assert Rush(n, j + 1) == Rush(n, j) + [evaluate];
      ExecuteOneMore(p, Rush(n, j), evaluate);
    }
    OneMoreAdmitted(p, s, n, j);
  }

  lemma {:induction false} CrowdAtZero(n: nat)
    ensures forall m <- Crowd(n) :: AtZero(m) && !m.ReplyLost?
  {
    if n > 0 {
      CrowdAtZero(n - 1);
    }
  }

  lemma {:induction false} RushAtZero(n: nat, j: nat)
    ensures forall m <- Rush(n, j) :: AtZero(m) && !m.ReplyLost?
    decreases j
  {
    if j == 0 {
      CrowdAtZero(n);
    } else {
      RushAtZero(n, j - 1);
    }
  }

  /** All of a crowd one larger than the limit, evaluated. */
  function RushAndOne(n: nat): seq<Move> {
    Rush(n + 1, n) + [Evaluate(n, 0, n)]
  }

  lemma RushAndOneAtZero(n: nat)
    ensures forall m <- RushAndOne(n) :: AtZero(m) && !m.ReplyLost?
  {
    RushAtZero(n + 1, n);
  }

  lemma RushIsRejected(p: Policy)
    requires p.requests >= 0 && p.window >= MILLISECOND
    ensures Execute(p, RushAndOne(p.requests)).rejections == 1
  {
    RushRuns(p, p.requests + 1, p.requests);
    LastOfRush(p, p.requests, Execute(p, Rush(p.requests + 1, p.requests)));
  }

  lemma LastOfRush(p: Policy, n: nat, s: Sys)
    requires s == Execute(p, Rush(n + 1, n)) && Crowded(p, s, n + 1, n) && n >= p.requests && ScriptLimit(p).window >= 1
    ensures Execute(p, RushAndOne(n)).rejections == 1
  {
    assert Execute(p, RushAndOne(n)) == Do(p, s, Evaluate(n, 0, n)) by {
      ExecuteOneMore(p, Rush(n + 1, n), Evaluate(n, 0, n));
    }
    CallIsRejected(p, s, n);
  }

  /**
   However large the limit, one gateway on one clock, without delay and without any lost reply,
   is rejected if it takes one request more than the limit before the first one is evaluated.
   */
  lemma OverlappingCallsExhaustAnyLimit(p: Policy)
    requires p.requests >= 0 && p.window >= MILLISECOND
    ensures SyncedRun(p, 1, 0, RushAndOne(p.requests))
    ensures forall m <- RushAndOne(p.requests) :: !m.ReplyLost?
    ensures Execute(p, RushAndOne(p.requests)).rejections == 1
  {
    RushIsRejected(p);
    RushAndOneAtZero(p.requests);
    ZeroIsSynced(p, RushAndOne(p.requests));
  }
}
