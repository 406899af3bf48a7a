/**
 The sliding-window script that Redis runs atomically for one limiter key: a sorted
 set of admitted requests, pruned by score and expiring as a whole.

 Times are in milliseconds. `server` is Redis's own clock, which never goes back;
 `now` is the reading a gateway passes in, and may lag behind it.
 */
module SlidingWindow {
  import opened Prelude

  type Member = nat  // stands for the "<nanoseconds>:<uuid>" string, unique per call

  /** The key's sorted set, and when it is due to expire. */
  datatype KeyState = KeyState(members: map<Member, int>, deadline: Option<int>)

  const ABSENT: KeyState := KeyState(map[], None)

  datatype Limit = Limit(window: int, requests: int)

  /** One run of the script, or the key's expiry. */
  datatype Op = Eval(server: int, now: int, member: Member) | Expire(server: int)

  datatype Stamp = Stamp(server: int, now: int)

  function Prune(members: map<Member, int>, upTo: int): map<Member, int> {
    map m | m in members && members[m] > upTo :: members[m]
  }

  predicate Admits(l: Limit, k: KeyState, now: int) {
    |Prune(k.members, now - l.window)| < l.requests
  }

  function Apply(l: Limit, k: KeyState, op: Op): KeyState {
    match op
    case Eval(server, now, member) =>
      var kept := Prune(k.members, now - l.window);
      if |kept| < l.requests then KeyState(kept[member := now], Some(server + l.window))
      else KeyState(kept, if kept == map[] then None else k.deadline)
    case Expire(_) => ABSENT
  }

  function After(l: Limit, ops: seq<Op>): KeyState {
    if ops == [] then ABSENT else Apply(l, After(l, ops[..|ops| - 1]), ops[|ops| - 1])
  }

  lemma AfterOneMore(l: Limit, ops: seq<Op>, op: Op)
    ensures After(l, ops + [op]) == Apply(l, After(l, ops), op)
  {
    assert (ops + [op])[..|ops|] == ops;
  }

  /** Every admission of a run, never pruned or expired. */
  function Log(l: Limit, ops: seq<Op>): map<Member, Stamp> {
    if ops == [] then map[]
    else
      var before, last := ops[..|ops| - 1], ops[|ops| - 1];
      if last.Eval? && Admits(l, After(l, before), last.now)
      then Log(l, before)[last.member := Stamp(last.server, last.now)]
      else Log(l, before)
  }

  function Members(ops: seq<Op>): set<Member> {
    set i | 0 <= i < |ops| && ops[i].Eval? :: ops[i].member
  }

  /**
   A run as it can happen: server time never goes back, each `now` lags it by at most
   `skew`, members are fresh, and the key expires only at or after its deadline.
   */
  ghost predicate Possible(l: Limit, skew: nat, ops: seq<Op>) {
    ops == [] ||
    var before, last := ops[..|ops| - 1], ops[|ops| - 1];
    && Possible(l, skew, before)
    && (before != [] ==> before[|before| - 1].server <= last.server)
    && (last.Eval? ==> last.server - skew <= last.now <= last.server && last.member !in Members(before))
    && (last.Expire? ==> After(l, before).deadline.Some? && After(l, before).deadline.value <= last.server)
  }

  // ---- What the set retains ---------------------------------------------------------

  ghost predicate Retains(l: Limit, skew: nat, k: KeyState, log: map<Member, Stamp>, time: int) {
    // what the set holds was admitted, with that score, and outlives the window before the key expires
    && (forall m :: m in k.members ==>
          && m in log && k.members[m] == log[m].now
          && k.deadline.Some? && log[m].server + l.window <= k.deadline.value)
    // everything still inside the window is held
    && (forall m :: m in log && log[m].now > time - l.window ==> m in k.members)
    && (forall m :: m in log ==> log[m].server - skew <= log[m].now <= log[m].server <= time)
    && |k.members| <= if l.requests > 0 then l.requests else 0
  }

  /** Pruning keeps exactly the members with a higher score. */
  lemma PruneIsRecent(members: map<Member, int>, upTo: int)
    ensures |Prune(members, upTo)| == |set m | m in members && members[m] > upTo|
  {
    assert Prune(members, upTo).Keys == set m | m in members && members[m] > upTo;
    assert |Prune(members, upTo)| == |Prune(members, upTo).Keys|;
  }

  lemma PruneShrinks(members: map<Member, int>, upTo: int)
    ensures |Prune(members, upTo)| <= |members|
  {
    SubsetSize(Prune(members, upTo).Keys, members.Keys);
    assert |Prune(members, upTo)| == |Prune(members, upTo).Keys| && |members| == |members.Keys|;
  }

  lemma LogMembers(l: Limit, ops: seq<Op>)
    ensures Log(l, ops).Keys <= Members(ops)
  {
    if ops != [] {
      var before, last := ops[..|ops| - 1], ops[|ops| - 1];
      LogMembers(l, before);
      forall m | m in Members(before)
        ensures m in Members(ops)
      {
        var i :| 0 <= i < |before| && before[i].Eval? && before[i].member == m;
        assert ops[i].Eval? && ops[i].member == m;
      }
      if last.Eval? {
        assert ops[|ops| - 1].member in Members(ops);
      }
    }
  }

  lemma {:induction false} RunRetains(l: Limit, skew: nat, ops: seq<Op>)
    requires Possible(l, skew, ops) && ops != []
    ensures Retains(l, skew, After(l, ops), Log(l, ops), ops[|ops| - 1].server)
  {
    var before, last := ops[..|ops| - 1], ops[|ops| - 1];
    var k, log := After(l, before), Log(l, before);
    if before != [] {
      RunRetains(l, skew, before);
    }
    assert Retains(l, skew, k, log, last.server);
    if last.Eval? {
      LogMembers(l, before);
      if Admits(l, k, last.now) {
        AdmissionRetains(l, skew, k, log, last);
      } else {
        RejectionRetains(l, skew, k, log, last);
      }
    }
  }

  lemma AdmissionRetains(l: Limit, skew: nat, k: KeyState, log: map<Member, Stamp>, e: Op)
    requires e.Eval? && e.server - skew <= e.now <= e.server && e.member !in log
    requires Retains(l, skew, k, log, e.server) && Admits(l, k, e.now)
    ensures Retains(l, skew, Apply(l, k, e), log[e.member := Stamp(e.server, e.now)], e.server)
  {
    AdmissionFits(l, k, e);
    AdmissionHolds(l, skew, k, log, e);
  }

  lemma AdmissionFits(l: Limit, k: KeyState, e: Op)
    requires e.Eval? && Admits(l, k, e.now)
    ensures |Apply(l, k, e).members| <= l.requests
  {
    MapGrowsByOne(Prune(k.members, e.now - l.window), e.member, e.now);
  }

  lemma AdmissionHolds(l: Limit, skew: nat, k: KeyState, log: map<Member, Stamp>, e: Op)
    requires e.Eval? && e.now <= e.server && e.member !in log
    requires Retains(l, skew, k, log, e.server) && Admits(l, k, e.now)
    ensures var k' := Apply(l, k, e);
            var log' := log[e.member := Stamp(e.server, e.now)];
            && (forall m :: m in k'.members ==>
                  && m in log' && k'.members[m] == log'[m].now
                  && k'.deadline.Some? && log'[m].server + l.window <= k'.deadline.value)
            && (forall m :: m in log' && log'[m].now > e.server - l.window ==> m in k'.members)
  {
    var kept := Prune(k.members, e.now - l.window);
    assert Apply(l, k, e) == KeyState(kept[e.member := e.now], Some(e.server + l.window));
    assert forall m :: m in kept ==> m in log && kept[m] == log[m].now && log[m].server <= e.server;
  }

  lemma RejectionRetains(l: Limit, skew: nat, k: KeyState, log: map<Member, Stamp>, e: Op)
    requires e.Eval? && e.now <= e.server
    requires Retains(l, skew, k, log, e.server) && !Admits(l, k, e.now)
    ensures Retains(l, skew, Apply(l, k, e), log, e.server)
  {
    var kept := Prune(k.members, e.now - l.window);
    PruneShrinks(k.members, e.now - l.window);
    assert Apply(l, k, e) == KeyState(kept, if kept == map[] then None else k.deadline);
    assert forall m :: m in kept ==> m in k.members && kept != map[];
  }

  // ---- The bound ----------------------------------------------------------------------

  /** Admissions whose Redis time lies in `[from, to)`. */
  ghost function AdmittedIn(log: map<Member, Stamp>, from: int, to: int): set<Member> {
    set m | m in log && from <= log[m].server < to
  }

  /** Admissions whose gateway reading lies in `[from, to)`. */
  ghost function StampedIn(log: map<Member, Stamp>, from: int, to: int): set<Member> {
    set m | m in log && from <= log[m].now < to
  }

  ghost function Cap(l: Limit): nat {
    if l.requests > 0 then l.requests else 0
  }

  /**
   Over any run by any number of gateways whose clocks lag Redis by at most `skew`, and
   however late expiry fires, at most `requests` admissions fall in any half-open
   interval of length `window - skew`, measured on either clock.
   */
  lemma {:induction false} WindowBound(l: Limit, skew: nat, ops: seq<Op>, from: int)
    requires Possible(l, skew, ops)
    ensures |AdmittedIn(Log(l, ops), from, from + l.window - skew)| <= if l.requests > 0 then l.requests else 0
    ensures |StampedIn(Log(l, ops), from, from + l.window - skew)| <= if l.requests > 0 then l.requests else 0
  {
    var log := Log(l, ops);
    var to := from + l.window - skew;
    if ops == [] {
      assert AdmittedIn(log, from, to) == {} == StampedIn(log, from, to);
    } else {
      var before, last := ops[..|ops| - 1], ops[|ops| - 1];
      WindowBound(l, skew, before, from);
      RunRetains(l, skew, ops);
      if log != Log(l, before) {
        LogMembers(l, before);
        AdmittedStep(l, skew, After(l, ops), Log(l, before), log, last, from);
        StampedStep(l, skew, After(l, ops), Log(l, before), log, last, from);
      }
    }
  }

  /** Admissions that are still inside the window are held, so there are no more of them than the set can hold. */
  lemma RecentFit(l: Limit, skew: nat, k: KeyState, log: map<Member, Stamp>, time: int, ms: set<Member>)
    requires Retains(l, skew, k, log, time)
    requires forall m :: m in ms ==> m in log && log[m].now > time - l.window
    ensures |ms| <= Cap(l)
  {
    assert ms <= k.members.Keys;
    SubsetSize(ms, k.members.Keys);
    assert |k.members| == |k.members.Keys|;
  }

  /** The newest admission joins the log. */
  ghost predicate Joins(log: map<Member, Stamp>, log': map<Member, Stamp>, last: Op) {
    last.Eval? && last.member !in log && log' == log[last.member := Stamp(last.server, last.now)]
  }

  /** If the newest admission falls in the interval, all that do are still in the set. */
  lemma AdmittedStep(l: Limit, skew: nat, k: KeyState, log: map<Member, Stamp>, log': map<Member, Stamp>, last: Op, from: int)
    requires Joins(log, log', last) && Retains(l, skew, k, log', last.server)
    requires |AdmittedIn(log, from, from + l.window - skew)| <= Cap(l)
    ensures |AdmittedIn(log', from, from + l.window - skew)| <= Cap(l)
  {
    var to := from + l.window - skew;
    if from <= last.server < to {
      RecentFit(l, skew, k, log', last.server, AdmittedIn(log', from, to));
    } else {
      assert AdmittedIn(log', from, to) == AdmittedIn(log, from, to);
    }
  }

  lemma StampedStep(l: Limit, skew: nat, k: KeyState, log: map<Member, Stamp>, log': map<Member, Stamp>, last: Op, from: int)
    requires Joins(log, log', last) && Retains(l, skew, k, log', last.server)
    requires |StampedIn(log, from, from + l.window - skew)| <= Cap(l)
    ensures |StampedIn(log', from, from + l.window - skew)| <= Cap(l)
  {
    var to := from + l.window - skew;
    if from <= last.now < to {
      assert log'[last.member] == Stamp(last.server, last.now);
      RecentFit(l, skew, k, log', last.server, StampedIn(log', from, to));
    } else {
      assert StampedIn(log', from, to) == StampedIn(log, from, to);
    }
  }

  /**
   The interval cannot be one longer: for every window and every skew below it, two
   admissions under a limit of one can be exactly `window - skew` apart.
   */
  lemma WindowBoundIsTight(window: int, skew: nat)
    requires skew < window
    ensures var l := Limit(window, 1);
            var ops := [Eval(skew, 0, 0), Eval(window, window, 1)];
            && Possible(l, skew, ops)
            && AdmittedIn(Log(l, ops), skew, skew + window - skew + 1) == {0, 1}
  {
    var l := Limit(window, 1);
    var first, second := Eval(skew, 0, 0), Eval(window, window, 1);
    var ops := [first, second];
    assert ops[..1] == [first] && [first][..0] == [];
    assert Prune(ABSENT.members, 0 - window) == map[];
    assert After(l, [first]) == KeyState(map[0 := 0], Some(skew + window));
    assert Members([]) == {};
    assert Members([first]) == {0};
    assert Possible(l, skew, [first]);
    assert Prune(After(l, [first]).members, window - window) == map[];
    assert Log(l, [first]) == map[0 := Stamp(skew, 0)];
    assert Log(l, ops) == map[0 := Stamp(skew, 0), 1 := Stamp(window, window)];
  }

  // ---- The set refines the log ----------------------------------------------------------

  /** Logged admissions newer than `now - window`. */
  ghost function InWindow(l: Limit, log: map<Member, Stamp>, now: int): set<Member> {
    set m | m in log && log[m].now > now - l.window
  }

  /**
   With gateways on Redis's clock, the pruned and expiring set answers as the whole log
   would: a call is admitted if and only if fewer than `requests` logged admissions are
   newer than `now - window`.
   */
  lemma SetRefinesLog(l: Limit, ops: seq<Op>, now: int)
    requires Possible(l, 0, ops)
    requires ops != [] ==> ops[|ops| - 1].server <= now
    ensures Admits(l, After(l, ops), now) <==> |InWindow(l, Log(l, ops), now)| < l.requests
  {
    if ops != [] {
      assert |Prune(After(l, ops).members, now - l.window)| == |InWindow(l, Log(l, ops), now)| by {
        RunRetains(l, 0, ops);
        PrunedIsWindow(l, After(l, ops), Log(l, ops), ops[|ops| - 1].server, now);
      }
    } else {
      assert Prune(ABSENT.members, now - l.window) == map[];
      assert InWindow(l, map[], now) == {};
    }
  }

  /** What pruning keeps is what the log has in the window. */
  lemma PrunedIsWindow(l: Limit, k: KeyState, log: map<Member, Stamp>, time: int, now: int)
    requires Retains(l, 0, k, log, time) && time <= now
    ensures |Prune(k.members, now - l.window)| == |InWindow(l, log, now)|
  {
    var kept := Prune(k.members, now - l.window);
    assert kept.Keys == InWindow(l, log, now);
    assert |kept| == |kept.Keys|;
  }

  /** The operations of a run that a mask keeps. */
  function Keep(ops: seq<Op>, mask: seq<bool>): seq<Op>
    requires |ops| == |mask|
  {
    if ops == [] then []
    else
      var n := |ops| - 1;
      Keep(ops[..n], mask[..n]) + if mask[n] then [ops[n]] else []
  }

  predicate Admitted(l: Limit, ops: seq<Op>, i: nat)
    requires i < |ops|
  {
    ops[i].Eval? && Admits(l, After(l, ops[..i]), ops[i].now)
  }

  /** The mask keeps every admitted call and drops every expiry; rejected calls it may keep or drop. */
  ghost predicate KeepsAdmitted(l: Limit, ops: seq<Op>, mask: seq<bool>)
    requires |ops| == |mask|
  {
    forall i :: 0 <= i < |ops| ==> (Admitted(l, ops, i) ==> mask[i]) && (ops[i].Expire? ==> !mask[i])
  }

  lemma KeepsAdmittedPrefix(l: Limit, ops: seq<Op>, mask: seq<bool>, n: nat)
    requires |ops| == |mask| && n <= |ops| && KeepsAdmitted(l, ops, mask)
    ensures KeepsAdmitted(l, ops[..n], mask[..n])
  {
    forall i | 0 <= i < n
      ensures (Admitted(l, ops[..n], i) ==> mask[..n][i]) && (ops[..n][i].Expire? ==> !mask[..n][i])
    {
      assert ops[..n][..i] == ops[..i];
      assert Admitted(l, ops[..n], i) <==> Admitted(l, ops, i);
    }
  }

  /**
   Expiries and rejected calls leave no trace: erase from a run every expiry and any of
   the rejected calls, and the same admissions are logged and any next call, at any later
   time, gets the same answer.
   */
  lemma {:induction false} ErasureIsInvisible(l: Limit, ops: seq<Op>, mask: seq<bool>, now: int)
    requires Possible(l, 0, ops) && |mask| == |ops| && KeepsAdmitted(l, ops, mask)
    requires ops != [] ==> ops[|ops| - 1].server <= now
    ensures Possible(l, 0, Keep(ops, mask))
    ensures Log(l, Keep(ops, mask)) == Log(l, ops)
    ensures Admits(l, After(l, Keep(ops, mask)), now) <==> Admits(l, After(l, ops), now)
  {
    ErasureKeepsLog(l, ops, mask);
    SetRefinesLog(l, ops, now);
    SetRefinesLog(l, Keep(ops, mask), now);
  }

  /** Two runs that logged the same, the second on a subset of the first one's calls. */
  ghost predicate SameTrace(l: Limit, ops: seq<Op>, kept: seq<Op>) {
    && Possible(l, 0, kept)
    && Log(l, kept) == Log(l, ops)
    && Members(kept) <= Members(ops)
    && (kept != [] ==> ops != [] && kept[|kept| - 1].server <= ops[|ops| - 1].server)
  }

  lemma {:induction false} ErasureKeepsLog(l: Limit, ops: seq<Op>, mask: seq<bool>)
    requires Possible(l, 0, ops) && |mask| == |ops| && KeepsAdmitted(l, ops, mask)
    ensures SameTrace(l, ops, Keep(ops, mask))
  {
    if ops != [] {
      var n := |ops| - 1;
      KeepsAdmittedPrefix(l, ops, mask, n);
      ErasureKeepsLog(l, ops[..n], mask[..n]);
      var kept := Keep(ops[..n], mask[..n]);
      assert ops[..n] + [ops[n]] == ops;
      if mask[n] {
        KeepingACall(l, ops[..n], kept, ops[n]);
      } else {
        assert !Admitted(l, ops, n);
        DroppingACall(l, ops[..n], kept, ops[n]);
        assert Keep(ops, mask) == kept;
      }
    }
  }

  lemma {:induction false} DroppingACall(l: Limit, before: seq<Op>, kept: seq<Op>, last: Op)
    requires Possible(l, 0, before + [last]) && SameTrace(l, before, kept)
    requires last.Eval? ==> !Admits(l, After(l, before), last.now)
    ensures SameTrace(l, before + [last], kept)
  {
    assert (before + [last])[..|before|] == before;
    MembersGrow(before, last);
  }

  /** A call that follows two runs with one log is admitted after both or after neither. */
  lemma {:induction false} KeepingACall(l: Limit, before: seq<Op>, kept: seq<Op>, last: Op)
    requires last.Eval? && Possible(l, 0, before + [last]) && SameTrace(l, before, kept)
    ensures SameTrace(l, before + [last], kept + [last])
  {
    assert (before + [last])[..|before|] == before;
    assert (kept + [last])[..|kept|] == kept;
    MembersGrow(before, last);
    MembersGrow(kept, last);
    SetRefinesLog(l, before, last.now);
    SetRefinesLog(l, kept, last.now);
  }

  lemma MembersGrow(ops: seq<Op>, last: Op)
    ensures Members(ops + [last]) == Members(ops) + (if last.Eval? then {last.member} else {})
  {
    var all := ops + [last];
    forall m | m in Members(ops) + (if last.Eval? then {last.member} else {})
      ensures m in Members(all)
    {
      if m in Members(ops) {
        var i :| 0 <= i < |ops| && ops[i].Eval? && ops[i].member == m;
        assert all[i] == ops[i];
      } else {
        assert all[|ops|] == last;
      }
    }
  }

  // ---- The script itself --------------------------------------------------------------------

  /** The key in Redis, with the commands the script uses. */
  class RedisKey {
    var members: map<Member, int>
    var deadline: Option<int>

    constructor ()
      ensures Value() == ABSENT
    {
      members, deadline := map[], None;
    }

    function Value(): KeyState
      reads this
    {
      KeyState(members, deadline)
    }

    /** ZREMRANGEBYSCORE key -inf upTo; a set left empty is removed, with its expiry. */
    method RemoveUpTo(upTo: int)
      modifies this
      ensures members == Prune(old(members), upTo)
      ensures deadline == if members == map[] then None else old(deadline)
    {
      members := Prune(members, upTo);
      if members == map[] {
        deadline := None;
      }
    }

    /** The sliding-window script, run atomically at Redis time `server`. */
    method SlidingWindow(now: int, window: int, limit: int, member: Member, server: int) returns (allowed: int)
      modifies this
      ensures Value() == Apply(Limit(window, limit), old(Value()), Eval(server, now, member))
      ensures allowed == if Admits(Limit(window, limit), old(Value()), now) then 1 else 0
      // admitted exactly when fewer than `limit` members are newer than `now - window`
      ensures allowed == 1 <==> |set m | m in old(members) && old(members)[m] > now - window| < limit
      // and then recorded, with the whole set to expire a window later
      ensures allowed == 1 ==> member in members && members[member] == now && deadline == Some(server + window)
      ensures forall m :: m != member || allowed == 0 ==>
                (m in members <==> m in old(members) && old(members)[m] > now - window) && (m in members ==> members[m] == old(members)[m])
    {
      PruneIsRecent(members, now - window);
      var clearBefore := now - window;
      RemoveUpTo(clearBefore);
      var count := |members|;
      if count < limit {
        members := members[member := now];
        deadline := Some(server + window);
        allowed := 1;
      } else {
        allowed := 0;
      }
    }
  }
}
