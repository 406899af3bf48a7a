/**
 The breaker's answers read off the history of a URL's calls, without the state machine:
 which failures trip it, when it is Open, Half-Open or Closed, and when `Allow` refuses.
 */
module BreakerHistory {
  import opened Breaker

  /** The reading of the last recorded failure. */
  function LastFailureTime(calls: seq<Call>): int {
    if calls == [] then ZERO_TIME
    else if calls[|calls| - 1].op.Failure? then calls[|calls| - 1].now
    else LastFailureTime(calls[..|calls| - 1])
  }

  /** The number of failures recorded since the last recorded success. */
  function FailureRun(calls: seq<Call>): nat {
    if calls == [] || calls[|calls| - 1].op.Success? then 0
    else FailureRun(calls[..|calls| - 1]) + if calls[|calls| - 1].op.Failure? then 1 else 0
  }

  /** Call `j` is an `Allow` or a `State` at least `openTimeout` after the last failure before it. */
  ghost predicate RipeLook(c: Config, calls: seq<Call>, j: nat)
    requires j < |calls|
  {
    (calls[j].op.Allow? || calls[j].op.Query?) && calls[j].now - LastFailureTime(calls[..j]) >= c.openTimeout
  }

  /** Call `i` is a failure that trips: on a Half-Open breaker, or the last of `maxFailures` in a row on a Closed one. */
  ghost predicate IsTrip(c: Config, calls: seq<Call>, i: nat)
    requires i < |calls|
    decreases i, 3
  {
    && calls[i].op.Failure?
    && (|| StateByHistory(c, calls[..i]).HalfOpen?
        || (StateByHistory(c, calls[..i]).Closed? && FailureRun(calls[..i]) + 1 >= c.maxFailures))
  }

  /** Call `i` is the last trip. */
  ghost predicate IsLastTrip(c: Config, calls: seq<Call>, i: nat)
    requires i < |calls|
    decreases |calls|, 0
  {
    IsTrip(c, calls, i) && forall j: nat :: i < j < |calls| ==> !IsTrip(c, calls, j)
  }

  /** Nobody has looked in time since call `i`. */
  ghost predicate Unseen(c: Config, calls: seq<Call>, i: nat) {
    forall j: nat :: i < j < |calls| ==> !RipeLook(c, calls, j)
  }

  /** Since call `i` somebody has looked in time, and a success was recorded after that. */
  ghost predicate Recovered(c: Config, calls: seq<Call>, i: nat) {
    exists j: nat, k: nat :: i < j < k < |calls| && RipeLook(c, calls, j) && calls[k].op.Success?
  }

  /**
   The state: Closed before any trip; after the last one Open until somebody looks in time, then
   Half-Open until a success, then Closed.
   */
  ghost function StateByHistory(c: Config, calls: seq<Call>): State
    decreases |calls|, 2
  {
    if forall i: nat :: i < |calls| ==> !IsTrip(c, calls, i) then Closed
    else if exists i: nat :: i < |calls| && IsLastTrip(c, calls, i) && Unseen(c, calls, i) then Open
    else if exists i: nat :: i < |calls| && IsLastTrip(c, calls, i) && Recovered(c, calls, i) then Closed
    else HalfOpen
  }

  /** `Allow` at `t` is refused: there was a trip, nobody has looked in time since the last one, and the last failure is too recent. */
  ghost predicate Refused(c: Config, calls: seq<Call>, t: int) {
    && (exists i: nat :: i < |calls| && IsLastTrip(c, calls, i) && Unseen(c, calls, i))
    && t - LastFailureTime(calls) < c.openTimeout
  }

  // ---- One more call ----------------------------------------------------------------------------

  lemma EarlierStays(c: Config, calls: seq<Call>, m: Call, i: nat)
    requires i < |calls|
    ensures IsTrip(c, calls + [m], i) == IsTrip(c, calls, i) && RipeLook(c, calls + [m], i) == RipeLook(c, calls, i)
  {
    assert (calls + [m])[..i] == calls[..i];
  }

  lemma EarlierStay(c: Config, calls: seq<Call>, m: Call)
    ensures forall i: nat :: i < |calls| ==>
              IsTrip(c, calls + [m], i) == IsTrip(c, calls, i) && RipeLook(c, calls + [m], i) == RipeLook(c, calls, i)
  {
    forall i: nat | i < |calls|
      ensures IsTrip(c, calls + [m], i) == IsTrip(c, calls, i) && RipeLook(c, calls + [m], i) == RipeLook(c, calls, i)
    {
      EarlierStays(c, calls, m, i);
    }
  }

  lemma LastTripIsOne(c: Config, calls: seq<Call>, i: nat, j: nat)
    requires i < |calls| && j < |calls| && IsLastTrip(c, calls, i) && IsLastTrip(c, calls, j)
    ensures i == j
  {
  }

  /** Some trip is the last. */
  lemma {:induction false} LastTripExists(c: Config, calls: seq<Call>, n: nat) returns (i: nat)
    requires n < |calls| && IsTrip(c, calls, n)
    ensures i < |calls| && IsLastTrip(c, calls, i)
    decreases |calls| - n
  {
    if j: nat :| n < j < |calls| && IsTrip(c, calls, j) {
      i := LastTripExists(c, calls, j);
    } else {
      i := n;
    }
  }

  /** The state, once the last trip is known. */
  lemma StateSince(c: Config, calls: seq<Call>, i: nat)
    requires i < |calls| && IsLastTrip(c, calls, i)
    ensures StateByHistory(c, calls) == if Unseen(c, calls, i) then Open else if Recovered(c, calls, i) then Closed else HalfOpen
  {
    forall j: nat | j < |calls| && IsLastTrip(c, calls, j)
      ensures j == i
    {
      LastTripIsOne(c, calls, i, j);
    }
  }

  lemma TripOpens(c: Config, calls: seq<Call>, m: Call)
    requires IsTrip(c, calls + [m], |calls|)
    ensures StateByHistory(c, calls + [m]) == Open
  {
    assert IsLastTrip(c, calls + [m], |calls|);
    StateSince(c, calls + [m], |calls|);
  }

  lemma NoTripStaysClosed(c: Config, calls: seq<Call>, m: Call)
    requires forall i: nat :: i < |calls| ==> !IsTrip(c, calls, i)
    requires !IsTrip(c, calls + [m], |calls|)
    ensures StateByHistory(c, calls + [m]) == Closed
  {
    EarlierStay(c, calls, m);
  }

  /** What the last trip means after one more call that is no trip. */
  lemma LastTripStays(c: Config, calls: seq<Call>, m: Call, i: nat)
    requires i < |calls| && IsLastTrip(c, calls, i) && !IsTrip(c, calls + [m], |calls|)
    ensures IsLastTrip(c, calls + [m], i)
    ensures Unseen(c, calls + [m], i) <==> Unseen(c, calls, i) && !RipeLook(c, calls + [m], |calls|)
    ensures Recovered(c, calls + [m], i) <==> Recovered(c, calls, i) || (!Unseen(c, calls, i) && m.op.Success?)
  {
    EarlierStay(c, calls, m);
    var all := calls + [m];
    if Recovered(c, calls, i) {
      var j: nat, k: nat :| i < j < k < |calls| && RipeLook(c, calls, j) && calls[k].op.Success?;
      assert RipeLook(c, all, j) && all[k].op.Success?;
    }
    if !Unseen(c, calls, i) && m.op.Success? {
      var j: nat :| i < j < |calls| && RipeLook(c, calls, j);
      assert RipeLook(c, all, j) && all[|calls|].op.Success?;
    }
    if Recovered(c, all, i) {
      var j: nat, k: nat :| i < j < k < |all| && RipeLook(c, all, j) && all[k].op.Success?;
      assert RipeLook(c, calls, j);
      if k < |calls| {
        assert calls[k].op.Success?;
        assert Recovered(c, calls, i);
      }
    }
  }

  /** The state after one more call, by what the call is. */
  lemma StateAfterOneMore(c: Config, calls: seq<Call>, m: Call)
    ensures var s := StateByHistory(c, calls);
            StateByHistory(c, calls + [m]) ==
              if IsTrip(c, calls + [m], |calls|) then Open
              else if s.Open? && RipeLook(c, calls + [m], |calls|) then HalfOpen
              else if s.HalfOpen? && m.op.Success? then Closed
              else s
  {
    var all := calls + [m];
    if IsTrip(c, all, |calls|) {
      TripOpens(c, calls, m);
    } else if n: nat :| n < |calls| && IsTrip(c, calls, n) {
      var i := LastTripExists(c, calls, n);
      LastTripStays(c, calls, m, i);
      StateSince(c, calls, i);
      StateSince(c, all, i);
      LookIsNoSuccess(c, calls, i);
    } else {
      NoTripStaysClosed(c, calls, m);
    }
  }

  /** What has been recovered from has been seen. */
  lemma LookIsNoSuccess(c: Config, calls: seq<Call>, i: nat)
    ensures Recovered(c, calls, i) ==> !Unseen(c, calls, i)
  {
  }

  // ---- The machine agrees -------------------------------------------------------------------------

  /** After any calls the breaker's record is what the history says. */
  lemma {:induction false} RecordIsHistory(c: Config, calls: seq<Call>)
    ensures After(c, FRESH, calls) == Url(StateByHistory(c, calls), FailureRun(calls), LastFailureTime(calls))
  {
    if calls != [] {
      var before, m := calls[..|calls| - 1], calls[|calls| - 1];
      RecordIsHistory(c, before);
      assert before + [m] == calls;
      StateAfterOneMore(c, before, m);
      assert calls[..|before|] == before;
    }
  }

  /** A call trips the machine if and only if the history says so. */
  lemma TripsByHistory(c: Config, calls: seq<Call>, i: nat)
    requires i < |calls|
    ensures Trips(c, After(c, FRESH, calls[..i]), calls[i]) <==> IsTrip(c, calls, i)
  {
    RecordIsHistory(c, calls[..i]);
  }

  /**
   When `Allow` refuses, exactly: there was a trip, no `Allow` or `State` came `openTimeout` or more
   after the last failure before it since the last trip, and the last failure is less than
   `openTimeout` ago. Without a trip every call is granted.
   */
  lemma RefusedExactlyWhen(c: Config, calls: seq<Call>, t: int)
    ensures !Granted(c, After(c, FRESH, calls), t) <==> Refused(c, calls, t)
    ensures TripTimes(c, FRESH, calls) == [] ==> Granted(c, After(c, FRESH, calls), t)
  {
    RecordIsHistory(c, calls);
    if Refused(c, calls, t) {
      var i: nat :| i < |calls| && IsLastTrip(c, calls, i) && Unseen(c, calls, i);
      StateSince(c, calls, i);
    }
    if TripTimes(c, FRESH, calls) == [] {
      NoTripTimesNoTrip(c, calls);
    }
  }

  lemma {:induction false} NoTripTimesBefore(c: Config, calls: seq<Call>, n: nat)
    requires TripTimes(c, FRESH, calls) == [] && n <= |calls|
    ensures TripTimes(c, FRESH, calls[..n]) == []
    decreases |calls|
  {
    if n == |calls| {
      assert calls[..n] == calls;
    } else {
      var before := calls[..|calls| - 1];
      NoTripTimesBefore(c, before, n);
      assert before[..n] == calls[..n];
    }
  }

  lemma NoTripTimesNoTrip(c: Config, calls: seq<Call>)
    requires TripTimes(c, FRESH, calls) == []
    ensures forall i: nat :: i < |calls| ==> !IsTrip(c, calls, i)
  {
    forall i: nat | i < |calls|
      ensures !IsTrip(c, calls, i)
    {
      NoTripTimesBefore(c, calls, i + 1);
      PrefixStep(c, FRESH, calls, i);
      TripsByHistory(c, calls, i);
    }
  }

  /** What `State` answers, by the history. */
  lemma ShownByHistory(c: Config, calls: seq<Call>, t: int)
    ensures Shown(c, After(c, FRESH, calls), t).Open? <==> Refused(c, calls, t)
    ensures Shown(c, After(c, FRESH, calls), t).Closed? <==> StateByHistory(c, calls).Closed?
  {
    RecordIsHistory(c, calls);
    RefusedExactlyWhen(c, calls, t);
  }

  /** A new breaker grants at any time, and the first failure below the threshold leaves it so. */
  lemma NewBreakerGrants(c: Config, t: int, f: int)
    requires c.maxFailures >= 2
    ensures Granted(c, After(c, FRESH, []), t) && Granted(c, After(c, FRESH, [Call(Failure, f)]), t)
  {
    var calls := [Call(Failure, f)];
    assert calls[..0] == [];
    RefusedExactlyWhen(c, [], t);
    RefusedExactlyWhen(c, calls, t);
    assert forall i: nat :: i < |calls| ==> !IsTrip(c, calls, i);
  }
}
