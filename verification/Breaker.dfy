/**
 The state machine that the circuit breaker runs for one target URL, as the effect
 of each locked section of a call, and what every run of it keeps.

 Clock readings are integers in nanoseconds; a run's readings never decrease, as
 they are taken from the monotonic clock while the URL's mutex is held.
 */
module Breaker {

  datatype State = Closed | Open | HalfOpen

  datatype Config = Config(maxFailures: int, openTimeout: int) {
    ghost predicate Valid() {
      maxFailures >= 1 && openTimeout > 0
    }
  }

  /** What the breaker remembers about one URL. */
  datatype Url = Url(state: State, failures: nat, lastFailure: int)

  const ZERO_TIME: int := 0  // Go's zero time.Time, before any recorded failure

  const FRESH: Url := Url(Closed, 0, ZERO_TIME)

  datatype Op = Allow | Success | Failure | Query

  /** One call on the breaker, with the clock reading of its locked section. */
  datatype Call = Call(op: Op, now: int)

  /** An Open breaker whose timeout has elapsed. */
  predicate Due(c: Config, s: Url, now: int) {
    s.state.Open? && now - s.lastFailure >= c.openTimeout
  }

  /** The answer of `Allow`. */
  predicate Granted(c: Config, s: Url, now: int) {
    !s.state.Open? || Due(c, s, now)
  }

  /** The answer of `State`. */
  function Shown(c: Config, s: Url, now: int): State {
    if Due(c, s, now) then HalfOpen else s.state
  }

  /** The effect of a call's locked section. */
  function Locked(c: Config, s: Url, call: Call): Url {
    match call.op
    case Allow => if Due(c, s, call.now) then s.(state := HalfOpen) else s
    case Query => if Due(c, s, call.now) then s.(state := HalfOpen) else s
    case Success => Url(if s.state.HalfOpen? then Closed else s.state, 0, s.lastFailure)
    case Failure =>
      var failures := s.failures + 1;
      Url(if s.state.HalfOpen? || failures >= c.maxFailures then Open else s.state, failures, call.now)
  }

  /** The call moves the breaker into Open (the trips counter is incremented). */
  predicate Trips(c: Config, s: Url, call: Call) {
    call.op.Failure? && !s.state.Open? && Locked(c, s, call).state.Open?
  }

  function After(c: Config, s0: Url, calls: seq<Call>): Url {
    if calls == [] then s0
    else Locked(c, After(c, s0, calls[..|calls| - 1]), calls[|calls| - 1])
  }

  /** The clock readings of the trips of a run, in order. */
  function TripTimes(c: Config, s0: Url, calls: seq<Call>): seq<int> {
    if calls == [] then []
    else
      var before := calls[..|calls| - 1];
      var last := calls[|calls| - 1];
      TripTimes(c, s0, before) + if Trips(c, After(c, s0, before), last) then [last.now] else []
  }

  ghost predicate Ordered(calls: seq<Call>) {
    forall i, j :: 0 <= i < j < |calls| ==> calls[i].now <= calls[j].now
  }

  lemma PrefixStep(c: Config, s0: Url, calls: seq<Call>, i: nat)
    requires i < |calls|
    ensures After(c, s0, calls[..i + 1]) == Locked(c, After(c, s0, calls[..i]), calls[i])
    ensures TripTimes(c, s0, calls[..i + 1])
         == TripTimes(c, s0, calls[..i]) + if Trips(c, After(c, s0, calls[..i]), calls[i]) then [calls[i].now] else []
  {
    assert calls[..i + 1][..i] == calls[..i];
  }

  // ---- Failure counting -------------------------------------------------------

  function CountFailures(calls: seq<Call>): nat {
    if calls == [] then 0
    else CountFailures(calls[..|calls| - 1]) + if calls[|calls| - 1].op.Failure? then 1 else 0
  }

  /**
   `failures` is the number of failures recorded since the last recorded success
   (since the start when there was none), whatever else was called in between; and
   a Closed breaker is always below the threshold.
   */
  lemma {:induction false} FailuresAreTrailingRun(c: Config, calls: seq<Call>, p: nat)
    requires c.Valid()
    requires p <= |calls|
    requires p == 0 || calls[p - 1].op.Success?
    requires forall i :: p <= i < |calls| ==> !calls[i].op.Success?
    ensures After(c, FRESH, calls).failures == CountFailures(calls[p..])
    ensures After(c, FRESH, calls).state.Closed? ==> After(c, FRESH, calls).failures < c.maxFailures
    decreases |calls| - p
  {
    ClosedBelowThreshold(c, FRESH, calls);
    if p < |calls| {
      var before := calls[..|calls| - 1];
      FailuresAreTrailingRun(c, before, p);
      assert calls[p..][..|calls| - p - 1] == before[p..];
    }
  }

  lemma {:induction false} ClosedBelowThreshold(c: Config, s0: Url, calls: seq<Call>)
    requires c.Valid()
    requires s0.state.Closed? ==> s0.failures < c.maxFailures
    ensures var s := After(c, s0, calls); s.state.Closed? ==> s.failures < c.maxFailures
  {
    if calls != [] {
      ClosedBelowThreshold(c, s0, calls[..|calls| - 1]);
    }
  }

  /**
   Open does not bound `failures` from below: a success recorded late leaves the
   breaker Open with no failures counted.
   */
  lemma OpenCanHaveNoFailures()
    ensures var c := Config(1, 30);
            var s := After(c, FRESH, [Call(Failure, 0), Call(Success, 1)]);
            s.state.Open? && s.failures == 0
  {
    var c := Config(1, 30);
    var calls := [Call(Failure, 0), Call(Success, 1)];
    assert calls[..1] == [Call(Failure, 0)];
    assert [Call(Failure, 0)][..0] == [];
    assert After(c, FRESH, calls[..1]) == Locked(c, FRESH, Call(Failure, 0));
  }

  ghost predicate OutsideClosedHasFailures(c: Config, s: Url) {
    !s.state.Closed? ==> s.failures >= c.maxFailures
  }

  /** Call `i` records a success on an Open breaker. */
  ghost predicate SuccessWhileOpen(c: Config, calls: seq<Call>, i: nat)
    requires i < |calls|
  {
    calls[i].op.Success? && After(c, FRESH, calls[..i]).state.Open?
  }

  /**
   Throughout a run a breaker that is not Closed has counted `maxFailures` failures, if and
   only if no success is recorded while it is Open.
   */
  lemma {:induction false} FailuresBackOpenIff(c: Config, calls: seq<Call>)
    requires c.Valid()
    ensures (forall i: nat :: i <= |calls| ==> OutsideClosedHasFailures(c, After(c, FRESH, calls[..i])))
       <==> (forall i: nat :: i < |calls| ==> !SuccessWhileOpen(c, calls, i))
  {
    if i: nat :| i < |calls| && SuccessWhileOpen(c, calls, i) {
      PrefixStep(c, FRESH, calls, i);
      assert !OutsideClosedHasFailures(c, After(c, FRESH, calls[..i + 1]));
    } else {
      forall i: nat | i <= |calls|
        ensures OutsideClosedHasFailures(c, After(c, FRESH, calls[..i]))
      {
        FailuresStayWithOpen(c, calls, i);
      }
    }
  }

  lemma {:induction false} FailuresStayWithOpen(c: Config, calls: seq<Call>, i: nat)
    requires c.Valid() && i <= |calls|
    requires forall k: nat :: k < |calls| ==> !SuccessWhileOpen(c, calls, k)
    ensures OutsideClosedHasFailures(c, After(c, FRESH, calls[..i]))
    decreases i
  {
    if i > 0 {
      FailuresStayWithOpen(c, calls, i - 1);
      PrefixStep(c, FRESH, calls, i - 1);
      assert !SuccessWhileOpen(c, calls, i - 1);
    }
  }

  // ---- Quiet period -----------------------------------------------------------

  /**
   After a failure at call `i` that leaves the breaker Open, every later call whose
   reading is before `calls[i].now + openTimeout` finds it Open and not due: `Allow`
   refuses and `State` shows Open, whatever calls lie in between.
   */
  lemma {:induction false} QuietPeriod(c: Config, s0: Url, calls: seq<Call>, i: nat, j: nat)
    requires Ordered(calls)
    requires i < j < |calls|
    requires calls[i].op.Failure? && After(c, s0, calls[..i + 1]).state.Open?
    requires calls[j].now < calls[i].now + c.openTimeout
    ensures !Granted(c, After(c, s0, calls[..j]), calls[j].now)
    ensures Shown(c, After(c, s0, calls[..j]), calls[j].now) == Open
  {
    StaysOpen(c, s0, calls, i, j);
  }

  lemma {:induction false} StaysOpen(c: Config, s0: Url, calls: seq<Call>, i: nat, j: nat)
    requires Ordered(calls)
    requires i < j < |calls|
    requires calls[i].op.Failure? && After(c, s0, calls[..i + 1]).state.Open?
    requires calls[j].now < calls[i].now + c.openTimeout
    ensures var s := After(c, s0, calls[..j]); s.state.Open? && s.lastFailure >= calls[i].now
    decreases j
  {
    PrefixStep(c, s0, calls, i);
    if i + 1 < j {
      StaysOpen(c, s0, calls, i, j - 1);
      PrefixStep(c, s0, calls, j - 1);
      assert calls[j - 1].now <= calls[j].now;
    }
  }

  // ---- Trip spacing -----------------------------------------------------------

  ghost predicate Spaced(ts: seq<int>, gap: int) {
    forall i :: 0 <= i < |ts| - 1 ==> ts[i + 1] - ts[i] >= gap
  }

  lemma {:induction false} SpacedSpan(ts: seq<int>, gap: int)
    requires Spaced(ts, gap) && |ts| > 0
    ensures (|ts| - 1) * gap <= ts[|ts| - 1] - ts[0]
  {
    if |ts| > 1 {
      var front := ts[..|ts| - 1];
      SpacedSpan(front, gap);
      assert ts[|ts| - 2 + 1] - ts[|ts| - 2] >= gap;
      assert (|ts| - 1) * gap == (|ts| - 2) * gap + gap;
    }
  }

  /** What a run knows about its last trip. */
  lemma {:induction false} SinceLastTrip(c: Config, s0: Url, calls: seq<Call>)
    requires Ordered(calls) && c.Valid()
    ensures var ts := TripTimes(c, s0, calls);
            && Spaced(ts, c.openTimeout)
            && (forall t <- ts :: exists i :: 0 <= i < |calls| && calls[i].now == t)
            && (ts != [] ==>
                  var s := After(c, s0, calls);
                  var trip := ts[|ts| - 1];
                  && trip <= calls[|calls| - 1].now
                  && ((s.state.Open? && s.lastFailure >= trip) || calls[|calls| - 1].now >= trip + c.openTimeout))
  {
    if calls != [] {
      var before := calls[..|calls| - 1];
      SinceLastTrip(c, s0, before);
      forall t <- TripTimes(c, s0, calls)
        ensures exists i :: 0 <= i < |calls| && calls[i].now == t
      {
        if t in TripTimes(c, s0, before) {
          var i :| 0 <= i < |before| && before[i].now == t;
          assert calls[i].now == t;
        } else {
          assert calls[|calls| - 1].now == t;
        }
      }
    }
  }

  /**
   Consecutive trips of one URL are at least `openTimeout` apart, so `n` trips span at
   least `(n - 1) * openTimeout`.
   */
  lemma {:induction false} TripSpacing(c: Config, s0: Url, calls: seq<Call>)
    requires Ordered(calls) && c.Valid()
    ensures var ts := TripTimes(c, s0, calls);
            && (forall i :: 0 <= i < |ts| - 1 ==> ts[i + 1] - ts[i] >= c.openTimeout)
            && (ts != [] ==> (|ts| - 1) * c.openTimeout <= ts[|ts| - 1] - ts[0])
            && (ts != [] ==> (|ts| - 1) * c.openTimeout <= calls[|calls| - 1].now - calls[0].now)
  {
    SinceLastTrip(c, s0, calls);
    var ts := TripTimes(c, s0, calls);
    if ts != [] {
      SpacedSpan(ts, c.openTimeout);
      assert ts[0] in ts;
      assert ts[|ts| - 1] in ts;
      var i :| 0 <= i < |calls| && calls[i].now == ts[0];
      assert calls[0].now <= calls[i].now;
    }
  }
}
