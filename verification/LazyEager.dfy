/**
 The breaker leaves Open lazily, inside `Allow` or `State`. This module compares it
 with an eager breaker, which a timer turns Half-Open at exactly
 `lastFailure + openTimeout`, and says exactly when nobody can tell the two apart.
 */
module LazyEager {
  import opened Breaker

  /** What the timer has made of `s` by time `now`. */
  function Ripen(c: Config, s: Url, now: int): Url {
    if Due(c, s, now) then s.(state := HalfOpen) else s
  }

  function EagerAfter(c: Config, calls: seq<Call>): Url {
    if calls == [] then FRESH
    else
      var last := calls[|calls| - 1];
      Locked(c, Ripen(c, EagerAfter(c, calls[..|calls| - 1]), last.now), last)
  }

  function EagerTrips(c: Config, calls: seq<Call>): nat {
    if calls == [] then 0
    else
      var before := calls[..|calls| - 1];
      var last := calls[|calls| - 1];
      EagerTrips(c, before) + if Trips(c, Ripen(c, EagerAfter(c, before), last.now), last) then 1 else 0
  }

  function LazyTrips(c: Config, calls: seq<Call>): nat {
    |TripTimes(c, FRESH, calls)|
  }

  /**
   After these calls the two breakers have tripped equally often, and from now on
   they answer `State` and `Allow` alike whenever the next call is.
   */
  ghost predicate Indistinguishable(c: Config, calls: seq<Call>) {
    && LazyTrips(c, calls) == EagerTrips(c, calls)
    && forall t :: (calls != [] ==> calls[|calls| - 1].now <= t) ==>
         && Shown(c, After(c, FRESH, calls), t) == Shown(c, EagerAfter(c, calls), t)
         && Granted(c, After(c, FRESH, calls), t) == Granted(c, EagerAfter(c, calls), t)
  }

  /** Call `i` records an outcome on an Open breaker whose timeout has already elapsed. */
  ghost predicate LateOutcome(c: Config, calls: seq<Call>, i: nat)
    requires i < |calls|
  {
    && (calls[i].op.Success? || calls[i].op.Failure?)
    && Due(c, After(c, FRESH, calls[..i]), calls[i].now)
  }

  ghost predicate NoLateOutcome(c: Config, calls: seq<Call>) {
    forall i :: 0 <= i < |calls| ==> !LateOutcome(c, calls, i)
  }

  /**
   The lazy breaker is indistinguishable from the eager one throughout a run if and
   only if no outcome is recorded on an Open breaker whose timeout has elapsed.
   */
  lemma {:induction false} LazyEqualsEager(c: Config, calls: seq<Call>)
    requires Ordered(calls) && c.Valid()
    ensures NoLateOutcome(c, calls) <==> forall i :: 0 <= i <= |calls| ==> Indistinguishable(c, calls[..i])
  {
    if NoLateOutcome(c, calls) {
      forall i | 0 <= i <= |calls|
        ensures Indistinguishable(c, calls[..i])
      {
        NoLatePrefix(c, calls, i);
        SameOnceRipe(c, calls[..i]);
        SameAnswers(c, calls[..i]);
      }
    } else {
      var i: nat :| i < |calls| && LateOutcome(c, calls, i) && NoLateOutcome(c, calls[..i]) by {
        FirstLate(c, calls);
      }
      LateOutcomeShows(c, calls, i);
    }
  }

  lemma NoLatePrefix(c: Config, calls: seq<Call>, n: nat)
    requires n <= |calls| && NoLateOutcome(c, calls)
    ensures NoLateOutcome(c, calls[..n])
  {
    forall i | 0 <= i < n
      ensures !LateOutcome(c, calls[..n], i)
    {
      assert calls[..n][..i] == calls[..i];
      assert !LateOutcome(c, calls, i);
    }
  }

  lemma {:induction false} FirstLate(c: Config, calls: seq<Call>)
    requires !NoLateOutcome(c, calls)
    ensures exists i :: 0 <= i < |calls| && LateOutcome(c, calls, i) && NoLateOutcome(c, calls[..i])
  {
    var i :| 0 <= i < |calls| && LateOutcome(c, calls, i);
    if !NoLateOutcome(c, calls[..i]) {
      FirstLate(c, calls[..i]);
      var k :| 0 <= k < i && LateOutcome(c, calls[..i], k) && NoLateOutcome(c, calls[..i][..k]);
      assert calls[..i][..k] == calls[..k];
      assert LateOutcome(c, calls, k);
    }
  }

  /** Without late outcomes the two machines coincide as soon as both have been looked at. */
  lemma {:induction false} SameOnceRipe(c: Config, calls: seq<Call>)
    requires Ordered(calls) && c.Valid() && NoLateOutcome(c, calls)
    ensures LazyTrips(c, calls) == EagerTrips(c, calls)
    ensures forall t :: (calls != [] ==> calls[|calls| - 1].now <= t) ==>
              Ripen(c, After(c, FRESH, calls), t) == Ripen(c, EagerAfter(c, calls), t)
  {
    if calls != [] {
      var n := |calls| - 1;
      var before := calls[..n];
      NoLatePrefix(c, calls, n);
      SameOnceRipe(c, before);
      var last := calls[n];
      assert !LateOutcome(c, calls, n);
      assert Ripen(c, After(c, FRESH, before), last.now) == Ripen(c, EagerAfter(c, before), last.now);
    }
  }

  /** Two machines that ripen into the same state give the same answers. */
  lemma SameAnswers(c: Config, calls: seq<Call>)
    requires LazyTrips(c, calls) == EagerTrips(c, calls)
    requires forall t :: (calls != [] ==> calls[|calls| - 1].now <= t) ==>
               Ripen(c, After(c, FRESH, calls), t) == Ripen(c, EagerAfter(c, calls), t)
    ensures Indistinguishable(c, calls)
  {
    forall t | calls != [] ==> calls[|calls| - 1].now <= t
      ensures Shown(c, After(c, FRESH, calls), t) == Shown(c, EagerAfter(c, calls), t)
      ensures Granted(c, After(c, FRESH, calls), t) == Granted(c, EagerAfter(c, calls), t)
    {
      assert Ripen(c, After(c, FRESH, calls), t) == Ripen(c, EagerAfter(c, calls), t);
    }
  }

  /** A late outcome is visible at once: a failure in the trip count, a success in the state shown. */
  lemma LateOutcomeShows(c: Config, calls: seq<Call>, i: nat)
    requires i < |calls| && c.Valid() && Ordered(calls)
    requires LateOutcome(c, calls, i) && NoLateOutcome(c, calls[..i])
    ensures !Indistinguishable(c, calls[..i + 1])
  {
    var before := calls[..i];
    var upTo := calls[..i + 1];
    assert upTo[..i] == before;
    SameOnceRipe(c, before);
    var t := calls[i].now;
    assert Ripen(c, After(c, FRESH, before), t) == Ripen(c, EagerAfter(c, before), t);
    if calls[i].op.Success? {
      assert Shown(c, After(c, FRESH, upTo), t) == HalfOpen;
      assert Shown(c, EagerAfter(c, upTo), t) == Closed;
    } else {
      assert LazyTrips(c, upTo) == LazyTrips(c, before);
      assert EagerTrips(c, upTo) == EagerTrips(c, before) + 1;
    }
  }

  // ---- A discipline that rules late outcomes out ---------------------------------

  /**
   Each recorded outcome belongs to a granted `Allow` (`own` names it) and comes less
   than `openTimeout` after it.
   */
  ghost predicate Prompt(c: Config, calls: seq<Call>, own: map<nat, nat>) {
    forall k: nat :: k < |calls| && (calls[k].op.Success? || calls[k].op.Failure?) ==>
      && k in own
      && own[k] < k
      && calls[own[k]].op.Allow?
      && Granted(c, After(c, FRESH, calls[..own[k]]), calls[own[k]].now)
      && calls[k].now - calls[own[k]].now < c.openTimeout
  }

  /**
   When every outcome is prompt, no outcome is late, so the lazy breaker behaves as
   the eager one in every prefix of the run.
   */
  lemma PromptOutcomesMakeLazyEager(c: Config, calls: seq<Call>, own: map<nat, nat>)
    requires Ordered(calls) && c.Valid()
    requires Prompt(c, calls, own)
    ensures NoLateOutcome(c, calls)
    ensures forall i :: 0 <= i <= |calls| ==> Indistinguishable(c, calls[..i])
  {
    forall k: nat | k < |calls|
      ensures !LateOutcome(c, calls, k)
    {
      PromptIsNotLate(c, calls, own, k);
    }
    LazyEqualsEager(c, calls);
  }

  lemma PromptIsNotLate(c: Config, calls: seq<Call>, own: map<nat, nat>, k: nat)
    requires Ordered(calls) && c.Valid() && Prompt(c, calls, own) && k < |calls|
    ensures !LateOutcome(c, calls, k)
  {
    if LateOutcome(c, calls, k) {
      var g := own[k];
      OpenBackTo(c, FRESH, calls, g, k);
      OpenBackTo(c, FRESH, calls, g + 1, k);
      PrefixStep(c, FRESH, calls, g);
      assert false;
    }
  }

  /** If the breaker is Open at `k` on a failure older than call `g`, nothing touched it since then. */
  lemma {:induction false} OpenBackTo(c: Config, s0: Url, calls: seq<Call>, g: nat, k: nat)
    requires Ordered(calls) && g <= k <= |calls|
    requires var s := After(c, s0, calls[..k]);
             s.state.Open? && (g < k ==> s.lastFailure < calls[g].now)
    ensures After(c, s0, calls[..g]).state.Open?
    ensures After(c, s0, calls[..g]).lastFailure == After(c, s0, calls[..k]).lastFailure
    decreases k - g
  {
    if g < k {
      PrefixStep(c, s0, calls, k - 1);
      assert calls[g].now <= calls[k - 1].now;
      OpenBackTo(c, s0, calls, g, k - 1);
    }
  }

  /**
   Promptness is needed: a delivery granted at 0 that fails at 40, after the breaker
   opened at 1 with a timeout of 30, counts as a trip for the eager breaker only.
   */
  lemma SlowOutcomeTellsThemApart()
    ensures var c := Config(1, 30);
            var calls := [Call(Allow, 0), Call(Allow, 0), Call(Failure, 1), Call(Failure, 40)];
            LateOutcome(c, calls, 3) && LazyTrips(c, calls) == 1 && EagerTrips(c, calls) == 2
  {
    var c := Config(1, 30);
    var calls := [Call(Allow, 0), Call(Allow, 0), Call(Failure, 1), Call(Failure, 40)];
    assert calls[..3] == [Call(Allow, 0), Call(Allow, 0), Call(Failure, 1)];
    assert calls[..3][..2] == [Call(Allow, 0), Call(Allow, 0)];
    assert [Call(Allow, 0), Call(Allow, 0)][..1] == [Call(Allow, 0)];
    assert [Call(Allow, 0)][..0] == [];
    assert After(c, FRESH, [Call(Allow, 0)]) == FRESH == EagerAfter(c, [Call(Allow, 0)]);
    assert After(c, FRESH, calls[..3][..2]) == FRESH == EagerAfter(c, calls[..3][..2]);
    assert LazyTrips(c, calls[..3][..2]) == 0 == EagerTrips(c, calls[..3][..2]);
    assert After(c, FRESH, calls[..3]) == Url(Open, 1, 1) == EagerAfter(c, calls[..3]);
  }
}
