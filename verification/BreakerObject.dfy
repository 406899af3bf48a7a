/**
 The circuit breaker as the object the worker holds: a map from URL to a mutable
 state record, updated in place, with a change callback that writes the Redis hash.
 Each public call is proved to be the next step of the pure run in `Mirror`, so
 everything proved there about runs holds of the object.

 Calls are taken one at a time here; their interleaving is the subject of `BreakerLocks`.
 */
module BreakerObject {
  import opened Prelude
  import opened Breaker
  import opened BreakerHistory
  import opened Mirror

  /** The state record behind one URL. */
  class UrlState {
    var state: State
    var failures: nat
    var lastFailure: int

    constructor ()
      ensures Value() == FRESH
    {
      state, failures, lastFailure := Closed, 0, ZERO_TIME;
    }

    ghost function Value(): Url
      reads this
    {
      Url(state, failures, lastFailure)
    }
  }

  /** The Redis hash that the callback overwrites. */
  class BreakerHash {
    var entries: map<string, Entry>

    constructor ()
      ensures entries == map[]
    {
      entries := map[];
    }

    method Sync(url: string, state: State, failures: nat, lastFailure: int)
      modifies this
      ensures entries == old(entries)[url := EntryOf(Notice(state, failures, lastFailure))]
      ensures entries == old(entries)[url := Entry(state, failures, if state.Open? then lastFailure + 30_000_000_000 else ZERO_TIME)]
    {
      var nextRetry := ZERO_TIME;
      if state == Open {
        nextRetry := lastFailure + CALLBACK_DELAY;
      }
      entries := entries[url := Entry(state, failures, nextRetry)];
    }
  }

  /** One line of the circuit-breaker listing. */
  datatype Info = Info(url: string, state: State, failures: nat, nextRetry: int)

  /** The listing's line for a URL; its elapsed test is strict where `State`'s is not. */
  function InfoOf(c: Config, url: string, s: Url, now: int): Info {
    if s.state.Open? then
      Info(url, if now - s.lastFailure > c.openTimeout then HalfOpen else Open, s.failures, s.lastFailure + c.openTimeout)
    else
      Info(url, s.state, s.failures, ZERO_TIME)
  }

  /** The listing shows what `State` would answer, except at the very instant an Open breaker becomes due. */
  lemma ListingAgreesWithState(c: Config, url: string, s: Url, now: int)
    ensures InfoOf(c, url, s, now).state == Shown(c, s, now)
       <==> !(s.state.Open? && now == s.lastFailure + c.openTimeout)
  {
  }

  /** The answers of the machine for a URL, read off the calls made for it. */
  lemma AnswersByHistory(c: Config, log: seq<UrlCall>, url: string, now: int)
    ensures var s, calls := Lookup(BreakerAfter(c, log), url), Project(log, url);
            && (Granted(c, s, now) <==> !Refused(c, calls, now))
            && (Shown(c, s, now).Open? <==> Refused(c, calls, now))
            && (Shown(c, s, now).Closed? <==> StateByHistory(c, calls).Closed?)
            && (Trips(c, s, Call(Failure, now)) <==>
                  || StateByHistory(c, calls).HalfOpen?
                  || (StateByHistory(c, calls).Closed? && FailureRun(calls) + 1 >= c.maxFailures))
  {
    var calls := Project(log, url);
    UrlsAreIndependent(c, log, url);
    RefusedExactlyWhen(c, calls, now);
    ShownByHistory(c, calls, now);
    RecordIsHistory(c, calls);
  }

  /**
   A line of the listing, read off the calls made for its URL: the failures since the last success;
   the last failure plus the timeout for an Open breaker, which is when `Allow` will next grant;
   and Half-Open instead of Open once that is past.
   */
  ghost predicate LineByHistory(c: Config, calls: seq<Call>, now: int, x: Info) {
    && x.failures == FailureRun(calls)
    && (StateByHistory(c, calls).Open? ==>
          && x.nextRetry == LastFailureTime(calls) + c.openTimeout
          && (forall t :: Refused(c, calls, t) <==> t < x.nextRetry)
          && x.state == if now > x.nextRetry then HalfOpen else Open)
    && (!StateByHistory(c, calls).Open? ==> x.nextRetry == ZERO_TIME && x.state == StateByHistory(c, calls))
  }

  lemma InfoIsHistory(c: Config, log: seq<UrlCall>, url: string, now: int)
    ensures LineByHistory(c, Project(log, url), now, InfoOf(c, url, Lookup(BreakerAfter(c, log), url), now))
  {
    var calls := Project(log, url);
    UrlsAreIndependent(c, log, url);
    RecordIsHistory(c, calls);
    forall t
      ensures StateByHistory(c, calls).Open? ==> (Refused(c, calls, t) <==> t < LastFailureTime(calls) + c.openTimeout)
    {
      RefusedExactlyWhen(c, calls, t);
    }
  }

  class UrlCircuitBreaker {
    const maxFailures: int
    const openTimeout: int
    var urlStates: map<string, UrlState>
    const onStateChange: BreakerHash

    ghost var log: seq<UrlCall>  // the calls made so far

    ghost function Configuration(): Config {
      Config(maxFailures, openTimeout)
    }

    /** Each URL has a record of its own. */
    ghost predicate Distinct()
      reads this
    {
      forall a, b :: a in urlStates && b in urlStates && a != b ==> urlStates[a] != urlStates[b]
    }

    ghost function Contents(): map<string, Url>
      reads this, urlStates.Values
    {
      map u | u in urlStates :: urlStates[u].Value()
    }

    /** The records are those of the run so far, and so is the hash behind the callback. */
    ghost predicate Valid()
      reads this, urlStates.Values, onStateChange
    {
      && Distinct()
      && Contents() == BreakerAfter(Configuration(), log)
      && onStateChange.entries == MirrorAfter(Configuration(), log)
    }

    constructor (maxFailures: int, openTimeout: int, hash: BreakerHash)
      requires hash.entries == map[]
      ensures Valid() && log == [] && urlStates == map[]
      ensures Configuration() == Config(maxFailures, openTimeout) && onStateChange == hash
    {
      this.maxFailures, this.openTimeout := maxFailures, openTimeout;
      urlStates := map[];
      onStateChange := hash;
      log := [];
    }

    /** Finds the URL's record, adding a fresh one when there is none; no record is ever replaced. */
    method GetUrlState(url: string) returns (st: UrlState)
      requires Distinct()
      modifies this`urlStates
      ensures Distinct()
      ensures url in urlStates && urlStates[url] == st
      ensures forall u :: u in old(urlStates) ==> u in urlStates && urlStates[u] == old(urlStates[u])
      ensures urlStates.Keys == old(urlStates.Keys) + {url}
      ensures url !in old(urlStates) ==> fresh(st)
      ensures st.Value() == Lookup(old(Contents()), url)
      ensures fresh(urlStates.Values - old(urlStates.Values))
    {
      if url in urlStates {
        return urlStates[url];
      }
      st := new UrlState();
      urlStates := urlStates[url := st];
    }

    method Allow(url: string, now: int) returns (allowed: bool)
      requires Valid()
      modifies this`urlStates, this`log, urlStates.Values, onStateChange
      ensures Valid() && fresh(urlStates.Values - old(urlStates.Values))
      ensures log == old(log) + [UrlCall(url, Call(Op.Allow, now))]
      ensures allowed == Granted(Configuration(), Lookup(old(Contents()), url), now)
      ensures allowed <==> !Refused(Configuration(), Project(old(log), url), now)
    {
      AnswersByHistory(Configuration(), log, url, now);
      allowed := Gate(url, now);
    }

    /** What `Allow` does, in terms of the machine. */
    method Gate(url: string, now: int) returns (allowed: bool)
      requires Valid()
      modifies this`urlStates, this`log, urlStates.Values, onStateChange
      ensures Valid() && fresh(urlStates.Values - old(urlStates.Values))
      ensures log == old(log) + [UrlCall(url, Call(Op.Allow, now))]
      ensures allowed == Granted(Configuration(), Lookup(old(Contents()), url), now)
    {
      var st := GetUrlState(url);
      ghost var was := st.Value();
      var oldState := st.state;
      allowed := true;
      if st.state == Open {
        if now - st.lastFailure >= openTimeout {
          st.state := HalfOpen;
          allowed := true;
        } else {
          allowed := false;
        }
      }
      if oldState != st.state {
        onStateChange.Sync(url, st.state, st.failures, st.lastFailure);
      }
      Logged(url, Call(Op.Allow, now), st, was);
    }

    method RecordSuccess(url: string, ghost now: int)
      requires Valid()
      modifies this`urlStates, this`log, urlStates.Values, onStateChange
      ensures Valid() && fresh(urlStates.Values - old(urlStates.Values))
      ensures log == old(log) + [UrlCall(url, Call(Success, now))]
    {
      var st := GetUrlState(url);
      ghost var was := st.Value();
      var oldState := st.state;
      if st.state == HalfOpen {
        st.state := Closed;
      }
      st.failures := 0;
      if oldState != st.state {
        onStateChange.Sync(url, st.state, 0, st.lastFailure);
      }
      Logged(url, Call(Success, now), st, was);
    }

    method RecordFailure(url: string, now: int) returns (tripped: bool)
      requires Valid()
      modifies this`urlStates, this`log, urlStates.Values, onStateChange
      ensures Valid() && fresh(urlStates.Values - old(urlStates.Values))
      ensures log == old(log) + [UrlCall(url, Call(Failure, now))]
      ensures tripped == Trips(Configuration(), Lookup(old(Contents()), url), Call(Failure, now))
      ensures var calls := Project(old(log), url);
              tripped <==> || StateByHistory(Configuration(), calls).HalfOpen?
                           || (StateByHistory(Configuration(), calls).Closed? && FailureRun(calls) + 1 >= maxFailures)
    {
      AnswersByHistory(Configuration(), log, url, now);
      tripped := NoteFailure(url, now);
    }

    /** What `RecordFailure` does, in terms of the machine. */
    method NoteFailure(url: string, now: int) returns (tripped: bool)
      requires Valid()
      modifies this`urlStates, this`log, urlStates.Values, onStateChange
      ensures Valid() && fresh(urlStates.Values - old(urlStates.Values))
      ensures log == old(log) + [UrlCall(url, Call(Failure, now))]
      ensures tripped == Trips(Configuration(), Lookup(old(Contents()), url), Call(Failure, now))
    {
      var st := GetUrlState(url);
      ghost var was := st.Value();
      var oldState := st.state;
      tripped := CountFailure(st, now);
      if oldState != st.state || st.state == Open {
        onStateChange.Sync(url, st.state, st.failures, st.lastFailure);
      }
      Logged(url, Call(Failure, now), st, was);
    }

    /** The locked section of `RecordFailure`. */
    method CountFailure(st: UrlState, now: int) returns (tripped: bool)
      modifies st
      ensures st.Value() == Locked(Configuration(), old(st.Value()), Call(Failure, now))
      ensures tripped == Trips(Configuration(), old(st.Value()), Call(Failure, now))
    {
      tripped := false;
      st.failures := st.failures + 1;
      st.lastFailure := now;
      if st.state == HalfOpen || st.failures >= maxFailures {
        if st.state != Open {
          st.state := Open;
          tripped := true;
        }
      }
    }

    method CurrentState(url: string, now: int) returns (state: State)
      requires Valid()
      modifies this`urlStates, this`log, urlStates.Values, onStateChange
      ensures Valid() && fresh(urlStates.Values - old(urlStates.Values))
      ensures log == old(log) + [UrlCall(url, Call(Query, now))]
      ensures state == Shown(Configuration(), Lookup(old(Contents()), url), now)
      ensures state.Open? <==> Refused(Configuration(), Project(old(log), url), now)
      ensures state.Closed? <==> StateByHistory(Configuration(), Project(old(log), url)).Closed?
    {
      AnswersByHistory(Configuration(), log, url, now);
      state := Look(url, now);
    }

    /** What `State` does, in terms of the machine. */
    method Look(url: string, now: int) returns (state: State)
      requires Valid()
      modifies this`urlStates, this`log, urlStates.Values, onStateChange
      ensures Valid() && fresh(urlStates.Values - old(urlStates.Values))
      ensures log == old(log) + [UrlCall(url, Call(Query, now))]
      ensures state == Shown(Configuration(), Lookup(old(Contents()), url), now)
    {
      var st := GetUrlState(url);
      ghost var was := st.Value();
      var oldState := st.state;
      if st.state == Open && now - st.lastFailure >= openTimeout {
        st.state := HalfOpen;
      }
      state := st.state;
      if oldState != st.state {
        onStateChange.Sync(url, st.state, st.failures, st.lastFailure);
      }
      Logged(url, Call(Query, now), st, was);
    }

    /** Extends the history by a call whose effects are already in place. */
    ghost method Logged(url: string, call: Call, st: UrlState, was: Url)
      requires Distinct() && url in urlStates && urlStates[url] == st
      requires was == Lookup(BreakerAfter(Configuration(), log), url)
      requires st.Value() == Locked(Configuration(), was, call)
      requires urlStates.Keys == BreakerAfter(Configuration(), log).Keys + {url}
      requires forall u :: u in urlStates && u != url ==> urlStates[u].Value() == BreakerAfter(Configuration(), log)[u]
      requires var hash := MirrorAfter(Configuration(), log);
               onStateChange.entries == match NoticeOf(Configuration(), was, call)
                                        case None => hash
                                        case Some(n) => hash[url := EntryOf(n)]
      modifies this`log
      ensures log == old(log) + [UrlCall(url, call)]
      ensures Valid()
    {
      ghost var before := log;
      log := log + [UrlCall(url, call)];
      assert log[..|log| - 1] == before;
      assert Contents() == BreakerAfter(Configuration(), log);
    }

    /**
     Lists every known URL once, in no particular order, and changes nothing; `now` gives the
     clock reading for each line.
     */
    method GetBreakers(now: nat -> int) returns (infos: seq<Info>)
      requires Valid()
      ensures |infos| == |urlStates|
      ensures forall u :: u in urlStates ==> exists i: nat :: i < |infos| && infos[i].url == u
      ensures forall i: nat :: i < |infos| ==>
                infos[i].url in urlStates && infos[i] == InfoOf(Configuration(), infos[i].url, Contents()[infos[i].url], now(i))
      ensures forall i: nat :: i < |infos| ==> LineByHistory(Configuration(), Project(log, infos[i].url), now(i), infos[i])
    {
      infos := Lines(now);
      forall i: nat | i < |infos|
        ensures LineByHistory(Configuration(), Project(log, infos[i].url), now(i), infos[i])
      {
        InfoIsHistory(Configuration(), log, infos[i].url, now(i));
      }
    }

    /** The listing, in terms of the records. */
    method Lines(now: nat -> int) returns (infos: seq<Info>)
      ensures |infos| == |urlStates|
      ensures forall u :: u in urlStates ==> exists i: nat :: i < |infos| && infos[i].url == u
      ensures forall i: nat :: i < |infos| ==>
                infos[i].url in urlStates && infos[i] == InfoOf(Configuration(), infos[i].url, Contents()[infos[i].url], now(i))
    {
      infos := [];
      var left := urlStates.Keys;
      while left != {}
        invariant left <= urlStates.Keys
        invariant |infos| + |left| == |urlStates.Keys|
        invariant forall u :: u in urlStates && u !in left ==> exists i: nat :: i < |infos| && infos[i].url == u
        invariant forall i: nat :: i < |infos| ==>
                    infos[i].url in urlStates && infos[i] == InfoOf(Configuration(), infos[i].url, Contents()[infos[i].url], now(i))
        decreases |left|
      {
        var url :| url in left;
        var st := urlStates[url];
        var actualState, nextRetry := st.state, ZERO_TIME;
        if st.state == Open {
          nextRetry := st.lastFailure + openTimeout;
          if now(|infos|) - st.lastFailure > openTimeout {
            actualState := HalfOpen;
          }
        }
        ghost var before := infos;
        infos := infos + [Info(url, actualState, st.failures, nextRetry)];
        assert infos[|before|].url == url;
        assert forall i: nat :: i < |before| ==> infos[i] == before[i];
        left := left - {url};
      }
    }
  }
}
