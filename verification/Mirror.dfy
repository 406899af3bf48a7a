/**
 The breaker over all URLs, and the copy of its state that the worker's change
 callback keeps in the Redis hash `apishield:circuit_breakers`.
 */
module Mirror {
  import opened Prelude
  import opened Breaker

  /** The worker's breaker: five failures, thirty seconds. */
  const WORKER: Config := Config(5, 30 * SECOND)

  /** The delay the callback adds to the last failure; it is written out there, not read from the breaker. */
  const CALLBACK_DELAY: int := 30 * SECOND

  /** A call on the whole breaker. */
  datatype UrlCall = UrlCall(url: string, call: Call)

  datatype Notice = Notice(state: State, failures: nat, lastFailure: int)

  datatype Entry = Entry(state: State, failures: nat, nextRetry: int)

  /** What a call reports to the change callback after releasing the URL's mutex. */
  function NoticeOf(c: Config, s: Url, call: Call): Option<Notice> {
    var after := Locked(c, s, call);
    if s.state != after.state || (call.op.Failure? && after.state.Open?)
    then Some(Notice(after.state, after.failures, after.lastFailure))
    else None
  }

  /** What the callback writes for a notice. */
  function EntryOf(n: Notice): Entry {
    Entry(n.state, n.failures, if n.state.Open? then n.lastFailure + CALLBACK_DELAY else ZERO_TIME)
  }

  function Lookup(urls: map<string, Url>, url: string): Url {
    if url in urls then urls[url] else FRESH
  }

  /** All URL states after a run of calls, in the order of their locked sections. */
  function BreakerAfter(c: Config, log: seq<UrlCall>): map<string, Url> {
    if log == [] then map[]
    else
      var before := BreakerAfter(c, log[..|log| - 1]);
      var last := log[|log| - 1];
      before[last.url := Locked(c, Lookup(before, last.url), last.call)]
  }

  /** A call changes its own URL's state, by one step, and no other. */
  lemma LookupAfterCall(c: Config, log: seq<UrlCall>, last: UrlCall, url: string)
    ensures Lookup(BreakerAfter(c, log + [last]), url)
         == var s := Lookup(BreakerAfter(c, log), url);
            if last.url == url then Locked(c, s, last.call) else s
  {
    assert (log + [last])[..|log|] == log;
  }

  /** The Redis hash after the same run, when notices are applied in that order. */
  function MirrorAfter(c: Config, log: seq<UrlCall>): map<string, Entry> {
    if log == [] then map[]
    else
      var hash := MirrorAfter(c, log[..|log| - 1]);
      var last := log[|log| - 1];
      match NoticeOf(c, Lookup(BreakerAfter(c, log[..|log| - 1]), last.url), last.call)
      case None => hash
      case Some(n) => hash[last.url := EntryOf(n)]
  }

  /** The calls of a run that concern one URL. */
  function Project(log: seq<UrlCall>, url: string): seq<Call> {
    if log == [] then []
    else
      var last := log[|log| - 1];
      Project(log[..|log| - 1], url) + if last.url == url then [last.call] else []
  }

  /** URLs do not interfere: each URL's state is that of a breaker which saw its calls only. */
  lemma {:induction false} UrlsAreIndependent(c: Config, log: seq<UrlCall>, url: string)
    ensures Lookup(BreakerAfter(c, log), url) == After(c, FRESH, Project(log, url))
    ensures url in BreakerAfter(c, log) <==> Project(log, url) != []
  {
    if log != [] {
      var last := log[|log| - 1];
      var before := Project(log[..|log| - 1], url);
      UrlsAreIndependent(c, log[..|log| - 1], url);
      if last.url == url {
        assert (before + [last.call])[..|before|] == before;
      } else {
        assert Project(log, url) == before;
      }
    }
  }

  /**
   The mirror after every run: an entry is present exactly for URLs that have tripped;
   it shows the breaker's state; a missing entry means Closed; an Open entry's next
   retry is the last failure plus the delay, also after failures recorded while Open.
   */
  lemma {:induction false} MirrorAgrees(c: Config, log: seq<UrlCall>, url: string)
    requires c.Valid()
    ensures var s := Lookup(BreakerAfter(c, log), url);
            var hash := MirrorAfter(c, log);
            && (url in hash <==> TripTimes(c, FRESH, Project(log, url)) != [])
            && (url !in hash ==> s.state.Closed?)
            && (url in hash ==>
                  && hash[url].state == s.state
                  && hash[url].nextRetry == (if s.state.Open? then s.lastFailure + 30_000_000_000 else ZERO_TIME))
  {
    if log != [] {
      var shorter := log[..|log| - 1];
      var last := log[|log| - 1];
      MirrorAgrees(c, shorter, url);
      UrlsAreIndependent(c, shorter, url);
      var before := Project(shorter, url);
      if last.url == url {
        assert (before + [last.call])[..|before|] == before;
      } else {
        assert Project(log, url) == before;
      }
    }
  }

  /** With the worker's own configuration the mirrored retry time is when `Allow` will next grant. */
  lemma OpenEntryRetryIsExact(log: seq<UrlCall>, url: string, now: int)
    requires url in MirrorAfter(WORKER, log) && MirrorAfter(WORKER, log)[url].state.Open?
    ensures WORKER == Config(5, 30_000_000_000)
    ensures Granted(WORKER, Lookup(BreakerAfter(WORKER, log), url), now)
       <==> now >= MirrorAfter(WORKER, log)[url].nextRetry
  {
    MirrorAgrees(WORKER, log, url);
  }

  /**
   The mirrored failure count is not kept current. It equals the breaker's exactly
   when an Open breaker has failures and a Closed one has none: a success while Open
   and failures below the threshold are not reported.
   */
  lemma {:induction false} MirroredFailureCount(c: Config, log: seq<UrlCall>, url: string)
    requires c.Valid()
    requires url in MirrorAfter(c, log)
    ensures var s := Lookup(BreakerAfter(c, log), url);
            (MirrorAfter(c, log)[url].failures == s.failures
             <==> (s.state.Open? ==> s.failures > 0) && (s.state.Closed? ==> s.failures == 0))
  {
    FailureCountShape(c, log, url);
  }

  lemma {:induction false} FailureCountShape(c: Config, log: seq<UrlCall>, url: string)
    requires c.Valid()
    ensures var s := Lookup(BreakerAfter(c, log), url);
            var hash := MirrorAfter(c, log);
            url in hash ==>
              && hash[url].state == s.state
              && (s.state.Open? ==> hash[url].failures > 0 && (s.failures == 0 || s.failures == hash[url].failures))
              && (s.state.HalfOpen? ==> hash[url].failures == s.failures)
              && (s.state.Closed? ==> hash[url].failures == 0)
  {
    if log != [] {
      FailureCountShape(c, log[..|log| - 1], url);
      MirrorAgrees(c, log[..|log| - 1], url);
    }
  }

  /** The count does go stale: a success recorded while Open leaves it at one when the breaker has none. */
  lemma FailureCountGoesStale(url: string)
    ensures var c := Config(1, 30 * SECOND);
            var log := [UrlCall(url, Call(Failure, 0)), UrlCall(url, Call(Success, 1))];
            && url in MirrorAfter(c, log) && MirrorAfter(c, log)[url].failures == 1
            && Lookup(BreakerAfter(c, log), url) == Url(Open, 0, 0)
  {
    var c := Config(1, 30 * SECOND);
    var log := [UrlCall(url, Call(Failure, 0)), UrlCall(url, Call(Success, 1))];
    assert log[..1] == [UrlCall(url, Call(Failure, 0))] && log[..1][..0] == [];
    assert BreakerAfter(c, log[..1]) == map[url := Url(Open, 1, 0)];
    assert MirrorAfter(c, log[..1]) == map[url := Entry(Open, 1, 30 * SECOND)];
  }

  // ---- Notices that arrive in another order, or not at all ---------------------------------

  /** The notices of a URL, in the order of its transitions. */
  function Notices(c: Config, log: seq<UrlCall>, url: string): seq<Notice> {
    if log == [] then []
    else
      var shorter, last := log[..|log| - 1], log[|log| - 1];
      Notices(c, shorter, url) +
      if last.url != url then []
      else
        match NoticeOf(c, Lookup(BreakerAfter(c, shorter), url), last.call)
        case None => []
        case Some(n) => [n]
  }

  /**
   The URL's entry when writes take effect in the order `applied`, which names notices by
   their place. The callback runs after the mutex is released and ignores failed writes, so
   any order is possible and notices may be missing.
   */
  function EntryAfter(notices: seq<Notice>, applied: seq<nat>): Option<Entry>
    requires Places(notices, applied)
  {
    if applied == [] then None else Some(EntryOf(notices[applied[|applied| - 1]]))
  }

  predicate Places(notices: seq<Notice>, applied: seq<nat>) {
    forall i :: 0 <= i < |applied| ==> applied[i] < |notices|
  }

  /** What the entry should say of the breaker's state and retry time; no entry says Closed. */
  ghost predicate Shows(entry: Option<Entry>, s: Url) {
    match entry
    case None => s.state.Closed?
    case Some(e) => e.state == s.state && e.nextRetry == if s.state.Open? then s.lastFailure + CALLBACK_DELAY else ZERO_TIME
  }

  /** The last notice is current, and the hash of an orderly run holds it. */
  lemma {:induction false} LastNoticeIsCurrent(c: Config, log: seq<UrlCall>, url: string)
    ensures var s, ns := Lookup(BreakerAfter(c, log), url), Notices(c, log, url);
            && (url in MirrorAfter(c, log) <==> ns != [])
            && (ns == [] ==> s.state.Closed?)
            && (ns != [] ==>
                  && MirrorAfter(c, log)[url] == EntryOf(ns[|ns| - 1])
                  && ns[|ns| - 1].state == s.state
                  && (s.state.Open? ==> ns[|ns| - 1].lastFailure == s.lastFailure))
  {
    if log != [] {
      LastNoticeIsCurrent(c, log[..|log| - 1], url);
    }
  }

  /**
   Whatever order the notices of a run are applied in, and whichever are lost, the entry shows
   the breaker's state and retry time if and only if the last one applied says what the last
   one sent says: the same state, and the same failure when that is Open. When all are lost it
   is right if and only if none was sent or the last one sent says Closed.
   */
  lemma AnyOrderShowsIff(c: Config, log: seq<UrlCall>, url: string, applied: seq<nat>)
    requires Places(Notices(c, log, url), applied)
    ensures var ns := Notices(c, log, url);
            Shows(EntryAfter(ns, applied), Lookup(BreakerAfter(c, log), url)) <==>
              if applied == [] then ns == [] || ns[|ns| - 1].state.Closed?
              else
                var made, sent := ns[applied[|applied| - 1]], ns[|ns| - 1];
                made.state == sent.state && (sent.state.Open? ==> made.lastFailure == sent.lastFailure)
  {
    LastNoticeIsCurrent(c, log, url);
  }

  /** Readings of the URL's calls strictly increase. */
  ghost predicate Increasing(log: seq<UrlCall>) {
    forall i, j :: 0 <= i < j < |log| ==> log[i].call.now < log[j].call.now
  }

  /** An Open notice tells of a failure of the run, later ones of later failures. */
  lemma {:induction false} OpenNoticesIncrease(c: Config, log: seq<UrlCall>, url: string)
    requires Increasing(log)
    ensures forall k :: 0 <= k < |Notices(c, log, url)| && Notices(c, log, url)[k].state.Open? ==>
              log != [] && Notices(c, log, url)[k].lastFailure <= log[|log| - 1].call.now
    ensures forall k, l :: 0 <= k < l < |Notices(c, log, url)| && Notices(c, log, url)[k].state.Open? && Notices(c, log, url)[l].state.Open? ==>
              Notices(c, log, url)[k].lastFailure < Notices(c, log, url)[l].lastFailure
  {
    if log != [] {
      var shorter, last := log[..|log| - 1], log[|log| - 1];
      OpenNoticesIncrease(c, shorter, url);
      assert shorter != [] ==> shorter[|shorter| - 1].call.now < last.call.now;
    }
  }

  /**
   At strictly increasing readings: the entry is right if and only if the last notice sent is
   the last one applied, or neither is Open and both say the same state. An Open breaker's
   retry time is wrong whenever its newest notice is not the last one applied.
   */
  lemma OvertakenNoticeShowsIff(c: Config, log: seq<UrlCall>, url: string, applied: seq<nat>)
    requires Increasing(log)
    requires applied != [] && Places(Notices(c, log, url), applied)
    ensures var ns := Notices(c, log, url);
            var k := applied[|applied| - 1];
            Shows(EntryAfter(ns, applied), Lookup(BreakerAfter(c, log), url)) <==>
              k == |ns| - 1 || (ns[k].state == ns[|ns| - 1].state && !ns[k].state.Open?)
  {
    AnyOrderShowsIff(c, log, url, applied);
    OpenNoticesIncrease(c, log, url);
  }

  /**
   Of two consecutive notices in the other order: the state is right if and only if the second
   is for a failure recorded on an Open breaker, and the retry time too if and only if that
   failure has the reading of the first.
   */
  lemma SwappedNoticesAgreeIff(c: Config, s: Url, first: Call, second: Call)
    requires NoticeOf(c, s, first).Some? && NoticeOf(c, Locked(c, s, first), second).Some?
    ensures EntryOf(NoticeOf(c, s, first).value).state == Locked(c, Locked(c, s, first), second).state
       <==> Locked(c, s, first).state.Open? && second.op.Failure?
    ensures Shows(Some(EntryOf(NoticeOf(c, s, first).value)), Locked(c, Locked(c, s, first), second))
       <==> Locked(c, s, first).state.Open? && second.op.Failure? && second.now == Locked(c, s, first).lastFailure
  {
  }

  /** A run whose last two notices, of a probe and its success, leave Half-Open in the hash of a Closed breaker. */
  lemma SwappedNoticesDisagree(url: string)
    ensures var c := Config(1, 30 * SECOND);
            var log := [UrlCall(url, Call(Failure, 0)), UrlCall(url, Call(Allow, 30 * SECOND)), UrlCall(url, Call(Success, 31 * SECOND))];
            && |Notices(c, log, url)| == 3
            && Lookup(BreakerAfter(c, log), url).state.Closed?
            && EntryAfter(Notices(c, log, url), [0, 2, 1]) == Some(Entry(HalfOpen, 1, ZERO_TIME))
  {
    var c := Config(1, 30 * SECOND);
    var log := [UrlCall(url, Call(Failure, 0)), UrlCall(url, Call(Allow, 30 * SECOND)), UrlCall(url, Call(Success, 31 * SECOND))];
    assert log[..2][..1] == log[..1] && log[..1][..0] == [];
    assert log[..1] == [UrlCall(url, Call(Failure, 0))];
    assert BreakerAfter(c, log[..1]) == map[url := Url(Open, 1, 0)];
    assert BreakerAfter(c, log[..2]) == map[url := Url(HalfOpen, 1, 0)];
    assert BreakerAfter(c, log) == map[url := Url(Closed, 0, 0)];
    assert Notices(c, log[..1], url) == [Notice(Open, 1, 0)];
    assert Notices(c, log[..2], url) == [Notice(Open, 1, 0), Notice(HalfOpen, 1, 0)];
    assert Notices(c, log, url) == [Notice(Open, 1, 0), Notice(HalfOpen, 1, 0), Notice(Closed, 0, 0)];
  }
}
