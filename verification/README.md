# APIShield, verified

A Dafny model of the three stateful protocols of APIShield, with proofs of what they keep
over whole runs:

* **Circuit breaker and delivery worker.** A Closed / Open / Half-Open machine per target
  URL that leaves Open lazily (`Breaker`, `LazyEager`), its answers read off the history of
  calls (`BreakerHistory`), the map of URL records and the Redis
  hash that mirrors it (`Mirror`, `BreakerObject`), its two kinds of lock under every
  interleaving (`BreakerLocks`), the timed retry loop (`Retry`), and a hundred concurrent
  deliveries around a target: the load on it when it never answers, and how soon outcomes are
  recorded (`DeadTarget`, `WorkerLoad`).
* **Two-tier sliding-window limiter.** The 256-shard cache with its FNV-1a hash (`Cache`), the
  Lua script on a pruned and expiring sorted set (`SlidingWindow`), a fleet of gateways with
  leases and unreliable invalidations (`LeaseFleet`, `LeaseLimits`, `LeaseSpacing`,
  `Crowding`), the limiter object and a deployment of many (`TwoTierLimiter`), and the choice of
  limit and bucket (`Policy`).
* **Webhook pipeline.** The events table (`EventStore`), ingest, replay, queue and worker as
  one transition system (`Pipeline`), what overlapping replays do to it (`Overlap`), what can
  still become of a row (`RowFate`), how often a key is delivered (`Duplicates`, both with
  `Draining`), and the handlers as sequential code that performs its moves (`Handlers`).

`dafny verify dfyconfig.toml` checks everything.

## How the model is built

Each protocol has a pure transition system: a state datatype, moves, and a run as a sequence
of moves. Main results are statements about every run. Next to it stand classes with mutable
fields for the program's objects; each method is proved to perform steps of the transition
system, so the results about runs apply to them. In the breaker and cache objects a ghost
history of calls is tied to the fields by `Valid()`. In the handlers a ghost pipeline state is
tied to the store and the queue, and `Pipeline.LeadsIsExecute` turns "these moves lead from
here to there" into "is a run"; the delivery handler carries the `DeadTarget` state of one
target as well. Redis carries the fleet's state for one key; every path of a limiter's calls,
errors and invalidations included, is proved to be moves of that fleet, and a call on one
gateway of a deployment keeps all others in step.

Clock readings, Redis time, UUIDs, HTTP responses and the success or failure of database
writes, queries, publishes and script calls are parameters, quantified over everywhere.
Clocks of one process do not go back. Integers are unbounded except in the hash, which is
computed on 32-bit words.

## Where the code is not what one might expect

* The repository's `README.md:136` announces backoffs of 1s, 2s and 4s; the code waits only between attempts, so
  three attempts wait 1s and 2s (`Retry.DeliverWithRetry`).
* An Open breaker need not have counted `maxFailures` failures
  (`Breaker.OpenCanHaveNoFailures`); it has, throughout a run, exactly when no success is
  recorded while Open (`Breaker.FailuresBackOpenIff`).
* The listing tests `>` where `State` tests `>=`; they differ at exactly one instant
  (`BreakerObject.ListingAgreesWithState`).
* An outcome recorded long after its grant makes the lazy breaker differ from an eager one
  (`LazyEager.SlowOutcomeTellsThemApart`); `LazyEager.LazyEqualsEager` says exactly when.
* The mirrored failure count goes stale (`Mirror.FailureCountGoesStale`, exactly when:
  `Mirror.MirroredFailureCount`). Notices applied out of order, or lost, leave a wrong state or
  retry time (`Mirror.SwappedNoticesDisagree`, exactly when: `Mirror.AnyOrderShowsIff`,
  `Mirror.OvertakenNoticeShowsIff`).
* Grants from a gateway's cache are not counted in Redis, so the limit bounds the admissions by
  Redis in a window, and all grants in it only when it allows none
  (`LeaseLimits.CacheGrantsAreUncounted`, `LeaseLimits.LimitBoundsAllGrantsIff`). An invalidation
  delivered between evaluation and store has no effect
  (`LeaseLimits.InvalidationBeforeStoreIsIgnored`, exactly when:
  `LeaseLimits.InvalidationTakesEffectIff`). A window below ten nanoseconds makes leases
  permanent (`LeaseFleet.LeaseLapsesIff`).
* A duplicate idempotency key prevents the row, not the delivery
  (`Duplicates.DuplicateIsStillQueued`, a run with two deliveries:
  `Duplicates.OneKeyDeliveredTwice`); a key is delivered at most once exactly when it is accepted
  and replayed at most once (`Duplicates.AtMostOnceIffAcceptedOnce`).
* A failed publish leaves its row pending for good when replays run one at a time
  (`Pipeline.OrphansStay`), and not always otherwise (`Overlap.OverlapRevivesOrphan`); a pending
  row is pending for good exactly when nothing claims it (`RowFate.PendingIsForGoodIff`).
* A limit that spares a fleet of all rejections needs calls one at a time per gateway and no
  lost replies: without either, one gateway exhausts any limit
  (`Crowding.OverlappingCallsExhaustAnyLimit`, `Crowding.LostRepliesExhaustAnyLimit`).
* Nothing serialises replays of one API key. Two that overlap can queue a row twice
  (`Overlap.OverlappingReplaysDuplicate`) and make a delivered row pending again
  (`Overlap.OverlappingReplayUndoesSuccess`). `RowFate.UnresolvedAtMostIff` and
  `RowFate.SuccessIsForGoodIff` say exactly which rows this can happen to.
* A colon in a path or key can put two requests with different limits in one bucket
  (`Policy.ColonPathsCanCollide`); `Policy.BucketHasOneLimitIff` says exactly for which requests.

## Model

| member | source | states |
|---|---|---|
| `Breaker.FailuresAreTrailingRun` | internal/circuitbreaker/circuitbreaker.go:127-161 | after any run, `failures` is the number of failures recorded since the last success, and a Closed breaker is below the threshold |
| `Breaker.ClosedBelowThreshold` | internal/circuitbreaker/circuitbreaker.go:145-161 | every run from a state that is below the threshold when Closed ends in such a state |
| `Breaker.OpenCanHaveNoFailures` | internal/circuitbreaker/circuitbreaker.go:131-134 | a concrete run that is Open with no failures counted |
| `Breaker.FailuresBackOpenIff` | internal/circuitbreaker/circuitbreaker.go:127-161 | throughout a run "not Closed implies `failures >= maxFailures`" holds if and only if no success is recorded while Open |
| `Breaker.QuietPeriod` | internal/circuitbreaker/circuitbreaker.go:102-185 | after a failure at f that leaves the breaker Open, every `Allow` in [f, f + openTimeout) is refused and every `State` shows Open, whatever calls interleave |
| `Breaker.SinceLastTrip` | internal/circuitbreaker/circuitbreaker.go:145-157 | the last trip of a run still holds the breaker Open, or is at least `openTimeout` old |
| `Breaker.TripSpacing` | internal/circuitbreaker/circuitbreaker.go:102-166 | consecutive trips are at least `openTimeout` apart; n trips span at least (n-1)*openTimeout |
| `BreakerHistory.RecordIsHistory` | internal/circuitbreaker/circuitbreaker.go:102-185 | after any calls the record is what their history says: Closed before any trip, after the last one Open until an `Allow` or `State` comes a timeout or more after the last failure, then Half-Open until a success, then Closed; with the failures since the last success and the reading of the last failure |
| `BreakerHistory.TripsByHistory` | internal/circuitbreaker/circuitbreaker.go:145-157 | a failure trips if and only if the history so far is Half-Open, or Closed with one failure fewer than the threshold in a row |
| `BreakerHistory.RefusedExactlyWhen` | internal/circuitbreaker/circuitbreaker.go:102-124 | `Allow` is refused if and only if there was a trip, nobody looked in time since the last one, and the last failure is less than a timeout ago; without a trip every call is granted |
| `BreakerHistory.ShownByHistory` | internal/circuitbreaker/circuitbreaker.go:169-185 | `State` shows Open exactly when `Allow` would be refused, and Closed exactly when the history is |
| `BreakerHistory.NewBreakerGrants` | internal/circuitbreaker/circuitbreaker.go:106 | a new breaker grants, and so does one below its threshold |
| `LazyEager.LazyEqualsEager` | internal/circuitbreaker/circuitbreaker.go:102-185 | the lazy breaker is indistinguishable (answers and trip counts, at every prefix and every later time) from one turned Half-Open by a timer, if and only if no outcome is recorded on an Open breaker whose timeout has elapsed |
| `LazyEager.SameOnceRipe` | internal/circuitbreaker/circuitbreaker.go:102-185 | without such outcomes both machines are equal as soon as both have been looked at |
| `LazyEager.LateOutcomeShows` | internal/circuitbreaker/circuitbreaker.go:127-166 | the first such outcome tells the two breakers apart at once |
| `LazyEager.PromptOutcomesMakeLazyEager` | internal/worker/worker.go:104-140 | if every outcome comes less than `openTimeout` after its own grant, there is no such outcome |
| `LazyEager.OpenBackTo` | internal/circuitbreaker/circuitbreaker.go:102-166 | a breaker Open on an old failure has been Open and untouched since before any later call |
| `LazyEager.SlowOutcomeTellsThemApart` | internal/circuitbreaker/circuitbreaker.go:145-161 | a concrete slow outcome that trips the eager breaker only |
| `Mirror.UrlsAreIndependent` | internal/circuitbreaker/circuitbreaker.go:66-83 | each URL's state is that of a breaker which saw only its own calls |
| `Mirror.LookupAfterCall` | internal/circuitbreaker/circuitbreaker.go:66-83 | a call changes its own URL's state by one step and no other |
| `Mirror.MirrorAgrees` | cmd/worker/main.go:56-83 | after any run the hash has an entry exactly for URLs that have tripped, the entry shows the breaker's state, a missing entry means Closed, an Open entry's retry time is the last failure plus 30 seconds, also after failures while Open |
| `Mirror.OpenEntryRetryIsExact` | cmd/worker/main.go:56-63 | with the worker's settings `Allow` grants if and only if the mirrored retry time has come |
| `Mirror.MirroredFailureCount` | cmd/worker/main.go:65-70 | the mirrored failure count is the breaker's if and only if an Open breaker has failures and a Closed one has none |
| `Mirror.FailureCountShape` | internal/circuitbreaker/circuitbreaker.go:120-166 | how the two counts relate in each state, after any run |
| `Mirror.FailureCountGoesStale` | internal/circuitbreaker/circuitbreaker.go:131-141 | a concrete run whose mirrored failure count is one when the breaker's is zero |
| `Mirror.LastNoticeIsCurrent` | cmd/worker/main.go:58-83 | the last notice of a run states the breaker's state and last failure, and an orderly hash holds it |
| `Mirror.AnyOrderShowsIff` | internal/circuitbreaker/circuitbreaker.go:118-165 | whatever order notices are applied in and whichever are lost, the entry shows the breaker's state and retry time if and only if the last one applied says what the last one sent says; if all are lost, if and only if none was sent or the last one says Closed |
| `Mirror.OpenNoticesIncrease` | internal/circuitbreaker/circuitbreaker.go:145-165 | later Open notices tell of later failures |
| `Mirror.OvertakenNoticeShowsIff` | internal/circuitbreaker/circuitbreaker.go:118-165 | at increasing readings the entry is right if and only if the newest notice was applied last, or both say the same state and it is not Open |
| `Mirror.SwappedNoticesAgreeIff` | internal/circuitbreaker/circuitbreaker.go:118-165 | two consecutive notices in the other order leave the right state if and only if the second is for a failure recorded while Open, and the right retry time too if and only if that failure has the same reading |
| `Mirror.SwappedNoticesDisagree` | internal/circuitbreaker/circuitbreaker.go:118-142 | a concrete run whose notices, applied in another order, leave Half-Open for a Closed breaker |
| `BreakerObject.BreakerHash.Sync` | cmd/worker/main.go:58-83 | the callback overwrites the URL's entry and no other |
| `BreakerObject.UrlCircuitBreaker.constructor` | internal/circuitbreaker/circuitbreaker.go:58-64 | a new breaker is the empty run |
| `BreakerObject.UrlCircuitBreaker.GetUrlState` | internal/circuitbreaker/circuitbreaker.go:66-83 | finds or adds the URL's record; no record is replaced or shared |
| `BreakerObject.UrlCircuitBreaker.Allow` | internal/circuitbreaker/circuitbreaker.go:102-124 | records and hash become those of the run extended by this call; granted if and only if the URL's history does not refuse |
| `BreakerObject.UrlCircuitBreaker.RecordSuccess` | internal/circuitbreaker/circuitbreaker.go:127-142 | records and hash become those of the run extended by this call |
| `BreakerObject.UrlCircuitBreaker.RecordFailure` | internal/circuitbreaker/circuitbreaker.go:145-166 | likewise, and the trips counter moves exactly when the URL's history is Half-Open, or Closed and one failure short of the threshold |
| `BreakerObject.UrlCircuitBreaker.CountFailure` | internal/circuitbreaker/circuitbreaker.go:147-161 | the locked section is the machine's failure step and reports a trip exactly when that trips |
| `BreakerObject.UrlCircuitBreaker.CurrentState` | internal/circuitbreaker/circuitbreaker.go:169-185 | likewise, and the state returned is Open exactly when `Allow` would be refused and Closed exactly when the history is |
| `BreakerObject.UrlCircuitBreaker.GetBreakers` | internal/circuitbreaker/circuitbreaker.go:196-225 | lists every known URL exactly once, each line at its own clock reading, with the failures since the URL's last success and, for an Open one, the time from which `Allow` will grant; changes nothing |
| `BreakerObject.UrlCircuitBreaker.Gate` | internal/circuitbreaker/circuitbreaker.go:102-124 | the body of `Allow` is one step of the machine for its URL, and its notice reaches the hash |
| `BreakerObject.UrlCircuitBreaker.NoteFailure` | internal/circuitbreaker/circuitbreaker.go:145-166 | so is the body of `RecordFailure` |
| `BreakerObject.UrlCircuitBreaker.Look` | internal/circuitbreaker/circuitbreaker.go:169-185 | so is the body of `State` |
| `BreakerObject.UrlCircuitBreaker.Lines` | internal/circuitbreaker/circuitbreaker.go:196-225 | the listing loop covers every record exactly once |
| `BreakerObject.ListingAgreesWithState` | internal/circuitbreaker/circuitbreaker.go:208-215 | the listing shows what `State` answers if and only if this is not the very instant an Open breaker becomes due |
| `BreakerObject.AnswersByHistory` | internal/circuitbreaker/circuitbreaker.go:102-185 | the answers for a URL in a run of calls on many, by its own calls |
| `BreakerObject.InfoIsHistory` | internal/circuitbreaker/circuitbreaker.go:208-222 | a line of the listing by the calls of its URL |
| `BreakerLocks.StepKeepsLocks` | internal/circuitbreaker/circuitbreaker.go:66-124 | every step of every call keeps each lock held by exactly the calls whose position says so |
| `BreakerLocks.StepKeepsStore` | internal/circuitbreaker/circuitbreaker.go:66-83 | every step keeps records one per URL, in agreement with the history, and replaces none |
| `BreakerLocks.StepRunsOnce` | internal/circuitbreaker/circuitbreaker.go:102-185 | every step keeps each call's locked section in the history exactly once |
| `BreakerLocks.ReachableInvariants` | internal/circuitbreaker/circuitbreaker.go:66-225 | the three hold in every reachable state |
| `BreakerLocks.RecordsPersist` | internal/circuitbreaker/circuitbreaker.go:66-83 | no continuation of a schedule replaces a record |
| `BreakerLocks.NoLostUpdates` | internal/circuitbreaker/circuitbreaker.go:66-166 | under every interleaving of the read-then-write lookup, a URL's record holds the result of all its calls in lock order, each once, at non-decreasing readings |
| `BreakerLocks.ConcurrentFailureCount` | internal/circuitbreaker/circuitbreaker.go:66-161 | hence `failures` is the trailing failure run in lock order, and Closed is below the threshold, under every schedule |
| `BreakerLocks.DeadlockFree` | internal/circuitbreaker/circuitbreaker.go:66-225 | in every reachable state with an unfinished call some call can move, although pending writers hold readers back |
| `Retry.DeliverWithRetry` | internal/worker/worker.go:151-198 | for any number of attempts: delivered if and only if the request can be built and one of them is answered with a status from 200 to 299 within five seconds, nothing is posted after the first such, failing takes all attempts, the backoff is 1 and 2 seconds for three attempts and 2^(posts-1) - 1 in all, and the time taken is that of attempts and backoff, at most 18 seconds for three |
| `Retry.DeliveryTimeBound` | internal/worker/worker.go:151-198 | any attempts, each cut off at five seconds, with their backoff take at most 5n + 2^(n-1) - 1 seconds |
| `DeadTarget.WindowStep` | internal/worker/worker.go:50-51 | no move puts more deliveries in flight than the prefetch limit |
| `DeadTarget.WithinAfterGrant` | internal/circuitbreaker/circuitbreaker.go:102-124 | a grant keeps the per-state bound on grants |
| `DeadTarget.WithinAfterLook` | internal/circuitbreaker/circuitbreaker.go:169-185 | a refusal or a state query keeps it |
| `DeadTarget.WithinAfterFailure` | internal/circuitbreaker/circuitbreaker.go:145-157 | a failure keeps it, a trip paying for one window of grants |
| `DeadTarget.ReachableInvariant` | internal/worker/worker.go:94-149 | bookkeeping, attempts and the per-state bound hold in every reachable state from any start |
| `DeadTarget.PostAddsOne` | internal/worker/worker.go:157-171 | each HTTP post to the watched URL adds one delivery and attempt not seen before, and no other move adds any |
| `DeadTarget.GrantAddsOne` | internal/worker/worker.go:104 | each granted `Allow` adds one delivery not granted before, and no other move adds any |
| `DeadTarget.EventsCounted` | internal/worker/worker.go:94-198 | in every run the recorded grants and posts are as many as the granted calls and the post moves |
| `DeadTarget.BoundedLoad` | internal/worker/worker.go:43-198 | while no success is recorded, k trips allow at most (maxFailures - 1 + q) + k*q granted calls and three HTTP posts for each of them or of the deliveries already posting, and (k-1)*openTimeout is at most the time elapsed, for every interleaving |
| `DeadTarget.DeployedWorkerLoad` | cmd/worker/main.go:56 | with 5 failures, 30s and a window of 100, t timeouts into a run a dead target has had at most 104 + 100(t+1) granted calls and three HTTP posts for each |
| `DeadTarget.AttemptFits` | internal/worker/worker.go:154-194 | an attempt and its backoff take a delivery no further past its grant than its next phase allows |
| `DeadTarget.OutcomesArePrompt` | internal/worker/worker.go:104-140 | in every run whose outcomes are recorded at most a slack after their retry loop, each comes within 18s and the slack of its own grant |
| `DeadTarget.WorkerBreakerActsEagerly` | cmd/worker/main.go:56 | so with a slack below 12s the worker's lazy breaker is indistinguishable from an eager one in every run |
| `WorkerLoad.AfterPosts` | internal/worker/worker.go:154-194 | the posts of the retry loop bring a delivery to the phase and the time the loop says |
| `WorkerLoad.HandlingIsARun` | internal/worker/worker.go:94-149 | handling a delivery, granted or refused, watched or not, is a run of the worker with exactly its breaker calls |
| `Cache.Fnv1a` | internal/cache/cache.go:34-42 | the loop computes the FNV-1a fold on 32-bit words |
| `Cache.KnownHashes` | internal/cache/cache.go:34-47 | the published hashes of the empty string and of "a" and their shards (section 2 of draft-eastlake-fnv defines the function) |
| `Cache.KnownLongHash` | internal/cache/cache.go:34-42 | the published hash of "foobar" |
| `Cache.SlotOfMix` | internal/cache/cache.go:38-46 | the shard index depends on the index before and the byte only |
| `Cache.MixSeparates` | internal/cache/cache.go:38-46 | mixing a byte in never merges two shard indices that it tells apart |
| `Cache.SlotsApart` | internal/cache/cache.go:34-46 | keys that differ in exactly one byte have different hash values modulo 256 |
| `Cache.OneByteApart` | internal/cache/cache.go:44-47 | keys that differ in exactly one byte are never in one shard |
| `Cache.LookupAnswersLastSet` | internal/cache/cache.go:49-77 | after any history a lookup returns the key's last set value until its lifetime has passed |
| `Cache.LookupMissesUnset` | internal/cache/cache.go:54-57 | a key not set since the start or its last deletion is a miss |
| `Cache.MissPersists` | internal/cache/cache.go:54-61 | a miss, by expiry too, stays one until the key is set again |
| `Cache.ShardedCache.constructor` | internal/cache/cache.go:24-32 | a new cache is the flat map of the empty history |
| `Cache.ShardedCache.GetShard` | internal/cache/cache.go:44-47 | the shard is the hash modulo 256 |
| `Cache.ShardedCache.Get` | internal/cache/cache.go:49-62 | the sharded lookup answers as one flat map after the same operations |
| `Cache.ShardedCache.Set` | internal/cache/cache.go:64-77 | the shards become the flat map after the set, each key still only in its own shard |
| `Cache.ShardedCache.Delete` | internal/cache/cache.go:79-84 | the shards become the flat map after the deletion |
| `SlidingWindow.RunRetains` | internal/ratelimit/lua.go:10-20 | after any run the sorted set holds only logged admissions with their scores, all of those still in the window, and at most `limit`, and its expiry comes no sooner than they leave the window |
| `SlidingWindow.WindowBound` | internal/ratelimit/lua.go:10-20 | with gateway clocks lagging Redis by at most d, at most `limit` admissions fall in any half-open interval of length window - d, on either clock, however late expiry fires |
| `SlidingWindow.WindowBoundIsTight` | internal/ratelimit/lua.go:10-20 | for every window and lag the interval cannot be one longer |
| `SlidingWindow.SetRefinesLog` | internal/ratelimit/lua.go:10-20 | on one clock a call is admitted if and only if fewer than `limit` logged admissions are newer than now - window |
| `SlidingWindow.ErasureIsInvisible` | internal/ratelimit/lua.go:14-20 | erasing all expiries and any rejected calls from a run changes neither the log nor any later answer |
| `SlidingWindow.ErasureKeepsLog` | internal/ratelimit/lua.go:14-20 | the erased run is itself possible and logs the same |
| `SlidingWindow.RedisKey.RemoveUpTo` | internal/ratelimit/lua.go:10-11 | ZREMRANGEBYSCORE keeps exactly the members above the bound, and an emptied key loses its expiry |
| `SlidingWindow.RedisKey.SlidingWindow` | internal/ratelimit/lua.go:4-20 | the script as commands is one step of the sorted-set machine: it answers 1 exactly when fewer than `limit` members are newer than now - window, keeps exactly those, adds the new one and sets the expiry a window ahead |
| `LeaseFleet.LeaseLapsesIff` | internal/ratelimit/ratelimiter.go:82-87 | a lease lapses some day if and only if the window is at least ten nanoseconds |
| `LeaseFleet.ReachableAdmissions` | internal/ratelimit/ratelimiter.go:72-90 | in every reachable state the admissions are those in Redis's log, and every store follows one of its own gateway |
| `LeaseFleet.ReachableTraces` | internal/ratelimit/ratelimiter.go:59-90 | in every reachable state every lease runs out a lease time after a store, and every cache grant is covered by one |
| `LeaseFleet.LeaseCoverage` | internal/ratelimit/ratelimiter.go:59-90 | every cache grant traces to a logged admission of the same gateway whose store lies at most a tenth of the window and at most one second before it |
| `LeaseFleet.GrantsStop` | internal/ratelimit/ratelimiter.go:60-65 | cache grants stop within a tenth of the window and within one second of the gateway's last store even if every invalidation is lost |
| `LeaseFleet.LeaseServesExactly` | internal/ratelimit/ratelimiter.go:60-90 | after a store, with no invalidation of the gateway and no later store of its own, a call is granted from the cache if and only if it looks at most a tenth of the window and at most one second later; otherwise it goes on to Redis |
| `LeaseLimits.CacheGrantsAreUncounted` | internal/ratelimit/ratelimiter.go:60-65 | for every n, one admission can be followed by n cache grants at one instant, under any limit of at least one |
| `LeaseFleet.RedisHistoryPossible` | internal/ratelimit/ratelimiter.go:67-72 | what any run of the fleet makes Redis do is a possible run of the script |
| `LeaseFleet.FleetWindowBound` | internal/ratelimit/ratelimiter.go:59-95 | at most `requests` admissions in any interval of the window in whole milliseconds less the skew, for any number of gateways, any interleaving, any fate of invalidations, and script calls that never run or whose reply is lost |
| `LeaseFleet.ContinueIsExecute` | internal/ratelimit/ratelimiter.go:59-95 | moves performed after a run make a longer run |
| `LeaseLimits.LimitBoundsAllGrantsIff` | internal/ratelimit/ratelimiter.go:60-65 | in every run and every window the grants from caches and Redis together are within the limit, if and only if the limit allows none or the window is empty |
| `LeaseLimits.BurstFillsWindow` | internal/ratelimit/ratelimiter.go:60-65 | one admission and a burst of cache grants exceed any positive limit within one window |
| `LeaseLimits.NothingIsGranted` | internal/ratelimit/lua.go:14-20 | a limit of zero or less admits nothing, leaves no lease and grants nothing in any run |
| `LeaseLimits.InvalidationBeforeStoreIsIgnored` | internal/ratelimit/ratelimiter.go:72-92 | a run from the start in which a rejection is published, its invalidation reaches a gateway between evaluation and store, and that gateway still grants from the lease it then stores |
| `LeaseLimits.StaleLeaseGrants` | internal/ratelimit/ratelimiter.go:72-87 | a call between evaluation and store when an invalidation arrives can always go on to such a grant |
| `LeaseLimits.InvalidationTakesEffectIff` | internal/ratelimit/ratelimiter.go:40-92 | after an invalidation every later cache grant of the gateway, in every continuation, rests on an admission evaluated since, if and only if no call of the gateway stood between evaluation and store |
| `LeaseSpacing.ReachableSpacing` | internal/ratelimit/ratelimiter.go:59-90 | the invariant behind the spacing, in every reachable state of a run with calls serialised per gateway and no reply lost |
| `LeaseSpacing.LeaseSpacing` | internal/ratelimit/ratelimiter.go:60-65 | two admissions of one gateway with no invalidation between them are more than a lease time apart |
| `LeaseSpacing.SpacedSetFits` | internal/ratelimit/ratelimiter.go:83-90 | n stamps more than a lease time apart span more than (n-1) lease times |
| `LeaseSpacing.SharesAddUp` | internal/ratelimit/lua.go:14 | per-gateway shares add up to fewer than gateways times share when one has room |
| `LeaseSpacing.ReachableUntroubled` | internal/ratelimit/ratelimiter.go:72-95 | with an ample limit no reachable state has seen a rejection or an invalidation |
| `LeaseSpacing.AmpleLimitNeverRejects` | internal/ratelimit/ratelimiter.go:59-95 | N gateways on one clock are never refused when the limit is at least N*ceil((window + delay)/TTL), delay being how long a script may trail its reading; delay 0 gives N*ceil(window/TTL) |
| `Crowding.OverlappingCallsExhaustAnyLimit` | internal/ratelimit/ratelimiter.go:59-72 | for every limit, one gateway on one clock with no delay and no lost reply is rejected in a run whose calls overlap |
| `Crowding.LostRepliesExhaustAnyLimit` | internal/ratelimit/ratelimiter.go:72-75 | for every limit, one gateway on one clock with one call at a time is rejected in a run whose replies are lost |
| `TwoTierLimiter.CallIsAFleetRun` | internal/ratelimit/ratelimiter.go:59-95 | every call, whether it hits, is admitted, refused or fails before or after the script, is its moves of the fleet: they leave the lease and the sorted set that the call leaves |
| `TwoTierLimiter.HitIsAFleetRun` | internal/ratelimit/ratelimiter.go:60-65 | a call that hits the cache is the fleet's lookup alone |
| `TwoTierLimiter.MissIsAFleetRun` | internal/ratelimit/ratelimiter.go:67-94 | a call that misses is the fleet's lookup, clock reading and evaluation, with store, failure or lost reply |
| `TwoTierLimiter.LeaseIsServed` | internal/ratelimit/ratelimiter.go:82-87 | an admission leaves the key cached for exactly a tenth of the window and a second at most, or for good below ten nanoseconds |
| `TwoTierLimiter.AdmissionMeans` | internal/ratelimit/ratelimiter.go:67-72 | the script admits exactly when fewer than `requests` members are newer than the window, in whole milliseconds |
| `TwoTierLimiter.InvalidationIsAFleetMove` | internal/ratelimit/ratelimiter.go:40-57 | deleting the key is the fleet's invalidation of the gateway |
| `TwoTierLimiter.CallsAreAFleetRun` | internal/ratelimit/ratelimiter.go:59-95 | any sequence of calls is a run of the fleet from its start, ending with their lease and sorted set and as many cache grants as hits |
| `TwoTierLimiter.TwoTierRateLimiter.constructor` | internal/ratelimit/ratelimiter.go:33-38 | a limiter starts with its counters at zero on a given cache, Redis and fleet |
| `TwoTierLimiter.Redis.Eval` | internal/ratelimit/ratelimiter.go:72 | evaluation changes the one key, by one step of the sorted-set machine |
| `TwoTierLimiter.TwoTierRateLimiter.AskRedis` | internal/ratelimit/ratelimiter.go:67-94 | admitted exactly when fewer than `requests` members are in the window; an admission leaves a lease of a tenth of the window, at most a second, a rejection publishes an invalidation, each is counted; a failed call is an error, whether or not the script ran |
| `TwoTierLimiter.CallLeavesOthers` | internal/ratelimit/ratelimiter.go:59-95 | a call leaves the leases of all other gateways alone |
| `TwoTierLimiter.TwoTierRateLimiter.Decide` | internal/ratelimit/ratelimiter.go:59-95 | the answer, the cache, Redis, the published invalidations and both counters on every path |
| `TwoTierLimiter.TwoTierRateLimiter.Allow` | internal/ratelimit/ratelimiter.go:59-95 | likewise, and the fleet moves that a call for the watched key is |
| `TwoTierLimiter.TwoTierRateLimiter.OnInvalidation` | internal/ratelimit/ratelimiter.go:40-57 | an invalidation deletes the key from the cache, and is the fleet's move for the watched key |
| `TwoTierLimiter.Deployment.Allow` | internal/ratelimit/ratelimiter.go:59-95 | a call on any gateway of a deployment is its moves of the one fleet and keeps every gateway in step with it |
| `TwoTierLimiter.Deployment.OnInvalidation` | internal/ratelimit/ratelimiter.go:40-57 | so does an invalidation that reaches one of them |
| `EventStore.InsertStoresOnce` | internal/events/events.go:44-62 | an insert leaves exactly one row under the event's effective key, keeps keys unique and disturbs no row |
| `EventStore.InsertKeepsTable` | internal/events/events.go:50-54 | an insert keeps keys unique and rows in place |
| `EventStore.TakenIsStoredOnce` | scripts/init.sql:5-17 | with unique keys a taken key has exactly one row |
| `EventStore.SetStatusKeepsTable` | internal/events/events.go:65-83 | a status update keeps keys unique and changes no row's key, owner, URL or payload |
| `EventStore.PostgresEventStore.SaveEvent` | internal/events/events.go:44-62 | under a free key (the event's own, or its id without one) one new pending row with the event's fields, under a taken key nothing; fails only when the database does or the id is taken under a free key |
| `EventStore.PostgresEventStore.UpdateEventStatus` | internal/events/events.go:65-83 | sets status and error message of the one row, if there is one, and clears the message when it is empty |
| `EventStore.PostgresEventStore.GetFailedEvents` | internal/events/events.go:86-114 | lists exactly the client's rows with status failed, once each, with the fields of the row |
| `Pipeline.ContinueIsExecute` | cmd/gateway/main.go:427-561 | moves performed after a run make a longer run |
| `Pipeline.LeadsIsExecute` | cmd/gateway/main.go:427-561 | what moves lead to from the end of a run is the end of the longer run |
| `Pipeline.ReachableBroker` | internal/worker/worker.go:94-149 | in every reachable state each message is in one place and known to be answered exactly when its phase says so |
| `Pipeline.SettledStaysSettled` | internal/worker/worker.go:98-148 | a settled message stays settled the same way |
| `Pipeline.MessageConservation` | internal/worker/worker.go:43-149 | published = queued + in flight + acked + dead-lettered as multisets, at most 100 in flight, a settled message is acked if and only if it got a 2xx, once and for all |
| `Pipeline.MoveKeepsAccount` | cmd/gateway/main.go:473-553 | every move keeps the account of who answers for each pending row |
| `Pipeline.ReachableAccount` | cmd/gateway/main.go:473-553 | the account holds in every reachable state when replays of each API key run one at a time |
| `Pipeline.HolderDecides` | internal/worker/worker.go:104-148 | who answers for a row decides what unresolved messages and intended publishes it has |
| `Pipeline.OrphansAreLost` | cmd/gateway/main.go:479-483 | the pending rows nothing will resolve are those whose publish or status write failed |
| `Pipeline.StatusAgainstMessages` | cmd/gateway/main.go:473-553 | with replays of each API key one at a time, every row has at most one unresolved message, none when success or failed, and the stuck pending rows number exactly the failed publishes of inserted or replayed rows plus the worker's failed status writes |
| `Pipeline.OrphansStay` | cmd/gateway/main.go:479-483 | with replays of each API key one at a time, a pending row that nothing will resolve stays one through every later move |
| `Pipeline.SuccessIsTerminal` | internal/events/events.go:65-83 | with replays of each API key one at a time, a row marked success keeps that status through every later move |
| `Pipeline.ReachableConsistent` | cmd/gateway/main.go:457-553 | in every reachable state, overlapping replays included, whatever carries a stored event carries what its row says |
| `Pipeline.ReachableSound` | internal/events/events.go:44-83 | unique keys, stored accepted keys and answered successes in every reachable state |
| `Pipeline.RowsNeverChange` | internal/events/events.go:65-83 | no later move removes a row or changes its key, owner, URL or payload |
| `Pipeline.StoreIntegrity` | cmd/gateway/main.go:457-553 | over every run, overlapping replays included: keys are unique, messages of stored events carry their row's URL and payload, every 202 leaves exactly one row under its effective key, success implies a 2xx, rows never change |
| `Overlap.MoveAddsClaims` | cmd/gateway/main.go:510-553 | only a replay that picks a stored row up adds to what can still change it |
| `Overlap.ClaimsBound` | cmd/gateway/main.go:510-553 | a row's unresolved messages and the requests that will publish one number at most one more than the replays that picked it up while something else could still change it |
| `Overlap.UnresolvedBound` | cmd/gateway/main.go:538-553 | so its unresolved messages are at most one more than those overlaps, in every run; `RowFate.UnresolvedAtMostIff` has the exact number |
| `Overlap.SerialRunsDoNotOverlap` | cmd/gateway/main.go:493-561 | replays of each API key one at a time never overlap |
| `Overlap.OverlappingReplaysDuplicate` | cmd/gateway/main.go:538-553 | a run from the start with two overlapping replays and two unresolved messages of one row |
| `Overlap.OverlapRevivesOrphan` | cmd/gateway/main.go:538-553 | a run from the start in which a row stuck after a failed publish is taken up by an overlapping replay |
| `Overlap.OverlappingReplayUndoesSuccess` | cmd/gateway/main.go:538-545 | a run from the start in which the second of two replays makes a row pending that the first one's message had delivered |
| `Draining.SettleOne` | internal/worker/worker.go:94-149 | from every reachable state any delivery in hand can be settled without touching rows or queue, with a 2xx if it was still open |
| `Draining.TakeOne` | internal/worker/worker.go:50-51 | and any queued message can be taken, after making room in a full window |
| `RowFate.CanFail` | internal/worker/worker.go:104-148 | from every reachable state a row with a claim that has not got its 2xx can come to be failed |
| `RowFate.SuccessIsForGoodIff` | cmd/gateway/main.go:510-553 | a delivered row stays delivered in every continuation if and only if no handler or replay will publish it and each of its unresolved messages has got its 2xx |
| `RowFate.PendingIsForGoodIff` | cmd/gateway/main.go:473-553 | a pending row stays pending in every continuation if and only if no handler, replay or unresolved message claims it |
| `RowFate.AllConvert` | cmd/gateway/main.go:473-553 | without a new replay all claims on a row can come to be unresolved messages at once |
| `RowFate.UnresolvedAtMostIff` | cmd/gateway/main.go:473-553 | in every continuation without a new replay a row has at most n unresolved messages if and only if it has at most n claims now |
| `Duplicates.MessagesAreCounted` | cmd/gateway/main.go:473-553 | in every run the messages under an effective key number exactly its 202 answers and its replay publishes |
| `Duplicates.DeliveriesAreAccepted` | cmd/gateway/main.go:473-553 | a key is delivered no more often than it was accepted and replayed |
| `Duplicates.DeliverAll` | internal/worker/worker.go:94-149 | all messages under a key that may still be delivered can all be |
| `Duplicates.DeliveredAtMostIff` | internal/worker/worker.go:94-149 | whatever the worker does from a reachable state, at most n messages under a key get a 2xx if and only if at most n have got one or may still get one |
| `Duplicates.AtMostOnceIffAcceptedOnce` | cmd/gateway/main.go:473-490 | while no message under a key has been given up, it is delivered at most n times whatever the worker does if and only if it was accepted and replayed at most n times |
| `Duplicates.DuplicateIsStillQueued` | cmd/gateway/main.go:473-490 | in every run, whatever happens between save and publish, the event is answered 202 and queued; it gets a row if and only if its key was free |
| `Duplicates.OneKeyDeliveredTwice` | cmd/gateway/main.go:473-490 | a run from the start: one key accepted twice, one row, both messages delivered with a 2xx and acknowledged |
| `Handlers.RequeuedAre` | cmd/gateway/main.go:538-553 | the events that go through a replay are exactly those whose reset and publish both succeed, none twice |
| `Handlers.ListedRowIsReset` | cmd/gateway/main.go:539-542 | after the loop a listed row is pending without its error if its reset succeeded, and as it was otherwise |
| `Handlers.UnlistedRowStays` | cmd/gateway/main.go:538-553 | a row that is not listed is as it was |
| `Handlers.ReportIsTrue` | cmd/gateway/main.go:538-560 | what the loop leaves makes its report true: each event named was a failed event of the client, is pending again and is the body of a message newly queued; nothing else was queued; rows not asked for are as they were |
| `Handlers.ReportIsComplete` | cmd/gateway/main.go:510-560 | when nothing fails the report names all events asked for |
| `Handlers.MessageQueue.Publish` | internal/queue/publisher.go:103-125 | a publish adds one new message or changes nothing |
| `Handlers.MessageQueue.Ack` | internal/worker/worker.go:148 | an ack settles the delivery as acknowledged |
| `Handlers.MessageQueue.Nack` | internal/queue/publisher.go:78-81 | a nack without requeue settles it in the dead-letter queue |
| `Handlers.Gateway.Accept` | cmd/gateway/main.go:473-483 | an event is saved under its effective key and published, as the pipeline's two moves |
| `Handlers.Gateway.Ingest` | cmd/gateway/main.go:427-491 | the response code of every path and the event id of a 202; on a 202 a new message with the request's target URL, payload, API key and first non-empty idempotency header; a new pending row with them exactly when the key was free; nothing else changes |
| `Handlers.Gateway.ReplayOne` | cmd/gateway/main.go:539-552 | one turn of the replay loop is the pipeline's reset and, if that works, its publish |
| `Handlers.Gateway.ReplayAll` | cmd/gateway/main.go:538-553 | the loop's moves, its effect on table and queue and its report are exactly those of the events it was given and of how they fare |
| `Handlers.Gateway.Select` | cmd/gateway/main.go:510-536 | the one failed event asked for, or all of the client's, each once; a failed query is an error only without an event id |
| `Handlers.Gateway.RunReplay` | cmd/gateway/main.go:538-560 | start, loop and end of a replay as moves, with a true report |
| `Handlers.Gateway.ReplayEvents` | cmd/gateway/main.go:493-561 | response codes; only the client's failed events are reported, or the one asked for, all of them when nothing fails, each pending again and back in the queue; what the handler does is a run of pipeline moves fixed by what it selected and how that fared |
| `Handlers.WebhookWorker.Finish` | internal/worker/worker.go:125-148 | the row is marked success or failed as the outcome says, and the message is acked exactly on success |
| `Handlers.WebhookWorker.RecordOutcome` | internal/worker/worker.go:118-140 | the breaker's run is extended by the delivery's outcome |
| `Handlers.WebhookWorker.Discard` | internal/worker/worker.go:96-101 | a malformed message is dead-lettered |
| `Handlers.WebhookWorker.Attempt` | internal/worker/worker.go:117-148 | a granted delivery is delivered if and only if one of three attempts is answered with 200 to 299 within five seconds; breaker, row and queue follow |
| `Handlers.WebhookWorker.Refuse` | internal/worker/worker.go:104-114 | a refused delivery asks the breaker for its state, is written as failed and dead-lettered |
| `Handlers.WebhookWorker.Dispatch` | internal/worker/worker.go:103-148 | the breaker's answer, by the history of the URL, decides between refusal and delivery |
| `Handlers.WebhookWorker.HandleDelivery` | internal/worker/worker.go:94-149 | a malformed body is dead-lettered without asking the breaker; otherwise the delivery is granted if and only if the history of its URL does not refuse, and delivered if and only if one of three attempts is then answered with 200 to 299 within five seconds; the event's row is marked success or failed accordingly and no other row changes; each path is a run of pipeline moves with the matching breaker calls and a run of the worker in `DeadTarget`; the delivery is settled exactly once, acked if and only if delivered |
| `Policy.GetLimitIsFirstMatch` | internal/policy/loader.go:30-49 | the lookup returns the first exact rule wherever wildcards stand, else the first wildcard, else none (if and only if) |
| `Policy.TierGoesByKey` | internal/middleware/middleware.go:37-59 | the tier is Enterprise exactly for "ent-key", Pro exactly for "pro-key" and Free otherwise, off the metrics path |
| `Policy.LimitGoesByKey` | internal/middleware/middleware.go:51-81 | under every configuration the limit of a request is decided by the first exact rule, else the first wildcard, of the Enterprise rules for "ent-key", the Pro rules for "pro-key", and the Free rules otherwise |
| `Policy.BucketOfARequest` | internal/middleware/middleware.go:80 | the key of a bucket in a concrete case |
| `Policy.BucketParts` | internal/middleware/middleware.go:80 | buckets are equal if and only if tier and the rest of the key are |
| `Policy.FirstColonSplits` | internal/middleware/middleware.go:80 | text split at its first colon is determined part by part |
| `Policy.OneBucketOneLimit` | internal/middleware/middleware.go:74-81 | for paths without a colon the bucket determines tier, path and API key, so one bucket has one limit |
| `Policy.ColonPathsCanCollide` | internal/middleware/middleware.go:80 | concrete requests with different limits in one bucket |
| `Policy.BucketIsPrivateIff` | internal/middleware/middleware.go:37-81 | a request that passes authentication has its bucket to itself if and only if it is not a Free request with a cut at a colon |
| `Policy.BucketHasOneLimitIff` | internal/middleware/middleware.go:74-81 | all requests in its bucket are held to its limit, under every configuration, if and only if the request is not one of those |

## Left out

- BreakerObject.UrlCircuitBreaker.constructor: the callback is installed from the start; installing it later (`OnStateChange`) appears only as a locking step in `BreakerLocks`.
- Mirror.MirrorAgrees: assumes that hash writes succeed and notices are applied in transition order; `AnyOrderShowsIff` covers every other order and lost writes.
- LeaseSpacing.AmpleLimitNeverRejects: assumes one clock for all gateways, one call at a time per gateway and no lost reply to an admitted call; `Crowding` shows that the last two are needed.
- Handlers.WebhookWorker.HandleDelivery: a failed ack or nack (its error is ignored in the source) is not modelled.
- Pipeline.StatusAgainstMessages: assumes replays of each API key one at a time; `RowFate` has what holds without that.
- Pipeline.SuccessIsTerminal: assumes the same; `RowFate.SuccessIsForGoodIff` is exact without it.
- Pipeline.OrphansStay: assumes the same; `RowFate.PendingIsForGoodIff` is exact without it.
- The pipeline has no broker crash, no redelivery and no failed write that took effect after all; well-formed messages from other producers are not modelled.
- A script call that rejects and whose reply is lost is taken as a rejection that was published; the invalidation may still never arrive.
- Payloads are compared as values; PostgreSQL's normalisation of JSONB text, column widths and the row columns nothing here reads (retry count, timestamps) are not modelled.
- The worker's consumer loop beyond its prefetch limit, context cancellation, and process shutdown.
- The failure counter is an unbounded natural number; overflow of Go's `int` is not modelled.
- The fleet is modelled for one limiter key; `Cache` and the limiter object show that other keys do not interfere.
- Reading and validating configuration, YAML decoding and duration parsing.
- `StubRateLimiter`, which always admits, and `LoadShedder`, whose load value is never updated.
- Statistics, admin listing, key listing, redirect, CORS, tracing, profiling and health handlers; JSON encoding and `State.String`.
- Prometheus counters other than breaker trips, and log output.
- The dashboard, benchmarks and scripts.
