/** The worker's retry loop around one delivery, for any number of attempts. */
module Retry {
  import opened Prelude

  const MAX_ATTEMPTS: nat := 3
  const REQUEST_TIMEOUT: nat := 5  // seconds

  /** What one HTTP attempt comes back with. */
  datatype Response = Status(code: int) | NetworkError

  /** One HTTP attempt: what the target would answer, and after how many nanoseconds. */
  datatype Attempt = Attempt(response: Response, takes: nat)

  predicate Accepted(r: Response) {
    r.Status? && 200 <= r.code < 300
  }

  /** What the worker sees of an attempt: one that takes too long is cut off. */
  function Seen(a: Attempt): Response {
    if a.takes > REQUEST_TIMEOUT * SECOND then NetworkError else a.response
  }

  /** How long the attempt keeps the worker. */
  function Spent(a: Attempt): nat {
    if a.takes > REQUEST_TIMEOUT * SECOND then REQUEST_TIMEOUT * SECOND else a.takes
  }

  /** How long the first `n` attempts keep the worker. */
  function TotalSpent(attempts: seq<Attempt>, n: nat): nat
    requires n <= |attempts|
  {
    if n == 0 then 0 else TotalSpent(attempts, n - 1) + Spent(attempts[n - 1])
  }

  function Pow2(n: nat): nat {
    if n == 0 then 1 else 2 * Pow2(n - 1)
  }

  lemma {:induction false} Pow2Monotone(a: nat, b: nat)
    requires a <= b
    ensures 1 <= Pow2(a) <= Pow2(b)
    decreases b
  {
    if a < b {
      Pow2Monotone(a, b - 1);
    } else if a > 0 {
      Pow2Monotone(a - 1, a - 1);
    }
  }

  lemma ShortBackoffs()
    ensures Pow2(0) == 1 && Pow2(1) == 2 && Pow2(2) == 4
  {
  }

  /** The longest a delivery of at most `n` attempts can take, in seconds. */
  function WorstCase(n: nat): nat
    requires n >= 1
  {
    Pow2Monotone(0, n - 1);
    REQUEST_TIMEOUT * n + Pow2(n - 1) - 1
  }

  lemma {:induction false} TotalSpentBound(attempts: seq<Attempt>, n: nat)
    requires n <= |attempts|
    ensures TotalSpent(attempts, n) <= REQUEST_TIMEOUT * n * SECOND
  {
    if n > 0 {
      TotalSpentBound(attempts, n - 1);
    }
  }

  /** Any number of attempts up to `n` with their backoff stays within the worst case. */
  lemma DeliveryTimeBound(attempts: seq<Attempt>, n: nat, posts: nat)
    requires 1 <= posts <= n <= |attempts|
    ensures TotalSpent(attempts, posts) + (Pow2(posts - 1) - 1) * SECOND <= WorstCase(n) * SECOND
  {
    TotalSpentBound(attempts, posts);
    Pow2Monotone(posts - 1, n - 1);
  }

  /**
   Posts up to `maxAttempts` times and waits 1, 2, 4, ... seconds between attempts.
   `attempts` says how each attempt would fare, and `buildable` whether a request can be made
   from the target URL at all. `elapsed` is the time on the clock when it returns.
   */
  method DeliverWithRetry(maxAttempts: nat, buildable: bool, attempts: seq<Attempt>)
    returns (delivered: bool, posts: nat, waited: nat, elapsed: nat)
    requires 1 <= maxAttempts <= |attempts|
    // delivered exactly when one of the attempts is answered with a 2xx within five seconds
    ensures delivered <==>
              buildable && exists i :: 0 <= i < maxAttempts
                                       && attempts[i].takes <= 5_000_000_000
                                       && attempts[i].response.Status? && 200 <= attempts[i].response.code < 300
    // no request follows the first accepted one, and failing takes every attempt
    ensures posts <= maxAttempts
    ensures forall i :: 0 <= i < posts - 1 ==> !Accepted(Seen(attempts[i]))
    ensures delivered ==> 1 <= posts && Accepted(Seen(attempts[posts - 1]))
    ensures !delivered ==> posts == if buildable then maxAttempts else 0
    // the backoff doubles between attempts and never follows the last one
    ensures waited == if posts == 0 then 0 else Pow2(posts - 1) - 1
    ensures (posts == 1 ==> waited == 0) && (posts == 2 ==> waited == 1) && (posts == 3 ==> waited == 3)
    // the time taken is that of the attempts and the backoff, and is bounded
    ensures elapsed == TotalSpent(attempts, posts) + waited * SECOND
    ensures elapsed <= WorstCase(maxAttempts) * SECOND
    ensures maxAttempts == 3 ==> elapsed <= 18_000_000_000
    ensures posts == 1 ==> elapsed == if attempts[0].takes > 5_000_000_000 then 5_000_000_000 else attempts[0].takes
  {
    ShortBackoffs();
    posts, waited, elapsed := 0, 0, 0;
    var attempt := 0;
    while attempt < maxAttempts
      invariant 0 <= attempt <= maxAttempts
      invariant attempt > 0 ==> buildable
      invariant posts == attempt
      invariant forall i :: 0 <= i < attempt ==> !Accepted(Seen(attempts[i]))
      invariant waited == if attempt < maxAttempts then Pow2(attempt) - 1 else Pow2(attempt - 1) - 1
      invariant elapsed == TotalSpent(attempts, attempt) + waited * SECOND
    {
      if !buildable {
        return false, posts, waited, elapsed;
      }
      var response := Seen(attempts[attempt]);
      posts, elapsed := posts + 1, elapsed + Spent(attempts[attempt]);
      if Accepted(response) {
        DeliveryTimeBound(attempts, maxAttempts, posts);
        assert attempts[attempt].takes <= 5_000_000_000 && attempts[attempt].response.Status?;
        return true, posts, waited, elapsed;
      }
      if attempt < maxAttempts - 1 {
        waited, elapsed := waited + Pow2(attempt), elapsed + Pow2(attempt) * SECOND;
      }
      attempt := attempt + 1;
    }
    DeliveryTimeBound(attempts, maxAttempts, posts);
    delivered := false;
  }
}
