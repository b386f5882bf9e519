/** The query client's default options: cache lifetimes, retry counts and
    the backoff between retries, and the retry discipline they configure. */
module QueryDefaults {
  import opened Common

  const StaleTime: nat := 1000 * 60 * 5
  const GcTime: nat := 1000 * 60 * 10
  const QueryRetry: nat := 2
  const MutationRetry: nat := 1
  const MutationRetryDelay: nat := 1000
  const MaxRetryDelay: nat := 30000

  /** Fresh data is kept at least as long as it stays fresh. */
  lemma CacheLifetimes()
    ensures StaleTime == 300000 && GcTime == 600000
    ensures StaleTime < GcTime
  {
  }

  function Pow2(i: nat): (p: nat)
    ensures p >= 1
  {
    if i == 0 then 1 else 2 * Pow2(i - 1)
  }

  lemma {:induction false} Pow2Monotone(i: nat, j: nat)
    requires i <= j
    ensures Pow2(i) <= Pow2(j)
    decreases j
  {
    if i < j {
      Pow2Monotone(i, j - 1);
    }
  }

  /** `Math.min(1000 * 2 ** attemptIndex, 30000)` */
  function RetryDelay(attemptIndex: nat): (d: nat)
    ensures 1000 <= d <= MaxRetryDelay
  {
    var exponential := 1000 * Pow2(attemptIndex);
    if exponential < MaxRetryDelay then exponential else MaxRetryDelay
  }

  /** The delay never shrinks from one retry to the next. */
  lemma RetryDelayMonotone(i: nat, j: nat)
    requires i <= j
    ensures RetryDelay(i) <= RetryDelay(j)
  {
    Pow2Monotone(i, j);
  }

  /** 1 s, 2 s, 4 s, 8 s, 16 s, then capped at 30 s from the sixth retry on. */
  lemma RetryDelayValues(i: nat)
    ensures RetryDelay(0) == 1000 && RetryDelay(1) == 2000 && RetryDelay(2) == 4000
    ensures RetryDelay(3) == 8000 && RetryDelay(4) == 16000
    ensures i >= 5 ==> RetryDelay(i) == MaxRetryDelay
  {
    assert Pow2(5) == 32;
    if i >= 5 {
      Pow2Monotone(5, i);
    }
  }

  /** How long to wait before the retry that follows failure number
      `failureIndex` (counted from 0). */
  datatype Backoff = Exponential | Fixed(ms: nat) {
    function Delay(failureIndex: nat): nat {
      match this
      case Exponential => RetryDelay(failureIndex)
      case Fixed(ms) => ms
    }
  }

  /** `retry` extra attempts after the first, with `backoff` between them. */
  datatype RetryPolicy = RetryPolicy(retry: nat, backoff: Backoff)

  const QueryPolicy: RetryPolicy := RetryPolicy(QueryRetry, Exponential)
  const MutationPolicy: RetryPolicy := RetryPolicy(MutationRetry, Fixed(MutationRetryDelay))
  /** `retry: false` */
  const NoRetryPolicy: RetryPolicy := RetryPolicy(0, Exponential)

  /** The settled result of a retried operation: the final result, how many
      attempts were made, and the total time spent waiting between them. */
  datatype RetryRun<T> = RetryRun(result: Result<T, Thrown>, attempts: nat, waited: nat)

  /** Sum of the delays before retries 1 .. n. */
  function TotalDelay(b: Backoff, n: nat): nat {
    if n == 0 then 0 else TotalDelay(b, n - 1) + b.Delay(n - 1)
  }

  /** Runs attempt outcomes in order until one succeeds or `retry` failures
      have been retried. `outcomes[i]` is what attempt `i` would produce;
      every failure is retried alike, whatever its status. */
  function Run<T>(policy: RetryPolicy, outcomes: seq<Result<T, Thrown>>): (r: RetryRun<T>)
    requires |outcomes| > policy.retry
    ensures 1 <= r.attempts <= policy.retry + 1
    ensures r.result == outcomes[r.attempts - 1]
    ensures forall i :: 0 <= i < r.attempts - 1 ==> outcomes[i].Err?
    ensures r.result.Err? ==> r.attempts == policy.retry + 1
    ensures r.waited == TotalDelay(policy.backoff, r.attempts - 1)
  {
    RunFrom(policy, outcomes, 0)
  }

  function RunFrom<T>(policy: RetryPolicy, outcomes: seq<Result<T, Thrown>>, failures: nat): (r: RetryRun<T>)
    requires failures <= policy.retry < |outcomes|
    requires forall i :: 0 <= i < failures ==> outcomes[i].Err?
    ensures failures + 1 <= r.attempts <= policy.retry + 1
    ensures r.result == outcomes[r.attempts - 1]
    ensures forall i :: 0 <= i < r.attempts - 1 ==> outcomes[i].Err?
    ensures r.result.Err? ==> r.attempts == policy.retry + 1
    ensures r.waited == TotalDelay(policy.backoff, r.attempts - 1)
    decreases policy.retry - failures
  {
    var current := outcomes[failures];
    if current.Ok? || failures == policy.retry then
      RetryRun(current, failures + 1, TotalDelay(policy.backoff, failures))
    else
      RunFrom(policy, outcomes, failures + 1)
  }

  /** A query is attempted at most three times and waits 1 s + 2 s when every
      attempt fails. */
  lemma QueryAttemptsBounded<T>(outcomes: seq<Result<T, Thrown>>)
    requires |outcomes| > QueryRetry
    ensures Run(QueryPolicy, outcomes).attempts <= 3
    ensures (forall i :: 0 <= i < 3 ==> outcomes[i].Err?) ==>
      Run(QueryPolicy, outcomes).attempts == 3 && Run(QueryPolicy, outcomes).waited == 3000
  {
    if forall i :: 0 <= i < 3 ==> outcomes[i].Err? {
      assert TotalDelay(Exponential, 2) == RetryDelay(0) + RetryDelay(1);
      RetryDelayValues(0);
    }
  }

  /** A mutation is attempted at most twice, one second apart. */
  lemma MutationAttemptsBounded<T>(outcomes: seq<Result<T, Thrown>>)
    requires |outcomes| > MutationRetry
    ensures Run(MutationPolicy, outcomes).attempts <= 2
    ensures outcomes[0].Err? ==>
      Run(MutationPolicy, outcomes).attempts == 2 && Run(MutationPolicy, outcomes).waited == 1000
  {
  }

  /** Every failure is retried alike, whatever it is: a failed first
      attempt followed by a success ends in that success after 1 s. */
  lemma AnyFailureIsRetried<T>(failure: Thrown, value: T)
    ensures var outcomes := [Err(failure), Ok(value), Ok(value)];
      Run(QueryPolicy, outcomes) == RetryRun(Ok(value), 2, 1000)
  {
  }
}
