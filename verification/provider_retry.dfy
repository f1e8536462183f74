/**
 * Fetching historical data through the circuit breaker, with a bounded number of
 * attempts and exponential backoff plus jitter between them. The provider, the random
 * jitter and sleep interruptions are inputs indexed by attempt number (from 1).
 */
module ProviderRetry {
  import opened Wrappers
  import opened Time
  import opened CircuitBreakers

  /** The outcome of a fetch: the data, or exactly one of the two failure kinds. */
  datatype ProviderResult<T> = ProviderResult(data: Option<T>, success: bool, circuitOpen: bool,
                                              exception: Option<Exception>)

  function SuccessResult<T>(data: T): (r: ProviderResult<T>)
    ensures r.success && !r.circuitOpen && r.data == Some(data) && r.exception.None?
  {
    ProviderResult(Some(data), true, false, None)
  }

  function FailureResult<T>(exception: Option<Exception>): (r: ProviderResult<T>)
    ensures !r.success && !r.circuitOpen && r.data.None? && r.exception == exception
  {
    ProviderResult(None, false, false, exception)
  }

  function CircuitOpenResult<T>(): (r: ProviderResult<T>)
    ensures !r.success && r.circuitOpen && r.data.None? && r.exception.None?
  {
    ProviderResult(None, false, true, None)
  }

  /** What the provider does on one attempt. */
  datatype Outcome<T> = Fetched(prices: T) | Failed(error: Exception)

  function Pow2(n: nat): (p: nat)
    ensures p >= 1
  {
    if n == 0 then 1 else 2 * Pow2(n - 1)
  }

  /** The backoff after failed attempt `attempt`: base doubled once per earlier attempt. */
  function Backoff(baseMs: int, attempt: nat): int
    requires attempt >= 1
  {
    baseMs * Pow2(attempt - 1)
  }

  /** Each backoff is twice the one before; the first is the base. */
  lemma BackoffDoubles(baseMs: int, attempt: nat)
    requires attempt >= 1
    ensures Backoff(baseMs, 1) == baseMs
    ensures Backoff(baseMs, attempt + 1) == 2 * Backoff(baseMs, attempt)
  {
  }

  /**
   * The sleep after failed attempt `attempt`: the backoff plus the attempt's jitter, or
   * IllegalArgument when the jitter cannot be drawn (a negative jitterMaxMs) or the sleep
   * time is negative.
   */
  function SleepAfter(baseMs: int, jitterMaxMs: int, jitter: nat -> int, attempt: nat): (r: Result<int>)
    requires attempt >= 1
    requires jitterMaxMs >= 0 ==> forall k :: 0 <= jitter(k) <= jitterMaxMs
    ensures r.Err? <==> jitterMaxMs < 0 || Backoff(baseMs, attempt) + jitter(attempt) < 0
    ensures r.Err? ==> r.error == IllegalArgument
    ensures r.Ok? ==> 0 <= r.value && Backoff(baseMs, attempt) <= r.value <= Backoff(baseMs, attempt) + jitterMaxMs
  {
    if jitterMaxMs < 0 then Err(IllegalArgument)
    else if Backoff(baseMs, attempt) + jitter(attempt) < 0 then Err(IllegalArgument)
    else Ok(Backoff(baseMs, attempt) + jitter(attempt))
  }

  /** `n` readings of the same time: the retry loop records every failure at one `now`. */
  function SameTime(now: DateTime, n: nat): (ts: seq<DateTime>)
    ensures |ts| == n && forall i :: 0 <= i < n ==> ts[i] == now
  {
    seq(n, _ => now)
  }

  /** One more failure at `now` extends the run of failures recorded at `now`. */
  lemma FailOneMore(b: Breaker, threshold: int, now: DateTime, n: nat)
    ensures FailAll(b, threshold, SameTime(now, n + 1)) ==
      AfterFailure(FailAll(b, threshold, SameTime(now, n)), threshold, now)
  {
    assert SameTime(now, n + 1)[..n] == SameTime(now, n);
  }

  /**
   * The breaker is consulted once, before the first attempt. Attempt k calls the
   * provider; a success is reported once and returned; a failure is reported once and,
   * unless it was the last attempt, followed by a sleep of Backoff(base, k) plus a
   * jitter drawn from [0, jitterMaxMs], which an interruption cuts short with a failure.
   * Drawing the jitter with a negative jitterMaxMs, and sleeping for a negative time,
   * throw IllegalArgument out of the method. `now` is the time provider's reading during
   * the call; `sleeps` lists the sleeps begun, `calls` the provider calls.
   */
  method FetchHistoricalDataWithRetry<T>(breaker: ProviderCircuitBreaker, maxAttempts: int,
                                         baseBackoffMs: int, jitterMaxMs: int, now: DateTime,
                                         fetch: nat -> Outcome<T>, jitter: nat -> int,
                                         interrupted: nat -> bool)
    returns (r: Result<ProviderResult<T>>, calls: nat, sleeps: seq<int>)
    requires jitterMaxMs >= 0 ==> forall k :: 0 <= jitter(k) <= jitterMaxMs
    modifies breaker
    ensures r.Ok? && r.value.circuitOpen <==> !AllowCall(old(breaker.Snapshot()), breaker.cooldownMinutes, now).allowed
    ensures r.Ok? && r.value.circuitOpen ==>
      r.value == CircuitOpenResult() && calls == 0 && sleeps == [] && breaker.Snapshot() == old(breaker.Snapshot())
    ensures calls <= maxAttempts || calls == 0
    ensures forall k :: 1 <= k < calls ==> fetch(k).Failed?
    ensures r.Ok? && r.value.success ==>
      1 <= calls && fetch(calls).Fetched? && r.value == SuccessResult(fetch(calls).prices)
    ensures r.Ok? && r.value.success ==> breaker.Snapshot() == AfterSuccess(
      FailAll(AllowCall(old(breaker.Snapshot()), breaker.cooldownMinutes, now).next,
              breaker.failureThreshold, SameTime(now, calls - 1)))
    ensures r.Ok? && !r.value.success && !r.value.circuitOpen && calls == 0 ==>
      maxAttempts < 1 && r.value == FailureResult(None)
    ensures r.Ok? && !r.value.success && !r.value.circuitOpen && calls >= 1 ==>
      fetch(calls).Failed? && r.value == FailureResult(Some(fetch(calls).error)) &&
      (calls == maxAttempts || (calls < maxAttempts && interrupted(calls)))
    ensures r.Err? ==>
      r.error == IllegalArgument && 1 <= calls < maxAttempts && fetch(calls).Failed? &&
      (jitterMaxMs < 0 || Backoff(baseBackoffMs, calls) + jitter(calls) < 0)
    ensures r.Err? || (!r.value.success && !r.value.circuitOpen) ==> breaker.Snapshot() == FailAll(
      AllowCall(old(breaker.Snapshot()), breaker.cooldownMinutes, now).next,
      breaker.failureThreshold, SameTime(now, calls))
    ensures |sleeps| == (if calls == 0 then 0
                         else if r.Err? || r.value.success || calls == maxAttempts then calls - 1
                         else calls)
    ensures forall i :: 0 <= i < |sleeps| ==>
      sleeps[i] == Backoff(baseBackoffMs, i + 1) + jitter(i + 1) && 0 <= sleeps[i] &&
      Backoff(baseBackoffMs, i + 1) <= sleeps[i] <= Backoff(baseBackoffMs, i + 1) + jitterMaxMs
  {
    var allowed := breaker.IsCallAllowed(now);
    if !allowed {
      return Ok(CircuitOpenResult()), 0, [];
    }
    r, calls, sleeps := Attempts(breaker, maxAttempts, baseBackoffMs, jitterMaxMs, now, fetch, jitter, interrupted);
  }

  /** Records the failure of attempt `attempt`, every earlier attempt having failed too. */
  method RecordFailedAttempt(breaker: ProviderCircuitBreaker, ghost admitted: Breaker, now: DateTime, attempt: nat)
    requires attempt >= 1
    requires breaker.Snapshot() == FailAll(admitted, breaker.failureThreshold, SameTime(now, attempt - 1))
    modifies breaker
    ensures breaker.Snapshot() == FailAll(admitted, breaker.failureThreshold, SameTime(now, attempt))
  {
    FailOneMore(admitted, breaker.failureThreshold, now, attempt - 1);
    breaker.RecordFailure(now);
  }

  /** The attempts of FetchHistoricalDataWithRetry once the breaker has admitted the call. */
  method Attempts<T>(breaker: ProviderCircuitBreaker, maxAttempts: int,
                     baseBackoffMs: int, jitterMaxMs: int, now: DateTime,
                     fetch: nat -> Outcome<T>, jitter: nat -> int, interrupted: nat -> bool)
    returns (r: Result<ProviderResult<T>>, calls: nat, sleeps: seq<int>)
    requires jitterMaxMs >= 0 ==> forall k :: 0 <= jitter(k) <= jitterMaxMs
    modifies breaker
    ensures r.Ok? ==> !r.value.circuitOpen
    ensures calls <= maxAttempts || calls == 0
    ensures forall k :: 1 <= k < calls ==> fetch(k).Failed?
    ensures r.Ok? && r.value.success ==>
      1 <= calls && fetch(calls).Fetched? && r.value == SuccessResult(fetch(calls).prices)
    ensures r.Ok? && r.value.success ==> breaker.Snapshot() == AfterSuccess(
      FailAll(old(breaker.Snapshot()), breaker.failureThreshold, SameTime(now, calls - 1)))
    ensures r.Ok? && !r.value.success && calls == 0 ==> maxAttempts < 1 && r.value == FailureResult(None)
    ensures r.Ok? && !r.value.success && calls >= 1 ==>
      fetch(calls).Failed? && r.value == FailureResult(Some(fetch(calls).error)) &&
      (calls == maxAttempts || (calls < maxAttempts && interrupted(calls)))
    ensures r.Err? ==>
      r.error == IllegalArgument && 1 <= calls < maxAttempts && fetch(calls).Failed? &&
      (jitterMaxMs < 0 || Backoff(baseBackoffMs, calls) + jitter(calls) < 0)
    ensures r.Err? || !r.value.success ==>
      breaker.Snapshot() == FailAll(old(breaker.Snapshot()), breaker.failureThreshold, SameTime(now, calls))
    ensures |sleeps| == (if calls == 0 then 0
                         else if r.Err? || r.value.success || calls == maxAttempts then calls - 1
                         else calls)
    ensures |sleeps| > 0 ==> jitterMaxMs >= 0
    ensures forall i :: 0 <= i < |sleeps| ==>
      sleeps[i] == Backoff(baseBackoffMs, i + 1) + jitter(i + 1) && 0 <= sleeps[i]
  {
    ghost var admitted := breaker.Snapshot();
    var lastException: Option<Exception> := None;
    calls := 0;
    sleeps := [];
    while calls < maxAttempts
      invariant calls <= maxAttempts || calls == 0
      invariant forall k :: 1 <= k <= calls ==> fetch(k).Failed?
      invariant lastException == if calls == 0 then None else Some(fetch(calls).error)
      invariant breaker.Snapshot() == FailAll(admitted, breaker.failureThreshold, SameTime(now, calls))
      invariant |sleeps| == (if calls == 0 then 0 else if calls == maxAttempts then calls - 1 else calls)
      invariant |sleeps| > 0 ==> jitterMaxMs >= 0
      invariant forall i :: 0 <= i < |sleeps| ==>
        sleeps[i] == Backoff(baseBackoffMs, i + 1) + jitter(i + 1) && 0 <= sleeps[i]
      decreases maxAttempts - calls
    {
      var attempt := calls + 1;
      calls := attempt;
      match fetch(attempt)
      case Fetched(prices) =>
        breaker.RecordSuccess();
        return Ok(SuccessResult(prices)), calls, sleeps;
      case Failed(e) =>
        lastException := Some(e);
        RecordFailedAttempt(breaker, admitted, now, attempt);
        if attempt < maxAttempts {
          var sleepTime := SleepAfter(baseBackoffMs, jitterMaxMs, jitter, attempt);
          if sleepTime.Err? {
            return Err(sleepTime.error), calls, sleeps;
          }
          sleeps := sleeps + [sleepTime.value];
          if interrupted(attempt) {
            return Ok(FailureResult(lastException)), calls, sleeps;
          }
        }
    }
    return Ok(FailureResult(lastException)), calls, sleeps;
  }
}
