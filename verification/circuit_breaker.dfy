/**
 * The provider circuit breaker: CLOSED admits calls, OPEN rejects them until the
 * cooldown has passed and then moves to HALF_OPEN, which admits every call. Failures
 * are counted; enough of them open the circuit, and a success closes it again.
 */
module CircuitBreakers {
  import opened Wrappers
  import opened Time

  datatype CircuitState = Closed | Open | HalfOpen

  /** The breaker's three fields, as a value. */
  datatype Breaker = Breaker(state: CircuitState, failures: int, openedAt: Option<DateTime>)

  /** A fresh breaker: closed, no failures, never opened. */
  const InitialBreaker: Breaker := Breaker(Closed, 0, None)

  /** What every reachable breaker satisfies. */
  predicate BreakerInvariant(b: Breaker, threshold: int) {
    b.failures >= 0 &&
    (b.state != Closed ==> b.failures >= threshold) &&
    (b.openedAt.None? <==> b.state == Closed)
  }

  /** The answer of isCallAllowed and the breaker it leaves behind. */
  datatype Decision = Decision(allowed: bool, next: Breaker)

  /** Whether the cooldown since the circuit opened has strictly passed at `now`. */
  predicate CooldownPassed(b: Breaker, cooldownMinutes: int, now: DateTime) {
    b.openedAt.Some? && IsAfter(now, PlusMinutes(b.openedAt.value, cooldownMinutes))
  }

  function AllowCall(b: Breaker, cooldownMinutes: int, now: DateTime): (r: Decision)
    ensures b.state != Open ==> r.allowed && r.next == b
    ensures b.state == Open ==> (r.allowed <==> CooldownPassed(b, cooldownMinutes, now))
    ensures b.state == Open && r.allowed ==> r.next == b.(state := HalfOpen)
    ensures !r.allowed ==> r.next == b
  {
    match b.state
    case Closed => Decision(true, b)
    case Open =>
      if CooldownPassed(b, cooldownMinutes, now) then Decision(true, b.(state := HalfOpen))
      else Decision(false, b)
    case HalfOpen => Decision(true, b)
  }

  function AfterSuccess(b: Breaker): (r: Breaker)
    ensures r.state == Closed && r.failures == 0
    ensures b.state != Closed ==> r.openedAt.None?
    ensures b.state == Closed ==> r.openedAt == b.openedAt
  {
    if b.state != Closed then Breaker(Closed, 0, None) else b.(failures := 0)
  }

  function AfterFailure(b: Breaker, threshold: int, now: DateTime): (r: Breaker)
    ensures r.failures == b.failures + 1
    ensures r.failures >= threshold && b.state != Open ==> r.state == Open && r.openedAt == Some(now)
    ensures !(r.failures >= threshold && b.state != Open) ==> r.state == b.state && r.openedAt == b.openedAt
    ensures b.state == Open ==> r.openedAt == b.openedAt
  {
    var failures := b.failures + 1;
    if failures >= threshold && b.state != Open then Breaker(Open, failures, Some(now))
    else b.(failures := failures)
  }

  /** Every operation keeps the invariant. */
  lemma InvariantPreserved(b: Breaker, threshold: int, cooldownMinutes: int, now: DateTime)
    requires BreakerInvariant(b, threshold)
    ensures BreakerInvariant(AllowCall(b, cooldownMinutes, now).next, threshold)
    ensures BreakerInvariant(AfterSuccess(b), threshold)
    ensures BreakerInvariant(AfterFailure(b, threshold, now), threshold)
  {
  }

  /** The breaker after a run of consecutive failures at the given times. */
  function FailAll(b: Breaker, threshold: int, times: seq<DateTime>): (r: Breaker)
    ensures r.failures == b.failures + |times|
  {
    if |times| == 0 then b
    else AfterFailure(FailAll(b, threshold, times[..|times| - 1]), threshold, times[|times| - 1])
  }

  /**
   * From a closed breaker with `f` failures, a run of failures opens the circuit exactly
   * when the count reaches the threshold, and the cooldown starts at the failure that
   * reached it: later failures do not restart it.
   */
  lemma {:induction false} ConsecutiveFailures(b: Breaker, threshold: int, times: seq<DateTime>)
    requires b.state == Closed && b.openedAt.None? && b.failures < threshold
    ensures FailAll(b, threshold, times).state == Open <==> b.failures + |times| >= threshold
    ensures FailAll(b, threshold, times).state != Open ==> FailAll(b, threshold, times) == b.(failures := b.failures + |times|)
    ensures b.failures + |times| >= threshold ==>
      FailAll(b, threshold, times).openedAt == Some(times[threshold - b.failures - 1])
  {
    if |times| > 0 {
      var prefix := times[..|times| - 1];
      ConsecutiveFailures(b, threshold, prefix);
      if b.failures + |prefix| >= threshold {
        assert prefix[threshold - b.failures - 1] == times[threshold - b.failures - 1];
      }
    }
  }

  /** From the initial breaker, `threshold` failures open the circuit and fewer do not. */
  lemma InitialBreakerOpensAtThreshold(threshold: int, times: seq<DateTime>)
    requires threshold >= 1
    ensures FailAll(InitialBreaker, threshold, times).failures == |times|
    ensures FailAll(InitialBreaker, threshold, times).state == Open <==> |times| >= threshold
  {
    ConsecutiveFailures(InitialBreaker, threshold, times);
  }

  class ProviderCircuitBreaker {
    const failureThreshold: int
    const cooldownMinutes: int
    var consecutiveFailures: int
    var circuitOpenedAt: Option<DateTime>
    var state: CircuitState

    constructor(failureThreshold: int, cooldownMinutes: int)
      ensures this.failureThreshold == failureThreshold && this.cooldownMinutes == cooldownMinutes
      ensures Snapshot() == InitialBreaker && Valid()
    {
      this.failureThreshold := failureThreshold;
      this.cooldownMinutes := cooldownMinutes;
      consecutiveFailures := 0;
      circuitOpenedAt := None;
      state := Closed;
    }

    function Snapshot(): Breaker
      reads this
    {
      Breaker(state, consecutiveFailures, circuitOpenedAt)
    }

    predicate Valid()
      reads this
    {
      BreakerInvariant(Snapshot(), failureThreshold)
    }

    /** `now` is the time provider's reading. */
    method IsCallAllowed(now: DateTime) returns (allowed: bool)
      modifies this
      ensures allowed == AllowCall(old(Snapshot()), cooldownMinutes, now).allowed
      ensures Snapshot() == AllowCall(old(Snapshot()), cooldownMinutes, now).next
      ensures old(Valid()) ==> Valid()
    {
      if state == Closed {
        return true;
      }
      if state == Open {
        var openedAt := circuitOpenedAt;
        if openedAt.Some? && IsAfter(now, PlusMinutes(openedAt.value, cooldownMinutes)) {
          state := HalfOpen;
          return true;
        }
        return false;
      }
      return true;
    }

    method RecordSuccess()
      modifies this
      ensures Snapshot() == AfterSuccess(old(Snapshot()))
      ensures old(Valid()) ==> Valid()
    {
      consecutiveFailures := 0;
      var previousState := state;
      state := Closed;
      if previousState != Closed {
        circuitOpenedAt := None;
      }
    }

    /** `now` is the time provider's reading, taken only when the circuit opens. */
    method RecordFailure(now: DateTime)
      modifies this
      ensures Snapshot() == AfterFailure(old(Snapshot()), failureThreshold, now)
      ensures old(Valid()) ==> Valid()
    {
      consecutiveFailures := consecutiveFailures + 1;
      var failures := consecutiveFailures;
      if failures >= failureThreshold && state != Open {
        state := Open;
        circuitOpenedAt := Some(now);
      }
    }
  }
}
