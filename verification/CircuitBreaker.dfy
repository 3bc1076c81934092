/**
 * The per-vendor circuit breaker (app/circuit_breaker.py): CLOSED until the
 * failure count reaches the threshold, then OPEN (calls are skipped) until the
 * cooldown has elapsed, then HALF_OPEN (calls go through again); any success
 * closes it and clears the count.
 *
 * The awaited call is replaced by its outcome (`Attempt`), which is only
 * looked at when the breaker lets the call through, and `utcnow()` by `now`
 * in whole seconds.
 */
module CircuitBreakers {
  import opened Wrappers

  datatype CircuitState = Closed | Open | HalfOpen {
    /** The enum's `.value`. */
    function Value(): (v: string)
      ensures v in {"CLOSED", "OPEN", "HALF_OPEN"}
      ensures Closed? <==> v == "CLOSED"
    {
      match this
      case Closed => "CLOSED"
      case Open => "OPEN"
      case HalfOpen => "HALF_OPEN"
    }
  }

  /** What the protected function does if it is invoked. */
  datatype Attempt<T> = Returns(value: T) | Raises(error: string)

  /** What `call` does: skip (returning `None`), return the value, or re-raise. */
  datatype CallResult<T> = Skipped | Returned(value: T) | Reraised(error: string)

  /** The four mutable fields of a breaker, as one value. */
  datatype Fields = Fields(state: CircuitState, failureCount: int,
                           lastFailureTime: Option<int>, openedAt: Option<int>)

  /** The values `__init__` and `reset` give the fields. */
  const Initial: Fields := Fields(Closed, 0, None, None)

  /**
   * What every reachable field combination satisfies: an open or half-open
   * breaker has reached the threshold and remembers when it opened; a closed
   * one has no opening time; a failure time is recorded exactly when failures are.
   */
  predicate Consistent(f: Fields, threshold: int) {
    && f.failureCount >= 0
    && (f.lastFailureTime.None? <==> f.failureCount == 0)
    && (f.state == Closed ==> f.openedAt.None? && (f.failureCount == 0 || f.failureCount < threshold))
    && (f.state != Closed ==> f.failureCount >= threshold && f.openedAt.Some?)
  }

  /** `_should_attempt_reset`: OPEN, with an opening time, and the cooldown has fully elapsed. */
  predicate ShouldAttemptReset(f: Fields, cooldown: int, now: int) {
    f.state == Open && f.openedAt.Some? && now - f.openedAt.value >= cooldown
  }

  /** The fields after a raised call: one more failure, at `now`; OPEN from the threshold on. */
  function AfterFailure(f: Fields, threshold: int, now: int): (g: Fields)
    ensures g.failureCount == f.failureCount + 1 && g.lastFailureTime == Some(now)
    ensures g.failureCount >= threshold ==> g.state == Open && g.openedAt == Some(now)
    ensures g.failureCount < threshold ==> g.state == f.state && g.openedAt == f.openedAt
  {
    var count := f.failureCount + 1;
    if count >= threshold then Fields(Open, count, Some(now), Some(now))
    else f.(failureCount := count, lastFailureTime := Some(now))
  }

  /**
   * One `call` at time `now`, as a function of the fields before it: the new
   * fields and what the caller sees.
   */
  function Step<T>(f: Fields, threshold: int, cooldown: int, now: int, attempt: Attempt<T>): (r: (Fields, CallResult<T>))
    ensures r.1.Skipped? <==> f.state == Open && !ShouldAttemptReset(f, cooldown, now)
    ensures r.1.Skipped? ==> r.0 == f
    ensures !r.1.Skipped? && attempt.Returns? ==> r.0 == Initial && r.1 == Returned(attempt.value)
    ensures !r.1.Skipped? && attempt.Raises? ==>
      && r.1 == Reraised(attempt.error)
      && r.0.failureCount == f.failureCount + 1
      && r.0.lastFailureTime == Some(now)
      && (r.0.failureCount >= threshold ==> r.0.state == Open && r.0.openedAt == Some(now))
    ensures Consistent(f, threshold) ==> Consistent(r.0, threshold)
  {
    var g := if ShouldAttemptReset(f, cooldown, now) then f.(state := HalfOpen) else f;
    if g.state == Open then (g, Skipped)
    else
      match attempt
      case Returns(v) => (Initial, Returned(v))
      case Raises(e) => (AfterFailure(g, threshold, now), Reraised(e))
  }

  /** While OPEN and inside the cooldown, a call is skipped and nothing changes. */
  lemma OpenRejectsDuringCooldown<T>(f: Fields, threshold: int, cooldown: int, now: int, attempt: Attempt<T>)
    requires Consistent(f, threshold) && f.state == Open
    requires now - f.openedAt.value < cooldown
    ensures Step(f, threshold, cooldown, now, attempt) == (f, Skipped)
  {
  }

  /** Once the cooldown has elapsed (boundary included), an OPEN breaker lets the call through. */
  lemma CooldownElapsedLetsCallThrough<T>(f: Fields, threshold: int, cooldown: int, now: int, attempt: Attempt<T>)
    requires Consistent(f, threshold) && f.state == Open
    requires now - f.openedAt.value >= cooldown
    ensures !Step(f, threshold, cooldown, now, attempt).1.Skipped?
    ensures attempt.Raises? ==> Step(f, threshold, cooldown, now, attempt).0.state == Open
    ensures attempt.Raises? ==> Step(f, threshold, cooldown, now, attempt).0.openedAt == Some(now)
  {
  }

  /** In a consistent breaker below the threshold, a failure leaves it CLOSED. */
  lemma FailureBelowThresholdStaysClosed<T>(f: Fields, threshold: int, cooldown: int, now: int, error: string)
    requires Consistent(f, threshold)
    requires f.failureCount + 1 < threshold
    ensures Step(f, threshold, cooldown, now, Attempt<T>.Raises(error)).0.state == Closed
  {
  }

  /** A half-open failure always reopens, with a fresh opening time. */
  lemma HalfOpenFailureReopens<T>(f: Fields, threshold: int, cooldown: int, now: int, error: string)
    requires Consistent(f, threshold) && f.state == HalfOpen
    ensures Step(f, threshold, cooldown, now, Attempt<T>.Raises(error)).0.state == Open
    ensures Step(f, threshold, cooldown, now, Attempt<T>.Raises(error)).0.openedAt == Some(now)
  {
  }

  /**
   * With the default threshold 3 and cooldown 30: three failures from a fresh
   * breaker open it; a call 29 s later is skipped; one 30 s later probes and,
   * on success, closes it again.
   */
  lemma DefaultScenario(t: int, e: string)
    ensures var f1 := Step(Initial, 3, 30, t, Attempt<int>.Raises(e)).0;
            var f2 := Step(f1, 3, 30, t + 1, Attempt<int>.Raises(e)).0;
            var f3 := Step(f2, 3, 30, t + 2, Attempt<int>.Raises(e)).0;
            && f1.state == Closed && f2.state == Closed
            && f3 == Fields(Open, 3, Some(t + 2), Some(t + 2))
            && Step(f3, 3, 30, t + 31, Returns(7)) == (f3, Skipped)
            && Step(f3, 3, 30, t + 32, Returns(7)) == (Initial, Returned(7))
  {
  }

  /** `get_state()`: the monitoring dictionary. */
  datatype StateInfo = StateInfo(
    vendor: string, state: string, failureCount: int, failureThreshold: int, cooldownSeconds: int,
    openedSecondsAgo: Option<int>, cooldownRemaining: Option<int>)

  class CircuitBreaker {
    const vendorName: string
    const failureThreshold: int
    const cooldownSeconds: int

    var state: CircuitState
    var failureCount: int
    var lastFailureTime: Option<int>
    var openedAt: Option<int>

    function Snapshot(): Fields
      reads this
    {
      Fields(state, failureCount, lastFailureTime, openedAt)
    }

    ghost predicate Valid()
      reads this
    {
      Consistent(Snapshot(), failureThreshold)
    }

    constructor (vendorName: string, failureThreshold: int := 3, cooldownSeconds: int := 30)
      ensures Valid() && Snapshot() == Initial
      ensures this.vendorName == vendorName && this.failureThreshold == failureThreshold
      ensures this.cooldownSeconds == cooldownSeconds
    {
      this.vendorName := vendorName;
      this.failureThreshold := failureThreshold;
      this.cooldownSeconds := cooldownSeconds;
      state := Closed;
      failureCount := 0;
      lastFailureTime := None;
      openedAt := None;
    }

    /** `_should_attempt_reset` at time `now`. */
    function ShouldAttemptResetAt(now: int): (b: bool)
      reads this
      ensures b <==> ShouldAttemptReset(Snapshot(), cooldownSeconds, now)
    {
      state == Open && openedAt.Some? && now - openedAt.value >= cooldownSeconds
    }

    /** `call`: the gate, then the call's outcome applied to the fields. */
    method Call<T>(now: int, attempt: Attempt<T>) returns (r: CallResult<T>)
      requires Valid()
      modifies this
      ensures Valid()
      ensures (Snapshot(), r) == Step(old(Snapshot()), failureThreshold, cooldownSeconds, now, attempt)
    {
      if ShouldAttemptResetAt(now) {
        state := HalfOpen;
      }
      if state == Open {
        return Skipped;
      }
      match attempt
      case Returns(v) =>
        state := Closed;
        failureCount := 0;
        lastFailureTime := None;
        openedAt := None;
        r := Returned(v);
      case Raises(e) =>
        failureCount := failureCount + 1;
        lastFailureTime := Some(now);
        if failureCount >= failureThreshold {
          state := Open;
          openedAt := Some(now);
        }
        r := Reraised(e);
    }

    /**
     * `get_state` at time `now`: the elapsed time and the remaining cooldown,
     * never negative, are reported only when an opening time is recorded.
     */
    function GetState(now: int): (info: StateInfo)
      reads this
      ensures info.vendor == vendorName && info.failureThreshold == failureThreshold
      ensures info.cooldownSeconds == cooldownSeconds
      ensures info.state == state.Value() && info.failureCount == failureCount
      ensures info.cooldownRemaining.Some? <==> openedAt.Some?
      ensures info.openedSecondsAgo.Some? <==> openedAt.Some?
      ensures openedAt.Some? ==> info.openedSecondsAgo.value == now - openedAt.value
      ensures openedAt.Some? ==> info.cooldownRemaining.value >= 0
      ensures openedAt.Some? && now - openedAt.value < cooldownSeconds ==>
                info.cooldownRemaining.value == cooldownSeconds - (now - openedAt.value)
      ensures openedAt.Some? && now - openedAt.value >= cooldownSeconds ==> info.cooldownRemaining.value == 0
    {
      var base := StateInfo(vendorName, state.Value(), failureCount, failureThreshold, cooldownSeconds, None, None);
      match openedAt
      case None => base
      case Some(at) =>
        var elapsed := now - at;
        base.(openedSecondsAgo := Some(elapsed),
              cooldownRemaining := Some(if cooldownSeconds - elapsed > 0 then cooldownSeconds - elapsed else 0))
    }

    /** `reset`: back to the values `__init__` gave. */
    method Reset()
      modifies this
      ensures Valid() && Snapshot() == Initial
    {
      state := Closed;
      failureCount := 0;
      lastFailureTime := None;
      openedAt := None;
    }
  }
}
