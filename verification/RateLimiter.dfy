/**
 * The API-key rate limiter (app/middleware/rate_limiter.py): one counter per
 * API key and wall-clock UTC minute, kept in a key/value store with a
 * 60-second expiry, and the 401/429/header decisions of the middleware.
 *
 * The store (app/core/cache.py) is modelled as a map from counter keys to
 * entries with an expiry time. A read and a write each either reach the store
 * or fail (no connection, or an error raised by that one call): a failed read
 * gives nothing and a failed write is dropped, independently of each other.
 */
module RateLimiting {
  import opened Wrappers

  const WindowSeconds: int := 60
  const DefaultRequestsPerMinute: int := 60

  /**
   * The counter key "rate_limit:{api_key}:{YYYY-MM-DD-HH-MM}", as its two
   * parts: the API key and the UTC minute (minutes since the epoch).
   */
  datatype CounterKey = CounterKey(apiKey: string, minute: int)

  /** `_get_rate_limit_key`: the bucket of the wall-clock minute that contains `now`. */
  function RateLimitKey(apiKey: string, now: int): (k: CounterKey)
    ensures k.apiKey == apiKey
    ensures k.minute * 60 <= now < k.minute * 60 + 60
  {
    CounterKey(apiKey, now / 60)
  }

  /** Two moments share a counter only when they fall in the same wall-clock minute. */
  lemma SharedCounterSameMinute(a: string, b: string, t1: int, t2: int)
    requires RateLimitKey(a, t1) == RateLimitKey(b, t2)
    ensures a == b && t1 / 60 == t2 / 60 && -60 < t1 - t2 < 60
  {
  }

  /** A stored count and the time the store drops it. */
  datatype Entry = Entry(count: int, expiresAt: int)

  /** `(allowed, current_count, limit)`. */
  datatype CheckResult = CheckResult(allowed: bool, currentCount: int, limit: int)

  /**
   * What the limiter itself ever stores: positive counts that outlive the
   * minute they count (they are written during it, to expire 60 s later).
   */
  predicate ValidCounters(counters: map<CounterKey, Entry>) {
    forall k :: k in counters ==> counters[k].count >= 1 && counters[k].expiresAt >= k.minute * 60 + 60
  }

  /** `cache.get`: a live entry's count; `None` when absent, expired, or the read failed. */
  function Lookup(counters: map<CounterKey, Entry>, readOk: bool, key: CounterKey, now: int): Option<int> {
    if readOk && key in counters && now < counters[key].expiresAt then Some(counters[key].count) else None
  }

  /**
   * The decision of `_check_rate_limit` on the stored count (absent read as 0):
   * refuse at or above the limit, else admit and count one more.
   */
  function Decide(stored: Option<int>, limit: int): (r: CheckResult)
    ensures r.limit == limit
    ensures r.allowed <==> stored.GetOr(0) < limit
    ensures !r.allowed ==> r.currentCount == stored.GetOr(0)
    ensures r.allowed ==> r.currentCount == stored.GetOr(0) + 1 && r.currentCount <= limit
  {
    var count := if stored.Some? && stored.value != 0 then stored.value else 0;
    if count >= limit then CheckResult(false, count, limit)
    else CheckResult(true, count + 1, limit)
  }

  /**
   * One `_check_rate_limit(api_key)` at time `now` on the store, whose read
   * succeeds when `readOk` and whose write succeeds when `writeOk`: the
   * decision on the live count of the current minute's key, and the store
   * after it. Only that key's entry can change, and a count written is read
   * back for the rest of the minute.
   */
  function CheckStep(counters: map<CounterKey, Entry>, readOk: bool, writeOk: bool, limit: int, apiKey: string, now: int)
    : (r: (map<CounterKey, Entry>, CheckResult))
    ensures r.1 == Decide(Lookup(counters, readOk, RateLimitKey(apiKey, now), now), limit)
    ensures !r.1.allowed || !writeOk ==> r.0 == counters
    ensures forall k :: k != RateLimitKey(apiKey, now) ==> (k in r.0 <==> k in counters)
    ensures forall k :: k in counters && k != RateLimitKey(apiKey, now) ==> r.0[k] == counters[k]
    ensures ValidCounters(counters) ==> ValidCounters(r.0)
    ensures r.1.allowed && writeOk ==>
      var key := RateLimitKey(apiKey, now);
      forall t :: key.minute * 60 <= t < key.minute * 60 + 60 ==> Lookup(r.0, true, key, t) == Some(r.1.currentCount)
  {
    var key := RateLimitKey(apiKey, now);
    var decision := Decide(Lookup(counters, readOk, key, now), limit);
    if decision.allowed && writeOk then (counters[key := Entry(decision.currentCount, now + WindowSeconds)], decision)
    else (counters, decision)
  }

  /**
   * The admit/refuse answers of a sequence of checks by one API key, at the
   * given times, against a store that is reachable throughout or not at all.
   */
  function RunChecks(counters: map<CounterKey, Entry>, storeUp: bool, limit: int, apiKey: string, times: seq<int>)
    : (admitted: seq<bool>)
    ensures |admitted| == |times|
    decreases |times|
  {
    if times == [] then []
    else
      var step := CheckStep(counters, storeUp, storeUp, limit, apiKey, times[0]);
      [step.1.allowed] + RunChecks(step.0, storeUp, limit, apiKey, times[1..])
  }

  /**
   * Within one wall-clock minute, with `used` requests already counted, the
   * i-th further request is admitted exactly when `used + i < limit`: starting
   * from an empty bucket, the first `limit` are admitted and every later one
   * is refused.
   */
  lemma {:induction false} BucketAdmitsUpToLimit(counters: map<CounterKey, Entry>, limit: int, apiKey: string,
                                                 minute: int, used: nat, times: seq<int>)
    requires ValidCounters(counters)
    requires forall i :: 0 <= i < |times| ==> minute * 60 <= times[i] < minute * 60 + 60
    requires CounterKey(apiKey, minute) in counters ==> counters[CounterKey(apiKey, minute)].count == used
    requires CounterKey(apiKey, minute) !in counters ==> used == 0
    ensures forall i :: 0 <= i < |times| ==> RunChecks(counters, true, limit, apiKey, times)[i] == (used + i < limit)
    decreases |times|
  {
    if times != [] {
      var key := CounterKey(apiKey, minute);
      assert RateLimitKey(apiKey, times[0]) == key;
      var step := CheckStep(counters, true, true, limit, apiKey, times[0]);
      assert Lookup(counters, true, key, times[0]).GetOr(0) == used;
      var next := if used < limit then used + 1 else used;
      assert forall i :: 0 <= i < |times| - 1 ==> times[1..][i] == times[i + 1];
      BucketAdmitsUpToLimit(step.0, limit, apiKey, minute, next, times[1..]);
      var rest := RunChecks(step.0, true, limit, apiKey, times[1..]);
      assert RunChecks(counters, true, limit, apiKey, times) == [used < limit] + rest;
      forall i | 0 <= i < |times|
        ensures RunChecks(counters, true, limit, apiKey, times)[i] == (used + i < limit)
      {
        if i > 0 {
          assert rest[i - 1] == (next + (i - 1) < limit);
        }
      }
    }
  }

  /**
   * The limiter fails open: when the read fails every request is admitted as
   * the first of its minute; when the write fails too, nothing is stored.
   */
  lemma FailsOpen(counters: map<CounterKey, Entry>, writeOk: bool, limit: int, apiKey: string, now: int)
    requires limit >= 1
    ensures CheckStep(counters, false, writeOk, limit, apiKey, now).1 == CheckResult(true, 1, limit)
    ensures !writeOk ==> CheckStep(counters, false, false, limit, apiKey, now).0 == counters
  {
  }

  /**
   * A failed read followed by a successful write restarts the minute's count:
   * even with the bucket full, the request is admitted and the stored count
   * becomes 1, so `limit - 1` further requests fit in the same minute.
   */
  lemma {:induction false} ReadFailureRestartsBucket(counters: map<CounterKey, Entry>, limit: int, apiKey: string, now: int)
    requires ValidCounters(counters) && limit >= 1
    requires Lookup(counters, true, RateLimitKey(apiKey, now), now) == Some(limit)
    ensures Decide(Lookup(counters, true, RateLimitKey(apiKey, now), now), limit).allowed == false
    ensures var step := CheckStep(counters, false, true, limit, apiKey, now);
      && step.1 == CheckResult(true, 1, limit)
      && Lookup(step.0, true, RateLimitKey(apiKey, now), now) == Some(1)
  {
    var step := CheckStep(counters, false, true, limit, apiKey, now);
    var key := RateLimitKey(apiKey, now);
    assert key.minute * 60 <= now < key.minute * 60 + 60;
  }

  /** The X-RateLimit-* headers. */
  datatype RateHeaders = RateHeaders(limit: int, remaining: int, reset: int)

  /** What `dispatch` does with a request. */
  datatype Admission =
    | Unauthorized
    | TooManyRequests(currentCount: int, limit: int, retryAfter: int, headers: RateHeaders)
    | Forwarded(headers: RateHeaders)

  /** `not api_key`: the header is missing or empty. */
  predicate MissingApiKey(apiKey: Option<string>) {
    apiKey.None? || apiKey == Some("")
  }

  /** The branch of `dispatch` after the check: 429 with "0" remaining, or forward with headers. */
  function Respond(check: CheckResult, windowSeconds: int): (d: Admission)
    ensures d.TooManyRequests? <==> !check.allowed
    ensures d.Forwarded? <==> check.allowed
    ensures d.TooManyRequests? ==>
      d == TooManyRequests(check.currentCount, check.limit, 60, RateHeaders(check.limit, 0, 60))
    ensures d.Forwarded? ==>
      d.headers.limit == check.limit && d.headers.remaining + check.currentCount == check.limit
      && d.headers.reset == windowSeconds
  {
    if !check.allowed then
      TooManyRequests(check.currentCount, check.limit, 60, RateHeaders(check.limit, 0, 60))
    else
      Forwarded(RateHeaders(check.limit, check.limit - check.currentCount, windowSeconds))
  }

  /** An admitted request never sees a negative `X-RateLimit-Remaining`. */
  lemma AdmittedRemainingNonNegative(counters: map<CounterKey, Entry>, readOk: bool, writeOk: bool, limit: int,
                                     apiKey: string, now: int)
    ensures var d := Respond(CheckStep(counters, readOk, writeOk, limit, apiKey, now).1, WindowSeconds);
            d.Forwarded? ==> d.headers.remaining >= 0
  {
  }

  class RateLimitMiddleware {
    const requestsPerMinute: int
    const windowSeconds: int
    /** The counters in the shared store, and whether a client is connected to it. */
    var counters: map<CounterKey, Entry>
    var connected: bool

    ghost predicate Valid()
      reads this
    {
      windowSeconds == WindowSeconds && ValidCounters(counters)
    }

    constructor (connected: bool, requestsPerMinute: int := DefaultRequestsPerMinute)
      ensures Valid()
      ensures this.requestsPerMinute == requestsPerMinute && this.connected == connected
      ensures counters == map[]
    {
      this.requestsPerMinute := requestsPerMinute;
      windowSeconds := WindowSeconds;
      counters := map[];
      this.connected := connected;
    }

    /**
     * `_check_rate_limit`: read the count, refuse at the limit, else write
     * count + 1 with a 60 s expiry. `getRaises` and `setRaises` say whether
     * the store raised an error on this call's read and on its write.
     */
    method CheckRateLimit(apiKey: string, now: int, getRaises: bool, setRaises: bool) returns (r: CheckResult)
      requires Valid()
      modifies this
      ensures Valid() && connected == old(connected)
      ensures (counters, r) ==
        CheckStep(old(counters), connected && !getRaises, connected && !setRaises, requestsPerMinute, apiKey, now)
    {
      var key := RateLimitKey(apiKey, now);
      var stored := Lookup(counters, connected && !getRaises, key, now);
      var count := if stored.Some? && stored.value != 0 then stored.value else 0;
      if count >= requestsPerMinute {
        return CheckResult(false, count, requestsPerMinute);
      }
      var newCount := count + 1;
      if connected && !setRaises {
        counters := counters[key := Entry(newCount, now + windowSeconds)];
      }
      r := CheckResult(true, newCount, requestsPerMinute);
    }

    /**
     * `dispatch`: 401 without consulting the counter when the API key is
     * missing or empty; otherwise check the counter and answer 429 or forward.
     */
    method Dispatch(apiKey: Option<string>, now: int, getRaises: bool, setRaises: bool) returns (d: Admission)
      requires Valid()
      modifies this
      ensures Valid() && connected == old(connected)
      ensures MissingApiKey(apiKey) ==> d == Unauthorized && counters == old(counters)
      ensures !MissingApiKey(apiKey) ==>
        var step := CheckStep(old(counters), connected && !getRaises, connected && !setRaises,
                              requestsPerMinute, apiKey.value, now);
        counters == step.0 && d == Respond(step.1, windowSeconds)
    {
      if MissingApiKey(apiKey) {
        return Unauthorized;
      }
      var check := CheckRateLimit(apiKey.value, now, getRaises, setRaises);
      d := Respond(check, windowSeconds);
    }
  }
}
