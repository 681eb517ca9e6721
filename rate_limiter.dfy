/**
 * The per-endpoint throttle of rate_limiter.py. Times are the readings of
 * the wall clock (`time.time()`, in seconds, as exact reals); the sleep is
 * returned as a duration instead of being performed, and the clock reading
 * taken after the sleep is an input.
 */
module RateLimiting {

  /**
   * How long `wait` sleeps: nothing for an endpoint it has never seen or
   * whose last request is at least one interval old, and otherwise exactly
   * the rest of the interval.
   */
  function SleepTime(last: map<string, real>, endpoint: string, now: real, minInterval: real): real {
    if endpoint in last && now - last[endpoint] < minInterval then minInterval - (now - last[endpoint]) else 0.0
  }

  /** The sleep is never negative, and it is positive exactly when the endpoint was seen less than an interval ago. */
  lemma SleepTimeMeaning(last: map<string, real>, endpoint: string, now: real, minInterval: real)
    ensures SleepTime(last, endpoint, now, minInterval) >= 0.0
    ensures SleepTime(last, endpoint, now, minInterval) > 0.0 <==>
              endpoint in last && now - last[endpoint] < minInterval
    ensures endpoint !in last ==> SleepTime(last, endpoint, now, minInterval) == 0.0
  {
  }

  /**
   * Spacing: the request that follows the wait starts no earlier than one
   * interval after the endpoint's previous request, for any clock that does
   * not run backwards across the sleep (`after >= now + sleep`).
   */
  lemma WaitSpacing(last: map<string, real>, endpoint: string, now: real, after: real, minInterval: real)
    requires endpoint in last
    requires after >= now + SleepTime(last, endpoint, now, minInterval)
    ensures after >= last[endpoint] + minInterval
  {
  }

  class RateLimiter {
    var requestsPerSecond: int
    /** The time of the last request recorded per endpoint. */
    var lastRequestTime: map<string, real>
    var minInterval: real

    ghost predicate Valid()
      reads this
    {
      requestsPerSecond != 0 && minInterval * requestsPerSecond as real == 1.0
    }

    /** `RateLimiter(requests_per_second)`: no endpoint seen yet; the interval is the reciprocal rate (0 raises). */
    constructor(requestsPerSecond: int)
      requires requestsPerSecond != 0
      ensures Valid()
      ensures this.requestsPerSecond == requestsPerSecond && lastRequestTime == map[]
      ensures minInterval == 1.0 / requestsPerSecond as real
    {
      this.requestsPerSecond := requestsPerSecond;
      lastRequestTime := map[];
      minInterval := 1.0 / requestsPerSecond as real;
    }

    /**
     * `wait(endpoint)`: `now` is the clock reading on entry and `after` the
     * reading once the sleep is over. Returns the requested sleep and records
     * `after` for this endpoint only.
     */
    method Wait(endpoint: string, now: real, after: real) returns (slept: real)
      requires Valid()
      modifies this
      ensures Valid()
      ensures slept == SleepTime(old(lastRequestTime), endpoint, now, minInterval)
      ensures lastRequestTime == old(lastRequestTime)[endpoint := after]
      ensures requestsPerSecond == old(requestsPerSecond) && minInterval == old(minInterval)
    {
      slept := 0.0;
      if endpoint in lastRequestTime {
        var elapsed := now - lastRequestTime[endpoint];
        if elapsed < minInterval {
          slept := minInterval - elapsed;
        }
      }
      lastRequestTime := lastRequestTime[endpoint := after];
    }
  }

  /** With a positive rate the interval is positive, so a repeated request to an endpoint is really held back. */
  lemma PositiveRateThrottles(requestsPerSecond: int, minInterval: real, last: map<string, real>, endpoint: string, now: real)
    requires requestsPerSecond > 0 && minInterval * requestsPerSecond as real == 1.0
    requires endpoint in last && now == last[endpoint]
    ensures SleepTime(last, endpoint, now, minInterval) == minInterval > 0.0
  {
  }

  /** One call of `wait`: the endpoint, the clock on entry and the clock after the sleep. */
  datatype Call = Call(endpoint: string, now: real, after: real)

  /** The record after a sequence of calls, each one overwriting its own endpoint. */
  function Replay(last: map<string, real>, calls: seq<Call>): map<string, real>
    decreases |calls|
  {
    if calls == [] then last
    else Replay(last[calls[0].endpoint := calls[0].after], calls[1..])
  }

  /** Every call's clock after the sleep is no earlier than its entry reading plus the sleep it asked for. */
  ghost predicate Monotonic(last: map<string, real>, calls: seq<Call>, minInterval: real)
    decreases |calls|
  {
    calls == [] ||
    (&& calls[0].after >= calls[0].now + SleepTime(last, calls[0].endpoint, calls[0].now, minInterval)
     && Monotonic(last[calls[0].endpoint := calls[0].after], calls[1..], minInterval))
  }

  /** The times recorded for one endpoint over a sequence of calls, in call order. */
  function TimesOf(calls: seq<Call>, endpoint: string): seq<real>
    decreases |calls|
  {
    if calls == [] then []
    else (if calls[0].endpoint == endpoint then [calls[0].after] else []) + TimesOf(calls[1..], endpoint)
  }

  /**
   * Over any sequence of waits with a clock that does not run backwards,
   * the successive requests to one endpoint are at least one interval apart,
   * the first of them one interval after the endpoint's earlier record.
   */
  lemma {:induction false} TraceSpacing(last: map<string, real>, calls: seq<Call>, minInterval: real, endpoint: string)
    requires Monotonic(last, calls, minInterval)
    ensures var ts := TimesOf(calls, endpoint);
            forall k :: 0 <= k < |ts| - 1 ==> ts[k + 1] >= ts[k] + minInterval
    ensures var ts := TimesOf(calls, endpoint);
            endpoint in last && |ts| > 0 ==> ts[0] >= last[endpoint] + minInterval
    decreases |calls|
  {
    if calls != [] {
      var c := calls[0];
      var last' := last[c.endpoint := c.after];
      TraceSpacing(last', calls[1..], minInterval, endpoint);
      if c.endpoint == endpoint && endpoint in last {
        WaitSpacing(last, endpoint, c.now, c.after, minInterval);
      }
    }
  }

  /** The final record of an endpoint is the time of its last call, or its earlier record when it was not called. */
  lemma {:induction false} ReplayRecordsLastCall(last: map<string, real>, calls: seq<Call>, endpoint: string)
    ensures var ts := TimesOf(calls, endpoint);
            && (endpoint in Replay(last, calls) <==> endpoint in last || |ts| > 0)
            && (|ts| > 0 ==> Replay(last, calls)[endpoint] == ts[|ts| - 1])
            && (|ts| == 0 && endpoint in last ==> Replay(last, calls)[endpoint] == last[endpoint])
    decreases |calls|
  {
    if calls != [] {
      ReplayRecordsLastCall(last[calls[0].endpoint := calls[0].after], calls[1..], endpoint);
    }
  }

  /**
   * The throttle is per endpoint: however many waits on other endpoints come
   * in between, an endpoint's next sleep is what it would have been without them.
   */
  lemma OtherEndpointsNeverThrottle(last: map<string, real>, calls: seq<Call>, endpoint: string, now: real, minInterval: real)
    requires TimesOf(calls, endpoint) == []
    ensures SleepTime(Replay(last, calls), endpoint, now, minInterval) == SleepTime(last, endpoint, now, minInterval)
  {
    ReplayRecordsLastCall(last, calls, endpoint);
  }
}
