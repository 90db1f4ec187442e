/**
 * Bucket state from rate-limit headers (lib/rest/RequestHandler.ts:193-214).
 *
 * Header values arrive already converted by `Number(...)`: `None` for an
 * absent header, `NaN` for one that is not numeric.
 */
module RateLimits {
  import opened Wrappers
  import opened JsNum
  import Routes

  /**
   * The fields of a route's SequentialBucket that the handler writes.
   * `None` stands for the value SequentialBucket's own constructor gave the
   * field, which the handler has not overwritten yet.
   */
  datatype Bucket = Bucket(limit: JsNumber, remaining: Option<int>, reset: Option<JsNumber>)

  /** `new SequentialBucket(1, latencyRef)` (RequestHandler.ts:112). */
  const NewBucket: Bucket := Bucket(Int(1), None, None)

  /** The rate-limit headers of one response. */
  datatype Headers = Headers(
    limit: Option<JsNumber>,       // x-ratelimit-limit
    remaining: Option<JsNumber>,   // x-ratelimit-remaining
    resetAfter: Option<JsNumber>,  // x-ratelimit-reset-after
    retryAfter: Option<JsNumber>,  // retry-after
    reset: Option<JsNumber>,       // x-ratelimit-reset
    global: bool,                  // x-ratelimit-global is present
    sharedScope: bool)             // x-ratelimit-scope is "shared"

  /** `Number(h["x-ratelimit-reset-after"] || h["retry-after"] || 0)` (RequestHandler.ts:204). */
  function RetryAfter(h: Headers): (d: JsNumber)
    ensures h.resetAfter.Some? ==> d == h.resetAfter.value
    ensures h.resetAfter.None? && h.retryAfter.Some? ==> d == h.retryAfter.value
    ensures h.resetAfter.None? && h.retryAfter.None? ==> d == Int(0)
  {
    if h.resetAfter.Some? then h.resetAfter.value
    else if h.retryAfter.Some? then h.retryAfter.value
    else Int(0)
  }

  /** `retryAfter >= 0`: false for NaN. */
  predicate NonNegative(x: JsNumber) {
    x.Int? && x.v >= 0
  }

  /** `x || 1` for a non-negative number. */
  function OrOne(x: int): (r: int)
    requires x >= 0
    ensures r >= 1
    ensures x != 0 ==> r == x
  {
    if x != 0 then x else 1
  }

  /** `Math.max(x, now)`, which is NaN when `x` is. */
  function MaxWithNaN(x: JsNumber, now: int): (r: JsNumber)
    ensures x.NaN? <==> r.NaN?
    ensures x.Int? ==> r.v >= now && r.v >= x.v && (r.v == now || r.v == x.v)
  {
    match x
    case NaN => NaN
    case Int(v) => Int(if v >= now then v else now)
  }

  /** What the headers do to the bucket and the global lock. */
  datatype HeaderOutcome = HeaderOutcome(bucket: Bucket, globalBlock: bool, unblockAfter: Option<int>)

  /**
   * RequestHandler.ts:193-214 for the response's bucket `b` under key
   * `route`; `now` is `Date.now()`, `headerNow` the parsed `Date` header and
   * `latency` the latency estimate just updated. A global lock is requested
   * through `unblockAfter`, the delay of the `globalUnblock` timer.
   */
  function ApplyHeaders(b: Bucket, h: Headers, route: string, now: int, headerNow: JsNumber,
                        latency: JsNumber, globalBlock: bool): (r: HeaderOutcome)
    // limit: only a present x-ratelimit-limit changes it
    ensures h.limit.None? ==> r.bucket.limit == b.limit
    ensures h.limit.Some? ==> r.bucket.limit == h.limit.value
    // remaining: 1 without the header, else its value, with NaN read as 0
    ensures h.remaining.None? ==> r.bucket.remaining == Some(1)
    ensures h.remaining.Some? && h.remaining.value.Int? ==> r.bucket.remaining == Some(h.remaining.value.v)
    ensures h.remaining == Some(NaN) ==> r.bucket.remaining == Some(0)
    // a global limit locks every authenticated request and leaves reset alone
    ensures r.unblockAfter.Some? <==> h.global && NonNegative(RetryAfter(h))
    ensures r.globalBlock <==> globalBlock || r.unblockAfter.Some?
    ensures r.unblockAfter.Some? ==> r.unblockAfter.value >= 1 && r.bucket.reset == b.reset
    ensures r.unblockAfter.Some? && RetryAfter(h).v > 0 ==> r.unblockAfter.value == RetryAfter(h).v
    // a non-negative delay without the global header: reset strictly after now
    ensures !h.global && NonNegative(RetryAfter(h)) ==>
      r.bucket.reset == Some(Int(OrOne(RetryAfter(h).v) + now)) && r.bucket.reset.value.v > now
    // otherwise x-ratelimit-reset (scaled by 100, less the latency, at least now), else now
    ensures !NonNegative(RetryAfter(h)) && h.reset.Some? && h.reset.value.Int? && latency.Int? ==>
      r.bucket.reset.Some? && r.bucket.reset.value.Int? && r.bucket.reset.value.v >= now
    ensures !NonNegative(RetryAfter(h)) && h.reset.Some? && (h.reset.value.NaN? || latency.NaN?) ==>
      r.bucket.reset == Some(NaN)
    ensures !NonNegative(RetryAfter(h)) && h.reset.None? ==> r.bucket.reset == Some(Int(now))
  {
    var limit := if h.limit.Some? then h.limit.value else b.limit;
    var remaining :=
      if h.remaining.None? then 1
      else match h.remaining.value
        case Int(v) => v
        case NaN => 0;
    var retryAfter := RetryAfter(h);
    if NonNegative(retryAfter) then
      if h.global then
        HeaderOutcome(Bucket(limit, Some(remaining), b.reset), true, Some(OrOne(retryAfter.v)))
      else
        HeaderOutcome(Bucket(limit, Some(remaining), Some(Int(OrOne(retryAfter.v) + now))), globalBlock, None)
    else
      var reset :=
        if h.reset.Some? then
          var resetTime := match h.reset.value
            case NaN => NaN
            case Int(x) => Int(x * 100);
          var resetTime' :=
            if Routes.EndsWith(route, "/reactions/:id") && resetTime.Int? && headerNow.Int?
               && resetTime.v - headerNow.v == 1000
            then Int(now + 250) else resetTime;
          MaxWithNaN(Sub(resetTime', latency), now)
        else Int(now);
      HeaderOutcome(Bucket(limit, Some(remaining), Some(reset)), globalBlock, None)
  }

  /**
   * x-ratelimit-reset is consulted only when the delay is negative or NaN;
   * with a usable (or defaulted) delay the outcome does not depend on it.
   */
  lemma ResetHeaderIgnoredWithDelay(b: Bucket, h: Headers, other: Option<JsNumber>, route: string, now: int,
                                    headerNow: JsNumber, latency: JsNumber, globalBlock: bool)
    requires NonNegative(RetryAfter(h))
    ensures ApplyHeaders(b, h, route, now, headerNow, latency, globalBlock)
         == ApplyHeaders(b, h.(reset := other), route, now, headerNow, latency, globalBlock)
  {
    assert RetryAfter(h) == RetryAfter(h.(reset := other));
  }

  /**
   * With neither x-ratelimit-reset-after nor retry-after the delay defaults
   * to 0, so the bucket resets one millisecond after now, never at now.
   */
  lemma NoDelayHeadersResetAfterOneMillisecond(b: Bucket, h: Headers, route: string, now: int,
                                               headerNow: JsNumber, latency: JsNumber, globalBlock: bool)
    requires h.resetAfter.None? && h.retryAfter.None? && !h.global
    ensures ApplyHeaders(b, h, route, now, headerNow, latency, globalBlock).bucket.reset == Some(Int(now + 1))
    ensures !ApplyHeaders(b, h, route, now, headerNow, latency, globalBlock).globalBlock <==> !globalBlock
  {
  }
}
