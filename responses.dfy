/**
 * What one attempt does once its response (or its transport error) is in:
 * the body it hands on, the bucket slot it releases, the resubmissions it
 * schedules and how it settles the caller's promise
 * (lib/rest/RequestHandler.ts:160-262).
 */
module Responses {
  import opened Wrappers
  import opened JsNum

  /** A response body after RequestHandler.ts:160-172. */
  datatype Body =
    | NullBody                                                 // `null`
    | TextBody(text: string)                                   // a string
    | ObjectBody(hasCode: bool, retryAfter: Option<JsNumber>)  // an object or array: has a `code` key; its `retry_after`
    | ScalarBody(truthy: bool)                                 // a number or boolean from JSON

  /**
   * The body: `null` for 204; otherwise the text, parsed as JSON when the
   * content type is exactly application/json (`parsed` is `None` when
   * `JSON.parse` throws, and the raw text is kept).
   */
  function ResponseBody(status: int, jsonContentType: bool, text: string, parsed: Option<Body>): (b: Body)
    ensures status == 204 ==> b == NullBody
    ensures status != 204 && (!jsonContentType || parsed.None?) ==> b == TextBody(text)
    ensures b.ObjectBody? ==> status != 204 && jsonContentType && parsed == Some(b)
  {
    if status == 204 then NullBody
    else if jsonContentType && parsed.Some? then parsed.value
    else TextBody(text)
  }

  /** How the caller's promise is settled. */
  datatype Settlement =
    | Resolved(body: Body)
    | RejectedREST(status: int, body: Body)   // DiscordRESTError
    | RejectedHTTP(status: int, body: Body)   // DiscordHTTPError
    | RejectedTypeError                       // reading `retry_after` of a null body
    | RejectedTimeout                         // "Request Timed Out"

  /** One observable step of an attempt, in program order. */
  datatype Effect =
    | Release                                 // `cb()`: the bucket slot is handed back
    | Resubmit                                // `this.request(options)` now, chained to the caller's promise
    | ResubmitAfter(delay: int, releaseFirst: bool)  // a timer that (releases the slot and) resubmits
    | Settle(s: Settlement)

  /** Rejection for a status above 300: REST error when the body is an object with `code`. */
  function ErrorFor(status: int, body: Body): (s: Settlement)
    ensures s.RejectedREST? <==> body.ObjectBody? && body.hasCode
    ensures s.RejectedREST? || s.RejectedHTTP?
    ensures s.status == status && s.body == body
  {
    if body.ObjectBody? && body.hasCode then RejectedREST(status, body) else RejectedHTTP(status, body)
  }

  /** `Math.floor(Math.random() * 1900 + 100)`: the delay before retrying a 502. */
  type Jitter = x: int | 100 <= x <= 1999 witness 100

  /** The number of earlier 502 retries of a request when it is (re)submitted (RequestHandler.ts:113). */
  const FreshAttempts: int := 0

  /**
   * The 429 delay: the header-derived `retryAfter`, or for a shared scope
   * the body's `retry_after` (undefined, read as NaN here, when the body
   * has none; the header value when the body is null and the read throws).
   */
  function TooManyDelay(body: Body, retryAfter: JsNumber, sharedScope: bool): (d: JsNumber)
    ensures !sharedScope || body.NullBody? ==> d == retryAfter
    ensures sharedScope && body.ObjectBody? && body.retryAfter.Some? ==> d == body.retryAfter.value
    ensures sharedScope && !body.NullBody? && d.Truthy() ==> body.ObjectBody? && body.retryAfter == Some(d)
  {
    if !sharedScope || body.NullBody? then retryAfter
    else if body.ObjectBody? && body.retryAfter.Some? then body.retryAfter.value
    else NaN
  }

  /**
   * RequestHandler.ts:216-257 for a response with `status` and `body`;
   * `attempts` is the attempt counter of the current `request` call.
   */
  function Classify(status: int, body: Body, retryAfter: JsNumber, sharedScope: bool,
                    attempts: int, jitter: Jitter): (effects: seq<Effect>)
    ensures status <= 300 ==> effects == [Release, Settle(Resolved(body))]
    ensures status == 502 && attempts + 1 < 4 ==> effects == [ResubmitAfter(jitter, false), Release]
    ensures status > 300 && status != 429 && !(status == 502 && attempts + 1 < 4) ==>
      effects == [Release, Settle(ErrorFor(status, body))]
  {
    if status > 300 then
      if status == 429 then
        Thrown(body, sharedScope) + Retry(TooManyDelay(body, retryAfter, sharedScope))
        + [Release, Settle(ErrorFor(status, body))]
      else if status == 502 && attempts + 1 < 4 then
        [ResubmitAfter(jitter, false), Release]
      else
        [Release, Settle(ErrorFor(status, body))]
    else
      [Release, Settle(Resolved(body))]
  }

  /**
   * Reading `retry_after` of a null body throws a TypeError that rejects the
   * caller; that happens exactly for a null body under a shared scope.
   */
  function Thrown(body: Body, sharedScope: bool): (effects: seq<Effect>)
    ensures Releases(effects) == 0 && !Resubmits(effects)
    ensures Outcome(effects) == Some(RejectedTypeError) <==> sharedScope && body.NullBody?
    ensures !(sharedScope && body.NullBody?) ==> Outcome(effects).None?
  {
    var e: seq<Effect> := if sharedScope && body.NullBody? then [Settle(RejectedTypeError)] else [];
    assert e != [] ==> e[1..] == [];
    e
  }

  /**
   * The 429 resubmission: a timer that releases the slot and resubmits after
   * a truthy delay; otherwise a release and an immediate resubmission.
   */
  function Retry(delay: JsNumber): (effects: seq<Effect>)
    ensures Releases(effects) == 1 && Outcome(effects).None? && Resubmits(effects)
    ensures delay.Truthy() ==> ResubmitAfter(delay.v, true) in effects && Resubmit !in effects
    ensures !delay.Truthy() ==> Resubmit in effects && forall i :: 0 <= i < |effects| ==> !effects[i].ResubmitAfter?
  {
    var e := if delay.Truthy() then [ResubmitAfter(delay.v, true)] else [Release, Resubmit];
    assert delay.Truthy() ==> e[1..] == [];
    assert !delay.Truthy() ==> e[1..][1..] == [] && e[1].Resubmit?;
    e
  }

  /** RequestHandler.ts:259-263: only an abort releases the slot and settles. */
  function ClassifyException(isAbort: bool): (effects: seq<Effect>)
    ensures isAbort ==> Outcome(effects) == Some(RejectedTimeout) && Releases(effects) == 1
    ensures !isAbort ==> effects == []
  {
    if isAbort then [Release, Settle(RejectedTimeout)] else []
  }

  /** The settlement the caller observes: the first one, as a promise ignores later ones. */
  function Outcome(effects: seq<Effect>): (o: Option<Settlement>)
    ensures o.Some? <==> exists i :: 0 <= i < |effects| && effects[i].Settle?
  {
    if effects == [] then None
    else if effects[0].Settle? then Some(effects[0].s)
    else
      var o := Outcome(effects[1..]);
      assert forall i :: 0 < i < |effects| ==> effects[i] == effects[1..][i - 1];
      o
  }

  /** How many times the attempt hands back its bucket slot, including from timers. */
  function Releases(effects: seq<Effect>): (n: nat)
    ensures n <= |effects|
  {
    if effects == [] then 0
    else
      (if effects[0].Release? || (effects[0].ResubmitAfter? && effects[0].releaseFirst) then 1 else 0)
      + Releases(effects[1..])
  }

  /** Whether the attempt submits the request again, now or from a timer. */
  predicate Resubmits(effects: seq<Effect>) {
    exists i :: 0 <= i < |effects| && (effects[i].Resubmit? || effects[i].ResubmitAfter?)
  }

  /** A status of at most 300 resolves with the body, releasing the slot once. */
  lemma SuccessResolves(status: int, body: Body, retryAfter: JsNumber, sharedScope: bool,
                        attempts: int, jitter: Jitter)
    requires status <= 300
    ensures Outcome(Classify(status, body, retryAfter, sharedScope, attempts, jitter)) == Some(Resolved(body))
    ensures Releases(Classify(status, body, retryAfter, sharedScope, attempts, jitter)) == 1
    ensures !Resubmits(Classify(status, body, retryAfter, sharedScope, attempts, jitter))
  {
    var e := Classify(status, body, retryAfter, sharedScope, attempts, jitter);
    assert e[1..][1..] == [];
  }

  /** 204 No Content (RFC 9110 section 15.3.5) resolves with `null`. */
  lemma NoContentResolvesNull(jsonContentType: bool, text: string, parsed: Option<Body>,
                              retryAfter: JsNumber, sharedScope: bool, attempts: int, jitter: Jitter)
    ensures Outcome(Classify(204, ResponseBody(204, jsonContentType, text, parsed), retryAfter,
                             sharedScope, attempts, jitter)) == Some(Resolved(NullBody))
  {
    SuccessResolves(204, NullBody, retryAfter, sharedScope, attempts, jitter);
  }

  /**
   * A 429 (RFC 6585 section 4) schedules a resubmission, yet falls through
   * to the generic error path: the caller's promise is rejected at once and
   * the slot is handed back twice. The rejection is the TypeError of a null
   * body under a shared scope, the 429's own error otherwise; the request
   * goes out again from a timer when the delay is truthy, at once otherwise.
   */
  lemma TooManyRequestsRejectsAndReleasesTwice(body: Body, retryAfter: JsNumber, sharedScope: bool,
                                               attempts: int, jitter: Jitter)
    ensures var e := Classify(429, body, retryAfter, sharedScope, attempts, jitter);
      && Resubmits(e)
      && Releases(e) == 2
      && Outcome(e) == Some(if sharedScope && body.NullBody? then RejectedTypeError else ErrorFor(429, body))
    ensures var e := Classify(429, body, retryAfter, sharedScope, attempts, jitter);
      var d := TooManyDelay(body, retryAfter, sharedScope);
      && (d.Truthy() ==> ResubmitAfter(d.v, true) in e)
      && (!d.Truthy() ==> Resubmit in e)
  {
    var thrown := Thrown(body, sharedScope);
    var retry := Retry(TooManyDelay(body, retryAfter, sharedScope));
    var tail := [Release, Settle(ErrorFor(429, body))];
    assert Releases(tail) == 1 && Outcome(tail) == Some(ErrorFor(429, body)) by {
      assert tail[1..][1..] == [];
    }
    assert Classify(429, body, retryAfter, sharedScope, attempts, jitter) == thrown + (retry + tail);
    Combine(thrown, retry, tail);
  }

  /** Effects in sequence: releases add up, the first settlement wins, a resubmission anywhere counts. */
  lemma Combine(x: seq<Effect>, y: seq<Effect>, z: seq<Effect>)
    requires Resubmits(y)
    ensures Releases(x + (y + z)) == Releases(x) + Releases(y) + Releases(z)
    ensures Outcome(x + (y + z)) == if Outcome(x).Some? then Outcome(x) else if Outcome(y).Some? then Outcome(y) else Outcome(z)
    ensures Resubmits(x + (y + z))
  {
    ReleasesAppend(x, y + z);
    ReleasesAppend(y, z);
    OutcomeAppend(x, y + z);
    OutcomeAppend(y, z);
    var i :| 0 <= i < |y| && (y[i].Resubmit? || y[i].ResubmitAfter?);
    assert (x + (y + z))[|x| + i] == y[i];
  }

  lemma OutcomeAppend(a: seq<Effect>, b: seq<Effect>)
    ensures Outcome(a + b) == if Outcome(a).Some? then Outcome(a) else Outcome(b)
  {
    if a != [] {
      assert (a + b)[1..] == a[1..] + b;
      if !a[0].Settle? {
        OutcomeAppend(a[1..], b);
      }
    } else {
      assert a + b == b;
    }
  }

  lemma ReleasesAppend(a: seq<Effect>, b: seq<Effect>)
    ensures Releases(a + b) == Releases(a) + Releases(b)
  {
    if a != [] {
      assert (a + b)[1..] == a[1..] + b;
      ReleasesAppend(a[1..], b);
    } else {
      assert a + b == b;
    }
  }

  /** A 502 within the retry cap resubmits after the jitter, releases once and does not settle. */
  lemma BadGatewayRetried(body: Body, retryAfter: JsNumber, sharedScope: bool, attempts: int, jitter: Jitter)
    requires attempts + 1 < 4
    ensures var e := Classify(502, body, retryAfter, sharedScope, attempts, jitter);
      && Outcome(e).None?
      && Releases(e) == 1
      && e[0] == ResubmitAfter(jitter, false) && 100 <= e[0].delay <= 1999
  {
    var e := Classify(502, body, retryAfter, sharedScope, attempts, jitter);
    assert e[1..][1..] == [];
  }

  /**
   * Every other status above 300 rejects with the error the body selects,
   * releases once and is not retried.
   */
  lemma OtherErrorsRejected(status: int, body: Body, retryAfter: JsNumber, sharedScope: bool,
                            attempts: int, jitter: Jitter)
    requires status > 300 && status != 429 && !(status == 502 && attempts + 1 < 4)
    ensures var e := Classify(status, body, retryAfter, sharedScope, attempts, jitter);
      && Outcome(e) == Some(ErrorFor(status, body))
      && Releases(e) == 1
      && !Resubmits(e)
  {
    var e := Classify(status, body, retryAfter, sharedScope, attempts, jitter);
    assert e[1..][1..] == [];
  }

  /**
   * The outcome of a request whose successive submissions receive the
   * statuses `statuses`; `None` while it is still pending. Each
   * resubmission is a fresh `request` call, so its attempt counter starts
   * again at `FreshAttempts`.
   */
  function ChainOutcome(statuses: seq<int>, body: Body, retryAfter: JsNumber, sharedScope: bool,
                        jitter: Jitter): Option<Settlement>
  {
    if statuses == [] then None
    else
      var e := Classify(statuses[0], body, retryAfter, sharedScope, FreshAttempts, jitter);
      if Outcome(e).Some? then Outcome(e)
      else if Resubmits(e) then ChainOutcome(statuses[1..], body, retryAfter, sharedScope, jitter)
      else None
  }

  /**
   * Because the counter is local to each `request` call, a run of 502
   * responses of any length is retried every time and never settles: the
   * four-attempt cap is never reached.
   */
  lemma {:induction false} BadGatewayChainNeverSettles(statuses: seq<int>, body: Body, retryAfter: JsNumber,
                                                        sharedScope: bool, jitter: Jitter)
    requires forall i :: 0 <= i < |statuses| ==> statuses[i] == 502
    ensures ChainOutcome(statuses, body, retryAfter, sharedScope, jitter).None?
  {
    if statuses != [] {
      var e := Classify(statuses[0], body, retryAfter, sharedScope, FreshAttempts, jitter);
      BadGatewayRetried(body, retryAfter, sharedScope, FreshAttempts, jitter);
      assert Resubmits(e) by { assert e[0].ResubmitAfter?; }
      BadGatewayChainNeverSettles(statuses[1..], body, retryAfter, sharedScope, jitter);
    }
  }

  /**
   * The guard `++attempts < 4` itself: a counter of 3 would reject the 502,
   * one of 2 would still retry it. No response is classified with either
   * value, since every attempt runs with the counter at `FreshAttempts`; the
   * cap never fires (`BadGatewayChainNeverSettles`).
   */
  lemma FourthBadGatewayRejected(body: Body, retryAfter: JsNumber, sharedScope: bool, jitter: Jitter)
    ensures Outcome(Classify(502, body, retryAfter, sharedScope, 3, jitter)) == Some(ErrorFor(502, body))
    ensures Outcome(Classify(502, body, retryAfter, sharedScope, 2, jitter)).None?
  {
    OtherErrorsRejected(502, body, retryAfter, sharedScope, 3, jitter);
    BadGatewayRetried(body, retryAfter, sharedScope, 2, jitter);
  }
}
