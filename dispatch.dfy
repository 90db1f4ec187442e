/**
 * The request handler's own state: the per-route buckets, the global lock
 * and the queue of requests held while it is set
 * (lib/rest/RequestHandler.ts:18-53, 75-78, 106-271).
 *
 * A request's path from admission to its response: `Request` normalises it,
 * picks its route key and creates the bucket; the attempt it hands to the
 * bucket ends in `HandleResponse` or in `Responses.ClassifyException`.
 */
module Dispatch {
  import opened Wrappers
  import opened JsNum
  import Routes
  import Latency
  import RateLimits
  import Responses

  /** The methods the handler accepts (`RESTMethods` of lib/Constants.ts). */
  const RESTMethods: set<string> := {"GET", "POST", "PUT", "PATCH", "DELETE"}

  predicate IsLowerAscii(c: char) {
    'a' <= c <= 'z'
  }

  /**
   * `String.prototype.toUpperCase` of one character, as far as it can yield
   * ASCII: the letters a-z, and the only other characters whose full
   * upper-case mapping is ASCII, namely sharp s, dotless i, long s and the
   * Latin ligatures U+FB00-U+FB06 (which expand to two or three letters).
   * Every other character is kept as it is.
   */
  function UpperChar(c: char): (u: string)
    ensures 1 <= |u| <= 3
    ensures forall i :: 0 <= i < |u| ==> !IsLowerAscii(u[i])
    ensures u == [c] || forall i :: 0 <= i < |u| ==> 'A' <= u[i] <= 'Z'
    ensures IsLowerAscii(c) ==> u == [(c as int - 32) as char]
    ensures c as int < 128 && !IsLowerAscii(c) ==> u == [c]
  {
    if IsLowerAscii(c) then [(c as int - 32) as char]
    else if c == '\U{DF}' then "SS"
    else if c == '\U{131}' then "I"
    else if c == '\U{17F}' then "S"
    else if c == '\U{FB00}' then "FF"
    else if c == '\U{FB01}' then "FI"
    else if c == '\U{FB02}' then "FL"
    else if c == '\U{FB03}' then "FFI"
    else if c == '\U{FB04}' then "FFL"
    else if c == '\U{FB05}' || c == '\U{FB06}' then "ST"
    else [c]
  }

  /** `s.toUpperCase()`, character by character. */
  function ToUpper(s: string): (r: string)
    ensures |s| <= |r| <= 3 * |s|
    ensures forall i :: 0 <= i < |r| ==> !IsLowerAscii(r[i])
  {
    if s == [] then [] else UpperChar(s[0]) + ToUpper(s[1..])
  }

  lemma {:induction false} ToUpperAppend(a: string, b: string)
    ensures ToUpper(a + b) == ToUpper(a) + ToUpper(b)
  {
    if a == [] {
      assert a + b == b;
    } else {
      assert (a + b)[0] == a[0] && (a + b)[1..] == a[1..] + b;
      ToUpperAppend(a[1..], b);
    }
  }

  /** On ASCII text, upper-casing maps each character to one character. */
  lemma {:induction false} ToUpperAscii(s: string)
    requires forall i :: 0 <= i < |s| ==> s[i] as int < 128
    ensures |ToUpper(s)| == |s|
    ensures forall i :: 0 <= i < |s| ==> [ToUpper(s)[i]] == UpperChar(s[i])
  {
    if s != [] {
      ToUpperAscii(s[1..]);
      var r := ToUpper(s);
      assert r == UpperChar(s[0]) + ToUpper(s[1..]);
      assert |UpperChar(s[0])| == 1;
      forall i | 0 <= i < |s|
        ensures [r[i]] == UpperChar(s[i])
      {
        if i > 0 {
          assert r[i] == ToUpper(s[1..])[i - 1] && s[i] == s[1..][i - 1];
        }
      }
    }
  }

  /** Upper-casing twice gives what upper-casing once gives. */
  lemma {:induction false} ToUpperIdempotent(s: string)
    ensures ToUpper(ToUpper(s)) == ToUpper(s)
  {
    if s != [] {
      var u := UpperChar(s[0]);
      ToUpperAppend(u, ToUpper(s[1..]));
      ToUpperIdempotent(s[1..]);
      UpperCharFixed(s[0]);
    }
  }

  /** An upper-cased character upper-cases to itself. */
  lemma UpperCharFixed(c: char)
    ensures ToUpper(UpperChar(c)) == UpperChar(c)
  {
    var u := UpperChar(c);
    if u == [c] {
      assert ToUpper(u) == UpperChar(c) + ToUpper([]);
    } else {
      CapitalsFixed(u);
    }
  }

  lemma {:induction false} CapitalsFixed(u: string)
    requires forall i :: 0 <= i < |u| ==> 'A' <= u[i] <= 'Z'
    ensures ToUpper(u) == u
  {
    if u != [] {
      CapitalsFixed(u[1..]);
      assert UpperChar(u[0]) == [u[0]];
      assert u == [u[0]] + u[1..];
    }
  }

  /** A long s upper-cases to an ASCII S, so "po\u017Ft" is accepted as POST. */
  lemma LongSPostIsPost()
    ensures ToUpper("po\U{17F}t") == "POST" && ToUpper("po\U{17F}t") in RESTMethods
  {
    var s := "po\U{17F}t";
    assert ToUpper(s[3..]) == "T";
    assert ToUpper(s[2..]) == "S" + ToUpper(s[3..]);
    assert ToUpper(s[1..]) == "O" + ToUpper(s[2..]);
  }

  /** `auth`: absent or false, true (use the client's token) or an Authorization value. */
  datatype Auth = NoAuth | DefaultAuth | AuthValue(value: string)

  /** `options.auth` is truthy. */
  predicate Authenticated(a: Auth) {
    a.DefaultAuth? || (a.AuthValue? && a.value != "")
  }

  /** The fields of RequestOptions the handler reads before the transport call. */
  datatype RequestOptions = RequestOptions(verb: string, path: string, route: Option<string>, auth: Auth, priority: bool)

  /** A callback on the ready queue: it hands the request's attempt to the bucket of `route`. */
  datatype Waiting = Waiting(request: RequestOptions, route: string)

  /** Where `request` sends a new request. */
  datatype Admission =
    | InvalidMethod(verb: string)      // the `Invalid method` error
    | HeldForGlobal(route: string)     // onto the ready queue until the global lock clears
    | ToBucket(route: string)          // straight to the route's bucket

  /** RequestHandler.ts:106-110: upper-case the method and make the path absolute. */
  function Normalised(req: RequestOptions): (n: RequestOptions)
    ensures n.path != "" && n.path[0] == '/'
    ensures Routes.StartsWith(req.path, "/") ==> n.path == req.path
    ensures !Routes.StartsWith(req.path, "/") ==> n.path == "/" + req.path
    ensures n.verb == ToUpper(req.verb) && n.route == req.route && n.auth == req.auth && n.priority == req.priority
  {
    req.(verb := ToUpper(req.verb),
         path := if Routes.StartsWith(req.path, "/") then req.path else "/" + req.path)
  }

  /** An explicit non-empty route wins; otherwise `getRoute` on the normalised request. */
  function RouteFor(n: RequestOptions, now: int, latency: int, createdAt: string -> int): (route: string)
    requires n.path != "" && n.path[0] == '/'
    ensures n.route.Some? && n.route.value != "" ==> route == n.route.value
  {
    if n.route.Some? && n.route.value != "" then n.route.value
    else Routes.KeyString(Routes.GetRoute(Routes.Split(n.path[1..]), n.verb, now, Int(latency), createdAt))
  }

  class RequestHandler {
    var globalBlock: bool
    var readyQueue: seq<Waiting>
    var ratelimits: map<string, RateLimits.Bucket>
    const latencyRef: Latency.LatencyRef
    const disableLatencyCompensation: bool

    /** The latency windows are consistent and every held request has its bucket. */
    ghost predicate Valid()
      reads this, latencyRef
    {
      && latencyRef.Valid()
      && (forall i :: 0 <= i < |readyQueue| ==> readyQueue[i].route in ratelimits)
    }

    /** RequestHandler.ts:20-24, 30-53, with the options this model reads. */
    constructor (ratelimiterOffset: Option<int>, disableLatencyCompensation: bool)
      ensures Valid() && fresh(latencyRef)
      ensures !globalBlock && readyQueue == [] && ratelimits == map[]
      ensures this.disableLatencyCompensation == disableLatencyCompensation
      ensures latencyRef.latency == ratelimiterOffset.GetOr(0)
    {
      globalBlock := false;
      readyQueue := [];
      ratelimits := map[];
      this.disableLatencyCompensation := disableLatencyCompensation;
      latencyRef := new Latency.LatencyRef(ratelimiterOffset);
    }

    /**
     * RequestHandler.ts:106-113, 267-271: admit a request. `now` and
     * `createdAt` stand for `Date.now()` and `Base.getCreatedAt`.
     */
    method Request(req: RequestOptions, now: int, createdAt: string -> int) returns (a: Admission)
      requires Valid()
      modifies this`ratelimits, this`readyQueue
      ensures Valid()
      ensures a.InvalidMethod? <==> ToUpper(req.verb) !in RESTMethods
      ensures a.InvalidMethod? ==>
        a.verb == ToUpper(req.verb) && ratelimits == old(ratelimits) && readyQueue == old(readyQueue)
      ensures !a.InvalidMethod? ==>
        && a.route == RouteFor(Normalised(req), now, latencyRef.latency, createdAt)
        && a.route in ratelimits
        && ratelimits == (if a.route in old(ratelimits) then old(ratelimits)
                          else old(ratelimits)[a.route := RateLimits.NewBucket])
      ensures a.HeldForGlobal? <==> !a.InvalidMethod? && globalBlock && Authenticated(req.auth)
      ensures a.HeldForGlobal? ==>
        readyQueue == (if req.priority then [Waiting(Normalised(req), a.route)] + old(readyQueue)
                       else old(readyQueue) + [Waiting(Normalised(req), a.route)])
      ensures a.ToBucket? ==> readyQueue == old(readyQueue)
    {
      var n := Normalised(req);
      if n.verb !in RESTMethods {
        return InvalidMethod(n.verb);
      }
      var route := RouteFor(n, now, latencyRef.latency, createdAt);
      AddBucket(route);
      if globalBlock && Authenticated(n.auth) {
        Hold(Waiting(n, route));
        a := HeldForGlobal(route);
      } else {
        a := ToBucket(route);
      }
    }

    /** RequestHandler.ts:112: a route seen for the first time gets a fresh bucket. */
    method AddBucket(route: string)
      requires Valid()
      modifies this`ratelimits
      ensures Valid()
      ensures route in ratelimits
      ensures ratelimits == if route in old(ratelimits) then old(ratelimits)
                            else old(ratelimits)[route := RateLimits.NewBucket]
    {
      if route !in ratelimits {
        ratelimits := ratelimits[route := RateLimits.NewBucket];
      }
    }

    /** RequestHandler.ts:268: a priority request goes first, any other last. */
    method Hold(w: Waiting)
      requires Valid() && w.route in ratelimits
      modifies this`readyQueue
      ensures Valid()
      ensures readyQueue == if w.request.priority then [w] + old(readyQueue) else old(readyQueue) + [w]
    {
      if w.request.priority {
        readyQueue := [w] + readyQueue;
      } else {
        readyQueue := readyQueue + [w];
      }
    }

    /**
     * RequestHandler.ts:75-78: clear the lock and run every held callback,
     * oldest first; `handed` lists them in the order they reach their buckets.
     */
    method GlobalUnblock() returns (handed: seq<Waiting>)
      requires Valid()
      modifies this
      ensures Valid()
      ensures !globalBlock && readyQueue == []
      ensures handed == old(readyQueue)
      ensures forall i :: 0 <= i < |handed| ==> handed[i].route in ratelimits
      ensures ratelimits == old(ratelimits)
    {
      globalBlock := false;
      handed := [];
      while |readyQueue| > 0
        invariant handed + readyQueue == old(readyQueue)
        invariant ratelimits == old(ratelimits) && !globalBlock
        decreases |readyQueue|
      {
        var callback := readyQueue[0];
        assert handed + readyQueue == (handed + [callback]) + readyQueue[1..];
        readyQueue := readyQueue[1..];
        handed := handed + [callback];
      }
    }

    /**
     * RequestHandler.ts:155-257 after the transport call returned for a
     * request admitted under `route`: update the latency and clock-offset
     * estimates, apply the rate-limit headers, and classify the response.
     * `elapsed` is the measured round trip, `now` the single clock reading
     * used for `Date.now()` after it. Every `request` call queues exactly one
     * attempt and resubmits by calling `request` again, so each response is
     * classified with the counter still at `Responses.FreshAttempts`.
     */
    method HandleResponse(route: string, res: Response, elapsed: int, now: int,
                          jitter: Responses.Jitter) returns (effects: seq<Responses.Effect>, unblockAfter: Option<int>)
      requires Valid() && route in ratelimits
      modifies this, latencyRef
      ensures Valid()
      ensures disableLatencyCompensation ==>
        latencyRef.raw == old(latencyRef.raw) && latencyRef.latency == old(latencyRef.latency)
      ensures !disableLatencyCompensation ==>
        latencyRef.raw == Latency.Roll(old(latencyRef.raw), Int(elapsed))
        && latencyRef.latency == old(latencyRef.latency) - Tenth(old(latencyRef.raw)[0]) + Tenth(Int(elapsed))
      ensures old(latencyRef.lastTimeOffsetCheck) < now - Latency.OffsetCheckInterval ==>
        latencyRef.lastTimeOffsetCheck == now
        && latencyRef.timeOffsets == Latency.Roll(old(latencyRef.timeOffsets), Latency.OffsetSample(res.date, now))
      ensures old(latencyRef.lastTimeOffsetCheck) >= now - Latency.OffsetCheckInterval ==>
        latencyRef.timeOffsets == old(latencyRef.timeOffsets)
        && latencyRef.lastTimeOffsetCheck == old(latencyRef.lastTimeOffsetCheck)
      ensures
        var outcome := RateLimits.ApplyHeaders(old(ratelimits[route]), res.headers, route, now, res.date,
                                               Int(latencyRef.latency), old(globalBlock));
        && ratelimits == old(ratelimits)[route := outcome.bucket]
        && globalBlock == outcome.globalBlock
        && unblockAfter == outcome.unblockAfter
      ensures readyQueue == old(readyQueue)
      ensures effects == Responses.Classify(res.status, ResponseBodyOf(res), RateLimits.RetryAfter(res.headers),
                                            res.headers.sharedScope, Responses.FreshAttempts, jitter)
      ensures res.status == 502 ==> effects == [Responses.ResubmitAfter(jitter, false), Responses.Release]
    {
      if !disableLatencyCompensation {
        latencyRef.RecordLatency(elapsed);
      }
      var body := ResponseBodyOf(res);
      var _ := latencyRef.CheckTimeOffset(res.date, now);
      var outcome := RateLimits.ApplyHeaders(ratelimits[route], res.headers, route, now, res.date,
                                             Int(latencyRef.latency), globalBlock);
      ratelimits := ratelimits[route := outcome.bucket];
      globalBlock := outcome.globalBlock;
      unblockAfter := outcome.unblockAfter;
      effects := Responses.Classify(res.status, body, RateLimits.RetryAfter(res.headers),
                                    res.headers.sharedScope, Responses.FreshAttempts, jitter);
    }
  }

  /** A response as the attempt reads it; `date` is `Date.parse` of the Date header. */
  datatype Response = Response(status: int, headers: RateLimits.Headers, date: JsNumber,
                               jsonContentType: bool, text: string, parsed: Option<Responses.Body>)

  function ResponseBodyOf(res: Response): Responses.Body {
    Responses.ResponseBody(res.status, res.jsonContentType, res.text, res.parsed)
  }
}
