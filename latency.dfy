/**
 * Latency and clock-offset tracking (lib/rest/RequestHandler.ts, `latencyRef`).
 *
 * Both estimates are rolling windows of the last ten samples. Instead of
 * re-averaging, each update subtracts the oldest sample's `~~(x / 10)` and
 * adds the newest one's, so a running value always equals a fixed bias plus
 * the sum of the truncated tenths of the window.
 */
module Latency {
  import opened Wrappers
  import opened JsNum

  const WindowSize: nat := 10
  /** Minimum milliseconds between two clock-offset samples (RequestHandler.ts:185). */
  const OffsetCheckInterval: int := 5000

  /**
   * The sum of `~~(x / 10)` over a window; each term is a 32-bit integer,
   * so the sum stays within |w| times the 32-bit range.
   */
  function SumTenths(w: seq<JsNumber>): (s: int)
    ensures -TwoTo31 * |w| <= s <= (TwoTo31 - 1) * |w|
  {
    if w == [] then 0 else Tenth(w[0]) + SumTenths(w[1..])
  }

  /** One rolling step: the oldest sample leaves, `x` joins at the back. */
  function Roll(w: seq<JsNumber>, x: JsNumber): (r: seq<JsNumber>)
    requires |w| > 0
    ensures |r| == |w|
    ensures r[|r| - 1] == x && r[..|r| - 1] == w[1..]
  {
    w[1..] + [x]
  }

  /** Rolling every sample of `xs` through the window, in order. */
  function RollAll(w: seq<JsNumber>, xs: seq<JsNumber>): (r: seq<JsNumber>)
    requires |w| > 0
    ensures |r| == |w|
    decreases |xs|
  {
    if xs == [] then w else RollAll(Roll(w, xs[0]), xs[1..])
  }

  lemma {:induction false} SumTenthsAppend(w: seq<JsNumber>, x: JsNumber)
    ensures SumTenths(w + [x]) == SumTenths(w) + Tenth(x)
  {
    if w != [] {
      assert (w + [x])[1..] == w[1..] + [x];
      SumTenthsAppend(w[1..], x);
    }
  }

  /** `new Array(n).fill(x)` */
  function Repeat(x: JsNumber, n: nat): (r: seq<JsNumber>)
    ensures |r| == n
  {
    if n == 0 then [] else [x] + Repeat(x, n - 1)
  }

  lemma {:induction false} RepeatHolds(x: JsNumber, n: nat)
    ensures forall i :: 0 <= i < n ==> Repeat(x, n)[i] == x
  {
    if n > 0 {
      RepeatHolds(x, n - 1);
      assert forall i :: 0 < i < n ==> Repeat(x, n)[i] == Repeat(x, n - 1)[i - 1];
    }
  }

  lemma {:induction false} SumTenthsConstant(x: JsNumber, n: nat)
    ensures SumTenths(Repeat(x, n)) == n * Tenth(x)
  {
    if n > 0 {
      var w := Repeat(x, n);
      assert w[0] == x && w[1..] == Repeat(x, n - 1);
      SumTenthsConstant(x, n - 1);
      MulStep(n, Tenth(x));
    }
  }

  lemma MulStep(n: nat, t: int)
    requires n > 0
    ensures n * t == t + (n - 1) * t
  {
  }

  /**
   * The update `running - ~~(oldest / 10) + ~~(x / 10)` together with the
   * window's roll keeps `running - SumTenths(window)` unchanged.
   */
  lemma RollKeepsBias(running: int, w: seq<JsNumber>, x: JsNumber)
    requires |w| > 0
    ensures (running - Tenth(w[0]) + Tenth(x)) - SumTenths(Roll(w, x)) == running - SumTenths(w)
  {
    SumTenthsAppend(w[1..], x);
  }

  /** After any run of samples, the window holds exactly the last |w| of (w + samples). */
  lemma {:induction false} WindowHoldsLatestSamples(w: seq<JsNumber>, xs: seq<JsNumber>)
    requires |w| > 0
    ensures RollAll(w, xs) == (w + xs)[|xs|..]
    decreases |xs|
  {
    if xs != [] {
      WindowHoldsLatestSamples(Roll(w, xs[0]), xs[1..]);
      assert Roll(w, xs[0]) + xs[1..] == (w + xs)[1..];
    }
  }

  /** The clock offset sample `headerNow + 500 - now` of RequestHandler.ts:186. */
  function OffsetSample(headerNow: JsNumber, now: int): (x: JsNumber)
    ensures headerNow.NaN? <==> x.NaN?
    ensures headerNow.Int? ==> x.v - 500 == headerNow.v - now
  {
    match headerNow
    case NaN => NaN
    case Int(h) => Int(h + 500 - now)
  }

  class LatencyRef {
    var lastTimeOffsetCheck: int
    var latency: int
    var raw: seq<JsNumber>
    var timeOffsets: seq<JsNumber>
    var timeoffset: int
    /** `latency - SumTenths(raw)`, fixed when the reference is created. */
    ghost const latencyBias: int

    ghost predicate Valid()
      reads this
    {
      && |raw| == WindowSize
      && |timeOffsets| == WindowSize
      && latency == latencyBias + SumTenths(raw)
      && timeoffset == SumTenths(timeOffsets)
    }

    /**
     * RequestHandler.ts:45-52 with `ratelimiterOffset` defaulted to 0, as the
     * handler's own options default it at :41.
     */
    constructor (ratelimiterOffset: Option<int>)
      ensures Valid()
      ensures lastTimeOffsetCheck == 0 && timeoffset == 0
      ensures latency == ratelimiterOffset.GetOr(0)
      ensures raw == Repeat(Int(ratelimiterOffset.GetOr(0)), WindowSize)
      ensures timeOffsets == Repeat(Int(0), WindowSize)
    {
      var offset := ratelimiterOffset.GetOr(0);
      lastTimeOffsetCheck := 0;
      latency := offset;
      raw := Repeat(Int(offset), WindowSize);
      timeOffsets := Repeat(Int(0), WindowSize);
      timeoffset := 0;
      latencyBias := offset - WindowSize * Tenth(Int(offset));
      new;
      SumTenthsConstant(Int(offset), WindowSize);
      SumTenthsConstant(Int(0), WindowSize);
    }

    /** RequestHandler.ts:157-158: push the round trip, shift the oldest out. */
    method RecordLatency(sample: int)
      requires Valid()
      modifies this
      ensures Valid()
      ensures raw == Roll(old(raw), Int(sample))
      ensures latency == old(latency) - Tenth(old(raw)[0]) + Tenth(Int(sample))
      ensures lastTimeOffsetCheck == old(lastTimeOffsetCheck)
      ensures timeOffsets == old(timeOffsets) && timeoffset == old(timeoffset)
    {
      raw := raw + [Int(sample)];
      var oldest := raw[0];
      raw := raw[1..];
      assert oldest == old(raw)[0] && raw == Roll(old(raw), Int(sample));
      RollKeepsBias(latency, old(raw), Int(sample));
      latency := latency - Tenth(oldest) + Tenth(Int(sample));
    }

    /**
     * RequestHandler.ts:185-192: at most once per five seconds, sample the
     * clock offset from the response's `Date` header.
     */
    method CheckTimeOffset(headerNow: JsNumber, now: int) returns (sampled: bool)
      requires Valid()
      modifies this
      ensures Valid()
      ensures sampled <==> old(lastTimeOffsetCheck) < now - OffsetCheckInterval
      ensures sampled ==> (
        && lastTimeOffsetCheck == now
        && timeOffsets == Roll(old(timeOffsets), OffsetSample(headerNow, now))
        && timeoffset == old(timeoffset) - Tenth(old(timeOffsets)[0]) + Tenth(OffsetSample(headerNow, now)))
      ensures !sampled ==> (
        && lastTimeOffsetCheck == old(lastTimeOffsetCheck)
        && timeOffsets == old(timeOffsets) && timeoffset == old(timeoffset))
      ensures raw == old(raw) && latency == old(latency)
    {
      sampled := lastTimeOffsetCheck < now - OffsetCheckInterval;
      if sampled {
        lastTimeOffsetCheck := now;
        var timeOffset := OffsetSample(headerNow, now);
        var oldest := timeOffsets[0];
        RollKeepsBias(timeoffset, timeOffsets, timeOffset);
        timeOffsets := timeOffsets[1..];
        timeoffset := timeoffset - Tenth(oldest) + Tenth(timeOffset);
        timeOffsets := timeOffsets + [timeOffset];
      }
    }
  }

  // ---------------------------------------------------------------------
  // The initialisation as written
  // ---------------------------------------------------------------------

  /**
   * RequestHandler.ts:48 as written: `latency` starts as the raw option,
   * `undefined` when it was not given, and every arithmetic use of
   * `undefined` yields NaN.
   */
  function InitialLatencyAsWritten(ratelimiterOffset: Option<int>): (l: JsNumber)
    ensures ratelimiterOffset.None? <==> l.NaN?
  {
    match ratelimiterOffset
    case Some(o) => Int(o)
    case None => NaN
  }

  /** RequestHandler.ts:158 on JavaScript numbers. */
  function LatencyStep(latency: JsNumber, oldest: JsNumber, sample: int): JsNumber {
    match latency
    case NaN => NaN
    case Int(l) => Int(l - Tenth(oldest) + Tenth(Int(sample)))
  }

  /** The latency after a run of round-trip samples. */
  function LatencyAfter(latency: JsNumber, raw: seq<JsNumber>, samples: seq<int>): JsNumber
    requires |raw| > 0
    decreases |samples|
  {
    if samples == [] then latency
    else LatencyAfter(LatencyStep(latency, raw[0], samples[0]), Roll(raw, Int(samples[0])), samples[1..])
  }

  /**
   * Without a `ratelimiterOffset` option the latency as written is NaN and
   * stays NaN whatever round trips are measured.
   */
  lemma {:induction false} UndefinedOffsetNeverRecovers(raw: seq<JsNumber>, samples: seq<int>)
    requires |raw| > 0
    ensures LatencyAfter(InitialLatencyAsWritten(None), raw, samples) == NaN
    decreases |samples|
  {
    if samples != [] {
      UndefinedOffsetNeverRecovers(Roll(raw, Int(samples[0])), samples[1..]);
    }
  }
}
