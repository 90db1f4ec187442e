/**
 * The few JavaScript number semantics the scheduler depends on: NaN as the
 * result of `Number(...)` on a non-numeric header, division truncated toward
 * zero and the 32-bit wrap-around that `~~` performs.
 */
module JsNum {

  /** An integral JavaScript number, or NaN. */
  datatype JsNumber = Int(v: int) | NaN {
    /** JavaScript truthiness of a number: false for 0 and NaN. */
    predicate Truthy() {
      Int? && v != 0
    }
  }

  const TwoTo32: int := 0x1_0000_0000
  const TwoTo31: int := 0x8000_0000

  /** `x / 10` followed by truncation toward zero (Dafny's own `/` is Euclidean). */
  function TruncDiv10(x: int): (q: int)
    ensures 0 <= x ==> 0 <= 10 * q <= x < 10 * q + 10
    ensures x < 0 ==> x <= 10 * q < x + 10 && q <= 0
  {
    if x >= 0 then x / 10 else -((-x) / 10)
  }

  /** ECMAScript ToInt32 of an integer: reduce modulo 2^32 into [-2^31, 2^31). */
  function ToInt32(n: int): (r: int)
    ensures -TwoTo31 <= r < TwoTo31
    ensures (n - r) % TwoTo32 == 0
    ensures -TwoTo31 <= n < TwoTo31 ==> r == n
  {
    var m := n % TwoTo32;
    if m >= TwoTo31 then m - TwoTo32 else m
  }

  /** The source's `~~(x / 10)`; `~~NaN` is 0. */
  function Tenth(x: JsNumber): (r: int)
    ensures -TwoTo31 <= r < TwoTo31
    ensures x.NaN? ==> r == 0
    ensures x.Int? && -10 * TwoTo31 < x.v < 10 * TwoTo31 ==> r == TruncDiv10(x.v)
  {
    match x
    case NaN => 0
    case Int(v) => ToInt32(TruncDiv10(v))
  }

  /** `a - b`, which is NaN when either operand is. */
  function Sub(a: JsNumber, b: JsNumber): (r: JsNumber)
    ensures r.NaN? <==> a.NaN? || b.NaN?
    ensures r.Int? ==> r.v + b.v == a.v
  {
    if a.NaN? || b.NaN? then NaN else Int(a.v - b.v)
  }
}
