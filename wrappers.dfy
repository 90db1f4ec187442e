/** Optional and fallible values. */
module Wrappers {

  /** A value that may be absent: `undefined` in the source. */
  datatype Option<+T> = None | Some(value: T) {
    function GetOr(default: T): (r: T)
      ensures Some? ==> r == value
      ensures None? ==> r == default
    {
      match this
      case Some(v) => v
      case None => default
    }

    /** `x !== undefined ? x : fallback` */
    function Or(fallback: Option<T>): (r: Option<T>)
      ensures Some? ==> r == this
      ensures None? ==> r == fallback
    {
      if Some? then this else fallback
    }
  }

  /** The outcome of an operation that throws instead of returning. */
  datatype Result<+R, +E> = Success(value: R) | Failure(error: E)
}
