/** Optional values and fallible results, as used throughout the model. */
module Wrappers {

  /** A value that may be absent: an omitted JSON field, `undefined`, or `null`. */
  datatype Option<+T> = None | Some(value: T) {

    /** The value if present, the fallback otherwise (JavaScript's `??` and `{...defaults, ...body}`). */
    function GetOr(fallback: T): T {
      match this
      case Some(v) => v
      case None => fallback
    }
  }

  /** The outcome of an operation that may throw. */
  datatype Result<+R, +E> = Success(value: R) | Failure(error: E)
}
