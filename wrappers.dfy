/** Optional values and the outcome of a conversion that may raise. */
module Wrappers {

  /** A value that may be absent (Python's `None`). */
  datatype Option<+T> = None | Some(value: T) {
    /** The value, or `default` when absent (Python's `x or default` on an optional field). */
    function GetOr(default: T): T {
      match this
      case Some(v) => v
      case None => default
    }
  }

  /** The outcome of a conversion that either yields a value or raises. */
  datatype Result<+T> = Ok(value: T) | Raised
}
