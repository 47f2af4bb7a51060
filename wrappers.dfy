/** Option and Result, the two failure-carrying shapes the rest of the model uses. */
module Wrappers {

  /** Python's `None` versus a present value. */
  datatype Option<+T> = None | Some(value: T) {
    /** The value, or `default` when absent (Python's `x or default` for a missing field). */
    function GetOr(default: T): T {
      match this
      case Some(v) => v
      case None => default
    }
  }

  /** A computation that either produced a value or raised with an error description. */
  datatype Result<+T, +E> = Success(value: T) | Failure(error: E)
}
