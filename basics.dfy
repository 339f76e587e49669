/** Failure-carrying datatypes shared by the model. */
module Basics {

  /** A value that may be absent, as an optional key of a Python dict or a nullable argument. */
  datatype Option<+T> = None | Some(value: T) {
    /** The stored value, or `default` when absent (Python's `d.get(key, default)`). */
    function GetOr(default: T): T {
      match this
      case Some(v) => v
      case None => default
    }
  }

  /** The outcome of an operation that can raise. */
  datatype Result<+R, +E> = Success(value: R) | Failure(error: E)
}
