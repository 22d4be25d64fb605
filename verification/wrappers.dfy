/** Option and Result, the two failure-aware wrappers the model uses. */
module Wrappers {

  /** A value that may be absent: an optional JSON field, or a request that raised. */
  datatype Option<+T> = None | Some(value: T) {

    /** The value if present, otherwise `default` (Python's `dict.get(key, default)`). */
    function GetOr(default: T): T {
      match this
      case Some(v) => v
      case None => default
    }
  }

  /** The outcome of a computation that may raise. */
  datatype Result<+R, +E> = Success(value: R) | Failure(error: E)
}
