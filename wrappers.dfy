/** Optional values and success/failure results, standing in for the
    absent JSON keys and the raised exceptions of the analyzer. */
module Wrappers {

  /** A JSON field that may be absent. */
  datatype Option<+T> = None | Some(value: T) {

    /** The value, or `default` when absent (Python's `d.get(key, default)`). */
    function GetOr(default: T): T {
      match this
      case Some(v) => v
      case None => default
    }
  }

  /** The outcome of an operation that may raise. */
  datatype Result<+T, +E> = Success(value: T) | Failure(error: E)
}
