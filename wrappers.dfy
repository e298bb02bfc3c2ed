/** Optional values and results, as used throughout the model. */
module Wrappers {

  /** A value that may be absent (a missing JSON key, a null reference). */
  datatype Option<+T> = None | Some(value: T) {
    /** The value, or `default` when absent (Python's `dict.get(k, default)`). */
    function GetOr(default: T): T {
      match this
      case Some(v) => v
      case None => default
    }
  }

  /** The outcome of a request handler: a payload or an error. */
  datatype Result<+R, +E> = Success(value: R) | Failure(error: E)
}
