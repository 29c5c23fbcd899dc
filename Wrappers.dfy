/** Optional values and success/failure results, used where the source has `undefined` or throws. */
module Wrappers {

  /** A value that may be absent (`undefined` in the source). */
  datatype Option<+T> = None | Some(value: T) {

    /** The value, or `default` when absent. */
    function GetOr(default: T): T {
      match this
      case Some(v) => v
      case None => default
    }
  }

  /** The outcome of an operation that either yields a value or throws an error value. */
  datatype Result<+R, +E> = Success(value: R) | Failure(error: E)
}
