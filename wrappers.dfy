/** Optional values and results, shared by every other module. */
module Wrappers {

  /** A value that may be absent: `undefined`/`null` in the source's objects. */
  datatype Option<+T> = None | Some(value: T) {

    /** Returns the wrapped value, or `default` when absent. */
    function GetOr(default: T): T {
      match this
      case Some(v) => v
      case None => default
    }
  }

  /** The outcome of an operation that may throw. */
  datatype Result<+R, +E> = Success(value: R) | Failure(error: E)
}
