/** Optional values and results, used across the model. */
module Wrappers {

  /** An optional value. */
  datatype Option<+T> = None | Some(value: T) {
    /** The wrapped value, or `default` when there is none. */
    function GetOr(default: T): T {
      if Some? then value else default
    }
  }

  /** A value or the reason there is none. */
  datatype Result<+T, +E> = Success(value: T) | Failure(error: E)
}
