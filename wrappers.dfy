/** Optional values and success-or-failure results shared by the other modules. */
module Wrappers {

  /** A value that may be missing; `None` stands for JavaScript's `undefined`. */
  datatype Option<+T> = None | Some(value: T) {
    /** The value, or `fallback` when it is missing. */
    function GetOr(fallback: T): T {
      if Some? then value else fallback
    }
  }

  /** The result of an operation that either yields a value or fails with an error. */
  datatype Result<+T, +E> = Success(value: T) | Failure(error: E)

  /** The result of an operation that yields nothing when it succeeds. */
  datatype Outcome<+E> = Pass | Fail(error: E)
}
