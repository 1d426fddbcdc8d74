/** Failure-carrying values used throughout the model: the source signals
    absence with `undefined` and failure with thrown errors or rejected
    promises; here both are explicit values. */
module Wrappers {

  datatype Option<+T> = None | Some(value: T) {
    /** The value, or `default` when absent (JavaScript's `x ?? default`). */
    function GetOr(default: T): T {
      match this
      case Some(v) => v
      case None => default
    }
  }

  /** A computation that either produced a value or threw an error. */
  datatype Result<+T, +E> = Ok(value: T) | Err(error: E)

  /** A computation without a value that either completed or threw. */
  datatype Outcome<+E> = Pass | Fail(error: E)
}
