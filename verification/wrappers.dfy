/** Failure-carrying values used throughout the model: Swift optionals and
    thrown errors become `Option` and `Result`. */
module Wrappers {

  /** A Swift optional: `nil` is `None`. */
  datatype Option<+T> = None | Some(value: T) {

    /** The value, or `default` when absent (Swift's `??`). */
    function GetOr(default: T): T {
      match this
      case Some(v) => v
      case None => default
    }
  }

  /** The outcome of a throwing call: its value, or the error it threw. */
  datatype Result<+T, +E> = Ok(value: T) | Err(error: E)

  /** The outcome of a throwing call that returns nothing. */
  datatype Outcome<+E> = Pass | Fail(error: E)
}
