/** Option, Result and Outcome: the failure-carrying values the model returns in place of Rust's
    `Option`, `Result` and fallible library calls. */
module Wrappers {

  datatype Option<+T> = None | Some(value: T) {
    /** The carried value, or `default` when there is none (Rust's `unwrap_or`). */
    function GetOr(default: T): T {
      match this
      case Some(v) => v
      case None => default
    }
  }

  datatype Result<+T, +E> = Success(value: T) | Failure(error: E)

  /** The outcome of a fallible step that produces nothing but may fail with a reason. */
  datatype Outcome<+E> = Pass | Fail(error: E)
}
