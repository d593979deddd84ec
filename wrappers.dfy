/** Nullable values, results with an error, and pass/fail outcomes: the
    model's stand-ins for `T | null` and for a thrown exception. */
module Wrappers {

  /** `None` plays the part of `null` (and of `undefined`). */
  datatype Option<+T> = None | Some(value: T) {
    function GetOr(default: T): T {
      match this
      case Some(v) => v
      case None => default
    }
  }

  /** A value, or the error that the source would have thrown. */
  datatype Result<+T, +E> = Ok(value: T) | Err(error: E)

  /** A check that either passes or fails with an error. */
  datatype Outcome<+E> = Pass | Fail(error: E)
}
