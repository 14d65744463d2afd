/** Failure-carrying wrappers used across the model. */
module Wrappers {

  /** A value that may be absent: JavaScript's `undefined`/`NaN`/no-match results. */
  datatype Option<+T> = None | Some(value: T) {
    function GetOr(default: T): T {
      match this
      case Some(v) => v
      case None => default
    }
  }

  /** A computation that either succeeds with a value or fails with an error (a rejected promise). */
  datatype Result<+R, +E> = Ok(value: R) | Err(error: E)
}
