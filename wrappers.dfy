/** Failure-carrying wrappers used across the model. */
module Wrappers {

  /** A value that may be absent: JavaScript's `undefined`/`null` or a missing key. */
  datatype Option<+T> = None | Some(value: T) {
    /** The wrapped value, or `default` when absent. */
    function GetOr(default: T): T {
      match this
      case Some(v) => v
      case None => default
    }
  }

  /** The outcome of an operation that may fail with an error value. */
  datatype Result<+R, +E> = Ok(value: R) | Err(error: E)
}
