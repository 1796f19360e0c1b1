/** Failure-carrying values shared by every module of the model. */
module Wrappers {

  /** A value that may be absent (Python's `None`, or a key missing from a document). */
  datatype Option<+T> = None | Some(value: T) {
    function GetOr(default: T): T {
      match this
      case Some(v) => v
      case None => default
    }
  }

  /** The outcome of an operation that can be rejected (an HTTP error, a validation error). */
  datatype Result<+T, +E> = Ok(value: T) | Err(error: E)
}
