/** Failure-compatible wrappers used across the model. */
module Wrappers {

  /** An optional value: a dictionary lookup that may miss, a fetch that may fail. */
  datatype Option<+T> = None | Some(value: T) {
    function GetOr(default: T): T {
      match this
      case Some(v) => v
      case None => default
    }
  }

  /** A value or the error that the source raises or returns instead. */
  datatype Result<+T, +E> = Ok(value: T) | Err(error: E)
}
