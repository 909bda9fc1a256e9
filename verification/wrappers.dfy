/** Failure-carrying wrappers used across the model in place of Go's nil
    pointers and `error` returns. */
module Wrappers {

  /** A value that may be absent (a Go nil pointer or a failed optional parse). */
  datatype Option<+T> = None | Some(value: T) {
    function GetOr(default: T): T {
      match this
      case Some(v) => v
      case None => default
    }
  }

  /** Either a value or an error (a Go `(T, error)` pair where exactly one side is set). */
  datatype Result<+T, +E> = Ok(value: T) | Err(error: E)
}
