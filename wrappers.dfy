/** The optional and error-carrying values shared by the whole model. */
module Wrappers {

  /** A value that may be absent (Python's `None`). */
  datatype Option<+T> = None | Some(value: T) {
    function GetOr(default: T): T {
      match this
      case Some(v) => v
      case None => default
    }
  }

  /** Either a value or the error that the source raises instead. */
  datatype Result<+R, +E> = Success(value: R) | Failure(error: E)
}
