/** Failure-compatible wrappers shared by every module. */
module Wrappers {

  /** A value that may be absent (Python `None`, JavaScript `undefined`). */
  datatype Option<+T> = None | Some(value: T) {
    function GetOr(default: T): T {
      match this
      case Some(v) => v
      case None => default
    }
  }

  /** Either a value or an error description. */
  datatype Result<+R, +E> = Success(value: R) | Failure(error: E)
}
