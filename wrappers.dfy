/** Failure-compatible helper types shared by every module of the model. */
module Wrappers {

  /** A value that may be absent: `null`, `undefined` or a missing key in the source. */
  datatype Option<+T> = None | Some(value: T) {
    function GetOr(default: T): T {
      match this
      case Some(v) => v
      case None => default
    }
  }

  /** The outcome of an operation that may throw in the source. */
  datatype Result<+R, +E> = Success(value: R) | Failure(error: E)
}
