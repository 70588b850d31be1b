/** Option and Result, the two failure-carrying types the handlers return. */
module Wrappers {

  datatype Option<+T> = None | Some(value: T) {
    function GetOr(default: T): T {
      match this
      case Some(v) => v
      case None => default
    }
  }

  /** `Failure` carries the user-facing text of a command error. */
  datatype Result<+R, +E> = Success(value: R) | Failure(error: E)
}
