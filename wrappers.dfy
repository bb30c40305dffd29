/** Option, Result and Outcome: how the model states a missing value, an
    exception propagated to the caller, and a call that returns nothing. */
module Wrappers {

  datatype Option<+T> = None | Some(value: T) {
    function GetOr(default: T): T {
      match this
      case Some(v) => v
      case None => default
    }
  }

  datatype Result<+R, +E> = Success(value: R) | Failure(error: E)

  /** Outcome of a call that returns nothing on success (Python's `-> None`). */
  datatype Outcome<+E> = Pass | Fail(error: E)
}
