/** Option, Result and Outcome: the model's stand-ins for `null`, thrown errors and rejected promises. */
module Wrappers {

  datatype Option<+T> = None | Some(value: T) {
    function GetOr(default: T): T {
      match this
      case Some(v) => v
      case None => default
    }
  }

  datatype Result<+R, +E> = Success(value: R) | Failure(error: E)

  /** The outcome of an awaited call that returns nothing: it resolves, or rejects with an error. */
  datatype Outcome<+E> = Pass | Fail(error: E)
}
