/** Wrappers used across the model: an optional value
    (JavaScript's `undefined`/`null`) and a value-or-error result (a thrown
    exception). */
module Wrappers {

  datatype Option<+T> = None | Some(value: T) {
    function GetOr(default: T): T {
      match this
      case Some(v) => v
      case None => default
    }
  }

  datatype Result<+R, +E> = Success(value: R) | Failure(error: E)
}
