/** Option and Result values used where the app works with null, undefined or a thrown error. */
module Wrappers {

  /** `None` stands for JavaScript's null/undefined or Kotlin's null. */
  datatype Option<+T> = None | Some(value: T) {
    function GetOr(default: T): T {
      match this
      case Some(v) => v
      case None => default
    }
  }

  /** `Failure` stands for a rejected promise or a thrown exception. */
  datatype Result<+R, +E> = Success(value: R) | Failure(error: E)
}
