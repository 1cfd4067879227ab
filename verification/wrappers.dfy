/** Failure-compatible wrappers shared by the whole model: `Option` for the
    JavaScript values that may be `undefined`, `Result` for operations that
    either produce a value or throw an `Error`.
 */
module Wrappers {

  datatype Option<+T> = None | Some(value: T) {

    /** The value held in `Some`, or `default` when `None`. */
    function GetOr(default: T): T {
      match this
      case Some(v) => v
      case None => default
    }
  }

  datatype Result<+R, +E> = Success(value: R) | Failure(error: E) {

    predicate IsFailure() {
      Failure?
    }

    function PropagateFailure<U>(): Result<U, E>
      requires Failure?
    {
      Failure(error)
    }

    function Extract(): R
      requires Success?
    {
      value
    }
  }
}
