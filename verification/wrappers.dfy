/** Failure-compatible wrappers shared by every module of the model. */
module Wrappers {

  /** An optional value; Python's `None` versus a present value. */
  datatype Option<+T> = None | Some(value: T) {
    function GetOr(default: T): T {
      match this
      case Some(v) => v
      case None => default
    }
  }

  /** A value or a raised error. */
  datatype Result<+R, +E> = Success(value: R) | Failure(error: E) {
    predicate IsFailure() {
      Failure?
    }

    function PropagateFailure<U>(): Result<U, E>
      requires Failure?
    {
      Failure(error)
    }

    function Extract(): R
      requires Success?
    {
      value
    }
  }

  /** What an external call (the completion endpoint, a tool) did: produced a value or raised.
      `Raised` carries the text `str(e)` of the exception. */
  datatype Outcome<+T> = Returned(value: T) | Raised(text: string)
}
