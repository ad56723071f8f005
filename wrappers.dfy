/**
  Optional values and the outcome of an operation that can raise.

  The Python code signals errors with exceptions (KeyError, IndexError,
  ValueError, ZeroDivisionError, AssertionError); the model returns
  `Failure` with a message naming the exception instead.
 */
module Wrappers {

  datatype Option<+T> = None | Some(value: T) {
    function GetOr(default: T): T {
      match this
      case Some(v) => v
      case None => default
    }
  }

  datatype Result<+T> = Success(value: T) | Failure(error: string) {
    predicate IsFailure() {
      Failure?
    }

    function PropagateFailure<U>(): Result<U>
      requires Failure?
    {
      Failure(error)
    }

    function Extract(): T
      requires Success?
    {
      value
    }
  }
}
