/** Option, Result and Outcome: the failure-carrying values every operation returns
    in place of a thrown exception. */
module Wrappers {

  datatype Option<+T> = None | Some(value: T)

  datatype Result<+T, +E> = Success(value: T) | Failure(error: E) {
    predicate IsFailure() { Failure? }

    function PropagateFailure<U>(): Result<U, E>
      requires Failure?
    {
      Failure(error)
    }

    function Extract(): T
      requires Success?
    {
      value
    }
  }

  /** The result of a check that yields nothing on success. */
  datatype Outcome<+E> = Pass | Fail(error: E)
}
