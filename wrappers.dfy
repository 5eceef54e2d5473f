/** Option and Result, the failure-compatible wrappers used throughout the model. */
module Wrappers {

  /** A nullable reference: None plays the part of a NULL pointer. */
  datatype Option<+T> = None | Some(value: T)

  /** The outcome of an operation that can throw: Ok(value) or Fail(error). */
  datatype Result<+T, +E> = Ok(value: T) | Fail(error: E) {

    predicate IsFailure() {
      Fail?
    }

    function PropagateFailure<U>(): Result<U, E>
      requires Fail?
    {
      Fail(error)
    }

    function Extract(): T
      requires Ok?
    {
      value
    }
  }
}
