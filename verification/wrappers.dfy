/** Failure-compatible Option and Result datatypes used throughout the model. */
module Wrappers {

  /** An optional value: a dictionary lookup that may find nothing. */
  datatype Option<+T> = None | Some(value: T)

  /** The outcome of a Python call that returns a value or raises an exception. */
  datatype Result<+T, +E> = Ok(value: T) | Err(error: E) {

    predicate IsFailure() {
      Err?
    }

    function PropagateFailure<U>(): Result<U, E>
      requires Err?
    {
      Err(error)
    }

    function Extract(): T
      requires Ok?
    {
      value
    }
  }
}
