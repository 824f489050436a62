/** Failure-compatible results, standing for the exceptions the backend raises. */
module Wrappers {
  datatype Option<+T> = None | Some(value: T)

  datatype Result<+T, +E> = Ok(value: T) | Err(error: E) {
    predicate IsFailure() {
      Err?
    }

    function PropagateFailure<U>(): Result<U, E>
      requires Err?
    {
      Result<U, E>.Err(error)
    }

    function Extract(): T
      requires Ok?
    {
      value
    }
  }
}
