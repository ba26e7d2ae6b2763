/** Option and Result types used across the model to stand for Python's
    `None` and for the exceptions the original code raises. Both are
    failure-compatible, so `:-` propagates an error the way a Python
    exception propagates out of a call. */
module Outcomes {

  datatype Option<+T> = None | Some(value: T)

  datatype Result<+T, +E> = Ok(value: T) | Err(error: E) {

    predicate IsFailure() {
      Err?
    }

    function PropagateFailure<U>(): Result<U, E>
      requires Err?
    {
      Err(error)
    }

    function Extract(): T
      requires Ok?
    {
      value
    }
  }
}
