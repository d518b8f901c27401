/** Option and Result values that stand in for Python's `None` and for raised exceptions. */
module Basics {

  datatype Option<+T> = None | Some(value: T)

  /** `Err` carries what the Python code would have raised. */
  datatype Result<+T, +E> = Ok(value: T) | Err(error: E) {
    predicate IsFailure() { Err? }

    function PropagateFailure<U>(): Result<U, E>
      requires Err?
    {
      Err(error)
    }

    function Extract(): T
      requires Ok?
    {
      value
    }
  }
}
