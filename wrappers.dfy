/** Failure-compatible wrappers used for the exceptions of the configuration loader. */
module Wrappers {

  datatype Option<+T> = None | Some(value: T)

  /** Either a value or the error the Python code would raise instead. */
  datatype Result<+T, +E> = Ok(value: T) | Err(error: E) {

    predicate IsFailure() {
      Err?
    }

    function PropagateFailure<U>(): Result<U, E>
      requires Err?
    {
      Err(error)
    }

    function Extract(): T
      requires Ok?
    {
      value
    }
  }
}
