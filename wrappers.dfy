/** Option and Result, for the source's null references and exceptions. */
module Wrappers {

  datatype Option<+T> = None | Some(value: T)

  /** A value or the exception that ended the computation; `:-` passes the
      exception on. */
  datatype Result<+T, +E> = Ok(value: T) | Err(error: E) {

    predicate IsFailure() {
      Err?
    }

    function PropagateFailure<U>(): Result<U, E>
      requires Err?
    {
      Err(error)
    }

    function Extract(): T
      requires Ok?
    {
      value
    }
  }

  /** Success or the first failure of a step-by-step operation. */
  datatype Outcome<+E> = Pass | Fail(error: E)
}
