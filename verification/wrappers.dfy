/** Option and Result, used by every module for nullable fields and thrown errors. */
module Wrappers {
  import opened Errors

  datatype Option<+T> = None | Some(value: T)

  /** A computed value, or the error the program throws. */
  datatype Result<+T> = Ok(value: T) | Err(code: Error) {
    predicate IsFailure() {
      Err?
    }

    function PropagateFailure<U>(): Result<U>
      requires Err?
    {
      Err(code)
    }

    function Extract(): T
      requires Ok?
    {
      value
    }
  }
}
