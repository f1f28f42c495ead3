/** Failure-carrying wrappers shared by the lexer, the parser and the interpreter. */
module Wrappers {

  datatype Option<+T> = None | Some(value: T)

  /**
   * The outcome of an operation that either yields a value or raises an
   * error; `:-` propagates the error the way a raised exception unwinds.
   */
  datatype Result<+T, +E> = Ok(value: T) | Err(error: E)
  {
    predicate IsFailure() {
      Err?
    }

    function PropagateFailure<U>(): Result<U, E>
      requires Err?
    {
      Err(error)
    }

    function Extract(): T
      requires Ok?
    {
      value
    }
  }
}
