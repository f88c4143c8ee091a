/** Option and Result types, and the Python exception kinds the model distinguishes. */
module Wrappers {

  datatype Option<T> = None | Some(value: T)

  /** The exception a Python operation raises, by kind; message texts are kept where the
      source builds them itself. */
  datatype Error =
    | ValueError(msg: string)
    | KeyError(key: string)
    | IndexError
    | AssertionError
    | RuntimeError(msg: string)
    | TypeError
    | AttributeError
    | ZeroDivisionError

  datatype Result<T> = Ok(value: T) | Fail(error: Error)
  {
    predicate IsFailure() { Fail? }
    function PropagateFailure<U>(): Result<U> requires Fail? { Fail(error) }
    function Extract(): T requires Ok? { value }
  }
}
