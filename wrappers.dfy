/** Option and Result, with the Python exceptions the modelled code can raise. */
module Wrappers {
  datatype Option<T> = None | Some(value: T)

  /** The exceptions that escape the modelled functions. */
  datatype Error =
    | KeyError(key: string)
    | IndexError
    | StopIteration
    | ValueError(reason: string)
    | ZeroDivisionError
    | AttributeError

  datatype Result<T> = Ok(value: T) | Err(error: Error)
  {
    predicate IsFailure() { Err? }

    function PropagateFailure<U>(): Result<U>
      requires Err?
    {
      Err(error)
    }

    function Extract(): T
      requires Ok?
    {
      value
    }
  }
}
