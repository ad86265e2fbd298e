/** Results and the exceptions the modelled Python code raises. */
module Wrappers {

  datatype Option<+T> = None | Some(value: T)

  /** A Python exception. Only a ValueError's message is ever inspected by the
      code (the executor matches on it), so the other kinds carry no text. */
  datatype Exc =
    | ValueError(msg: string)
    | TypeError
    | KeyError
    | AttributeError
    | IndexError
    | UnboundLocalError

  datatype Result<+T> = Ok(value: T) | Err(error: Exc) {
    predicate IsFailure() { Err? }

    function PropagateFailure<U>(): Result<U>
      requires Err?
    {
      Err(error)
    }

    function Extract(): T
      requires Ok?
    {
      value
    }
  }
}
