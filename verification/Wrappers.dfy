/** Optional values, and results that carry the exception a call would raise. */
module Wrappers {
  datatype Option<+T> = None | Some(value: T)

  /** The exceptions that the modelled code can raise. */
  datatype Fault =
    | ProtocolError
    | DecodeError
    | CheckpointError
    | AssertionError
    | KeyError
    | IndexError
    | ValueError
    | OverflowError

  datatype Result<+T> = Ok(value: T) | Err(fault: Fault) {
    predicate IsFailure() {
      Err?
    }

    function PropagateFailure<U>(): Result<U>
      requires Err?
    {
      Err(fault)
    }

    function Extract(): T
      requires Ok?
    {
      value
    }
  }

  function Max(a: int, b: int): int {
    if a < b then b else a
  }
}
