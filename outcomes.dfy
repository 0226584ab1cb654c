/** Failure-compatible results for the Python operations that raise. */
module Outcomes {

  datatype Option<+T> = None | Some(value: T)

  /** The exceptions the modelled code raises. The interpreter's own errors
      (a subscript or membership test on the wrong type, a missing attribute)
      carry no message: their wording depends on the Python version. */
  datatype Exception =
    | RuntimeError(msg: string)
    | ValueError(msg: string)
    | TypeError
    | AttributeError
    | KeyError

  /** Either the value a Python call returns or the exception it raises. */
  datatype Result<+T> = Ok(value: T) | Raise(exc: Exception) {

    predicate IsFailure() {
      Raise?
    }

    function PropagateFailure<U>(): Result<U>
      requires Raise?
    {
      Raise(exc)
    }

    function Extract(): T
      requires Ok?
    {
      value
    }
  }
}
