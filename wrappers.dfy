/** Failure-carrying results shared by every module, and the Python exception kinds
    that the modelled code raises. */
module Wrappers {

  datatype Option<+T> = None | Some(value: T) {
    function GetOr(default: T): T {
      match this
      case Some(v) => v
      case None => default
    }
  }

  /** The Python exceptions the modelled code raises or lets through. */
  datatype PyError =
    | ValueError(reason: string)
    | NotImplementedError(reason: string)
    | KeyError(key: string)
    | IndexError(reason: string)
    | AttributeError(reason: string)
    | ConnectionError(reason: string)

  datatype Result<+T> = Ok(value: T) | Err(error: PyError) {
    predicate IsFailure() {
      Err?
    }

    function PropagateFailure<U>(): Result<U>
      requires Err?
    {
      Err(error)
    }

    function Extract(): T
      requires Ok?
    {
      value
    }
  }
}
