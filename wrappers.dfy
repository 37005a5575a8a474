/** Error-carrying results for the operations that raise in the original program. */
module Wrappers {

  /** The exception classes the modelled code raises. */
  datatype Error =
    | ValueError(msg: string)
    | TypeError(msg: string)
    | IndexError(msg: string)
    | AttributeError(msg: string)

  /** An optional argument. */
  datatype Option<+T> = None | Some(value: T) {
    function GetOr(default: T): T {
      match this
      case Some(v) => v
      case None => default
    }
  }

  /** A value, or the exception raised instead of returning it. */
  datatype Result<+T> = Ok(value: T) | Err(error: Error) {
    predicate IsFailure() { Err? }

    function PropagateFailure<U>(): Result<U>
      requires Err?
    {
      Err(error)
    }

    function Extract(): T
      requires Ok?
    {
      value
    }
  }

  /** A success/failure outcome for operations that return nothing. */
  datatype Outcome = Pass | Fail(error: Error)
}
