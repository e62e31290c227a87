/**
 * Failure-compatible wrappers and the two exception kinds the core raises.
 */
module Erros {

  /** A Java reference that may be null. */
  datatype Option<+T> = None | Some(value: T)

  /** The exceptions the core throws, with their messages. */
  datatype Error =
    | BusinessException(message: string)
    | IllegalArgumentException(message: string)

  /** A value-returning call that either returns normally or throws. */
  datatype Result<+T> = Ok(value: T) | Err(error: Error) {
    predicate IsFailure() { Err? }
    function PropagateFailure<U>(): Result<U>
      requires Err?
    {
      Err(error)
    }
    function Extract(): T
      requires Ok?
    {
      value
    }
  }

  /** A void call that either returns normally or throws. */
  datatype Outcome = Pass | Fail(error: Error)
}
