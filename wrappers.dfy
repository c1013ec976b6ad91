/** Failure-carrying results shared by every module: Python exceptions of the
    source become `Err` values instead of preconditions. */
module Wrappers {

  datatype Option<T> = None | Some(value: T)

  /** A value, or the exception the source raises instead (its class name). */
  datatype Result<T> = Ok(value: T) | Err(error: string)

  /** A source operation that returns nothing but may raise. */
  datatype Outcome = Pass | Fail(error: string)
}
