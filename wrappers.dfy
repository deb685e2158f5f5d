/** The Option, Result and Outcome datatypes shared by every module of the model. */
module Wrappers {

  /** A value that may be absent; Python's `None` return of a scan that found nothing. */
  datatype Option<+T> = None | Some(value: T)

  /** A computed value, or the exception that Python would raise instead. */
  datatype Result<+T, +E> = Ok(value: T) | Err(error: E)

  /** An operation that either completes or raises. */
  datatype Outcome<+E> = Pass | Fail(error: E)
}
