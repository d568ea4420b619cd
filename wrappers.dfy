/** Failure-carrying result types used in place of Python exceptions. */
module Wrappers {

  datatype Option<+T> = None | Some(value: T)

  /** The value of a Python call that either returns or raises. */
  datatype Result<+R, +E> = Ok(value: R) | Err(error: E)

  /** The value of a Python call that returns nothing or raises. */
  datatype Outcome<+E> = Pass | Fail(error: E)

}
