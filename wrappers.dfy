/** Failure-carrying results used for the source's raised exceptions. */
module Wrappers {

  datatype Option<+T> = None | Some(value: T)

  /** The value of a Python call: either what it returned or what it raised. */
  datatype Result<+R, +E> = Ok(value: R) | Err(error: E)

  /** A Python statement that returns nothing but may raise. */
  datatype Outcome<+E> = Pass | Fail(error: E)
}
