/** Failure-carrying results shared by every module of the model. */
module Wrappers {

  /** A value that may be absent; Python's `None` is `None` here. */
  datatype Option<+T> = None | Some(value: T)

  /** The value of a step that either produced `value` or raised `error`. */
  datatype Result<+T, +E> = Ok(value: T) | Err(error: E)

  /** A step that produces nothing but may raise `error`. */
  datatype Outcome<+E> = Pass | Fail(error: E)
}
