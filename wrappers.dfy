/** Option, Result and Outcome: how the model writes Python's `None`
    and its raised exceptions. */
module Wrappers {

  datatype Option<+T> = None | Some(value: T)

  /** A value, or the exception raised instead of producing one. */
  datatype Result<+R, +E> = Ok(value: R) | Err(error: E)

  /** The result of a call that returns nothing: it completed, or it raised. */
  datatype Outcome<+E> = Pass | Fail(error: E)
}
