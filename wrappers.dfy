/** Option, Result and Outcome: the model's stand-ins for JavaScript's
    `undefined`, for a value-or-exception, and for a call that either
    returns normally or throws a message. */
module Wrappers {

  datatype Option<+T> = None | Some(value: T)

  datatype Result<+R, +E> = Ok(value: R) | Err(error: E)

  /** A call that may throw: `Pass` when it returned, `Fail(msg)` when it threw `msg`. */
  datatype Outcome<+E> = Pass | Fail(error: E)
}
