/** Failure-compatible wrappers shared by the model: an optional value (the
    source's `null`), a result that either carries a value or the error
    the source would have thrown, and the outcome of an operation that
    either completes or throws. */
module Wrappers {

  datatype Option<+T> = None | Some(value: T)

  datatype Result<+T, +E> = Ok(value: T) | Err(error: E)

  datatype Outcome<+E> = Pass | Fail(error: E)
}
