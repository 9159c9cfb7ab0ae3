/** Python's `None`-or-value and return-or-raise, as the model uses them:
    `Option` for a value that may be `None`, `Result` for a call that either
    returns a value or raises with an error. */
module Wrappers {

  datatype Option<+T> = None | Some(value: T)

  datatype Result<+T, +E> = Ok(value: T) | Err(error: E)
}
