/** Failure-carrying values used throughout the model: Python's `None`
    results and raised exceptions become these. */
module Wrappers {

  datatype Option<+T> = None | Some(value: T)

  datatype Result<+T, +E> = Ok(value: T) | Err(error: E)
}
