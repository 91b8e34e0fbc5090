/** Optional values and success/failure results used throughout the model. */
module Wrappers {

  datatype Option<T> = None | Some(value: T)

  /** The outcome of an operation that either succeeds with a value or fails
      with an error, the way the handlers answer 2xx or 4xx/5xx. */
  datatype Result<T, E> = Ok(value: T) | Err(error: E)
}
