/** Optional values and results with an error, as used throughout the model. */
module Wrappers {

  /** A nullable Kotlin field (`ProfileV1?`): either unset or set to a value. */
  datatype Option<+T> = None | Some(value: T)

  /** The outcome of a call that may end in an exception. */
  datatype Result<+T, +E> = Ok(value: T) | Err(error: E)
}
