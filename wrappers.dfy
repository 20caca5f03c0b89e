/** Optional values and results with an error, used for the turtle's
    exceptions and for "nothing to start" in the animator. */
module Wrappers {
  datatype Option<+T> = None | Some(value: T)

  datatype Result<+T, +E> = Ok(value: T) | Err(error: E)
}
