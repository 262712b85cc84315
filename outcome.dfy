/** Optional values and results with an error, for the source's `None`s and
    raised exceptions. */
module Outcome {

  datatype Option<T> = None | Some(value: T)

  datatype Result<T, E> = Ok(value: T) | Err(error: E)
}
