/** Optional values and results with an error, as returned by the generator's
    lookups and by the operations that throw in the original. */
module Wrappers {

  datatype Option<+T> = None | Some(value: T)

  datatype Result<+T, +E> = Ok(value: T) | Err(error: E)
}
