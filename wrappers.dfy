/** Optional values and results with an error, used wherever the adapter may see
    `undefined` or a thrown error. */
module Wrappers {

  datatype Option<+T> = None | Some(value: T)

  datatype Result<+T, +E> = Ok(value: T) | Err(error: E)
}
