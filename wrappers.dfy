/** Optional values and results with an error side, used wherever the source
 *  may return `undefined` or throw. */
module Wrappers {
  datatype Option<T> = None | Some(value: T)

  datatype Result<T, E> = Ok(value: T) | Err(error: E)
}
