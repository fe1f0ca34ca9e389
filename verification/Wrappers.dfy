/** Values that may be absent, and outcomes that may be errors. */
module Wrappers {
  datatype Option<T> = None | Some(value: T)
  datatype Result<T, E> = Ok(value: T) | Err(error: E)
}
