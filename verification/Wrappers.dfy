/** Optional values and results that may be an error. */
module Wrappers {

  datatype Option<+T> = None | Some(value: T)

  /** An error carries nothing: the controller only ever tests whether there is one. */
  datatype Result<+T> = Ok(value: T) | Err
}
