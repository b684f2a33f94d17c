/** Optional values and results with an error, used by every module of the model. */
module Wrappers {

  datatype Option<+T> = None | Some(value: T)

  datatype Result<+T, +E> = Ok(value: T) | Err(error: E)

  function One(b: bool): nat {
    if b then 1 else 0
  }
}
