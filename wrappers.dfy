/** Optional values and results shared by every module of the model. */
module Wrappers {
  /** JavaScript's `undefined`/`null` versus a present value. */
  datatype Option<T> = None | Some(value: T)

  /** A computation that either yields a value or throws. */
  datatype Result<T> = Ok(value: T) | Err(error: string)
}
