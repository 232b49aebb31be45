/** Optional values and results with an error, as used throughout the model. */
module Wrappers {

  /**
   * An absent value. The model does not tell JavaScript's `undefined` from
   * `null`; where the two behave differently, the member using `None` says
   * which one it stands for.
   */
  datatype Option<T> = None | Some(value: T)

  datatype Result<T, E> = Ok(value: T) | Err(error: E)
}
