/** Optional values and error results shared by the component models. */
module Wrappers {

  /** A value that may be absent (an optional prop, a missing DOM element, `undefined`). */
  datatype Option<+T> = None | Some(value: T)

  /** The outcome of an operation that can throw. */
  datatype Result<+R, +E> = Success(value: R) | Failure(error: E)
}
