/** Optional values and results with a typed failure, standing in for C#'s
    nullable references and thrown exceptions. */
module Wrappers {

  /** `None` plays the part of a `null` reference. */
  datatype Option<+T> = None | Some(value: T)

  /** `Failure` plays the part of an exception thrown before any state changes. */
  datatype Result<+T, +E> = Success(value: T) | Failure(error: E)
}
