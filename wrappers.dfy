/** Optional values and results with an error, shared by the other modules. */
module Wrappers {

  /** A value that may be missing: an absent query field, or a lookup that found nothing. */
  datatype Option<+T> = None | Some(value: T)

  /** The outcome of a validation: a value, or the errors that rejected it. */
  datatype Result<+R, +E> = Success(value: R) | Failure(error: E)
}
