/** Option and Result values shared by the model's modules. */
module Wrappers {

  /** A value that may be missing: a request field that is absent or null, a lookup that found nothing. */
  datatype Option<+T> = None | Some(value: T)

  /** The outcome of a check that either produces a value or names why it refused. */
  datatype Result<+R, +E> = Success(value: R) | Failure(error: E)
}
