/** Option and Result values shared by the store and game models. */
module Wrappers {

  /** A value that may be missing: an absent storage key, or a number that parsed to NaN. */
  datatype Option<+T> = None | Some(value: T)

  /** The outcome of an operation that can be refused with a reason. */
  datatype Result<+T, +E> = Success(value: T) | Failure(error: E)
}
