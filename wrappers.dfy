/** Optional values and error-or-value results, standing for Swift's `T?` and `throws`. */
module Wrappers {

  /** Swift's `Optional`: `None` is `nil`. */
  datatype Option<+T> = None | Some(value: T)

  /** The result of a throwing Swift call: a value, or the error it throws. */
  datatype Result<+T, +E> = Success(value: T) | Failure(error: E)
}
