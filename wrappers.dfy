/** Optional values and all-or-nothing outcomes used throughout the model. */
module Wrappers {

  /** An optional field (`x?: T` in the TypeScript types) or a lookup that may find nothing. */
  datatype Option<+T> = None | Some(value: T)

  /** The result of an operation that either completes or throws before changing anything. */
  datatype Outcome<+E> = Pass | Fail(error: E)

  /** A value, or the error an operation throws instead of producing it. */
  datatype Result<+R, +E> = Success(value: R) | Failure(error: E)
}
