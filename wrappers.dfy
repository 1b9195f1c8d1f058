/** Java's nullable references and thrown exceptions, as values. */
module Wrappers {

  /** A reference that may be `null` (None). */
  datatype Option<+T> = None | Some(value: T)

  /** A computation that either completes with a value or throws `error`. */
  datatype Result<+T, +E> = Success(value: T) | Failure(error: E)
}
