/** Option and pass/fail outcome types used throughout the model. */
module Wrappers {

  /** A value that may be absent: Swift's `Optional`. */
  datatype Option<+T> = None | Some(value: T)

  /** The result of a Swift function that either returns normally or throws `E`. */
  datatype Outcome<+E> = Pass | Fail(error: E)
}
