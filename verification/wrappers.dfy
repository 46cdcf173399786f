/** The optional and failure-carrying values the card counter uses in place
    of Java's `null` and thrown exceptions. */
module Wrappers {

  /** A value that may be absent, in place of a nullable reference. */
  datatype Option<+T> = None | Some(value: T)

  /** The outcome of an operation that may fail with an error of type `E`. */
  datatype Result<+R, +E> = Ok(value: R) | Err(error: E)
}
