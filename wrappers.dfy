/** Small failure-carrying datatypes shared by the portal modules. */
module Wrappers {

  /** A value that may be missing. */
  datatype Option<+T> = None | Some(value: T)

  /** The outcome of an operation that can throw in the source. */
  datatype Result<+T, +E> = Ok(value: T) | Err(error: E)
}
