/** Failure-carrying values shared by the other modules. */
module Wrappers {

  /** A value that may be missing, as the result of an Array `find`. */
  datatype Option<+T> = None | Some(value: T)

  /** Either a computed value or the reason it could not be computed. */
  datatype Result<+T, +E> = Ok(value: T) | Err(error: E)
}
