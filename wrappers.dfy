/** Failure-carrying values shared by the other modules. */
module Wrappers {

  /** A value that may be absent (pandas' NaN, a loop that has not finished). */
  datatype Option<+T> = None | Some(value: T)

  /** An outcome that is either a value or the exception the script would raise. */
  datatype Result<+T, +E> = Ok(value: T) | Err(error: E)
}
