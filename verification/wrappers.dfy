/** Failure-carrying values shared by the whole model. */
module Wrappers {

  /** A value that may be absent: a SQL NULL, a missing key, a failed parse. */
  datatype Option<+T> = None | Some(value: T)

  /** The outcome of building a row from untrusted input: a row, or the exception
      the source would raise (its message is not modelled). */
  datatype Result<+T> = Ok(value: T) | Err
}
