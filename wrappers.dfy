/** Option and Result values shared by the client and the server models. */
module Wrappers {

  /** A value that may be absent: JavaScript's undefined/null, Python's None. */
  datatype Option<+T> = None | Some(value: T)

  /** An outcome that either carries a value or the text of the error that was raised. */
  datatype Result<+T> = Ok(value: T) | Err(error: string)
}
