/** Failure-carrying datatypes shared by the whole model. */
module Wrappers {

  /** A value that may be absent; Python's `None` return in the fetch. */
  datatype Option<+T> = None | Some(value: T)

  /** Either a value or the text of the exception that replaced it. */
  datatype Result<+T> = Ok(value: T) | Err(error: string)
}
