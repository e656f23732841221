/** Failure-compatible result types shared by every component. */
module Wrappers {

  datatype Option<+T> = None | Some(value: T)

  /** The outcome of an operation that the program reports with a thrown error. */
  datatype Result<+T> = Ok(value: T) | Err(message: string)
}
