/** Small value wrappers shared by the modules of the model. */
module Wrappers {

  /** A value that may be absent: JavaScript's null/undefined on one side. */
  datatype Option<+T> = None | Some(value: T)

  /** The outcome of an operation that either returns a value or throws an
      Error carrying a message. */
  datatype Result<+T> = Ok(value: T) | Err(message: string)
}
