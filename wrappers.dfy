/** Small result types shared by the model. */
module Wrappers {

  /** A Python value that may be `None`. */
  datatype Option<+T> = None | Some(value: T)

  /** The outcome of a computation that may raise a Python exception;
      `message` is the text `str(e)` of the exception. */
  datatype Attempt<+T> = Ok(value: T) | Raised(message: string)
}
