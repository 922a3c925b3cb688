/** Failure-carrying values shared by every module of the model.
    A Python call that may raise becomes a function or method returning
    `Result`; the error text is what `str(e)` gives for the raised exception. */
module Outcomes {

  /** Python's `Optional[T]`: `None` or a present value. */
  datatype Option<+T> = None | Some(value: T)

  /** The outcome of a call that may raise: a value, or the message of the exception. */
  datatype Result<+T> = Ok(value: T) | Err(message: string)
}
