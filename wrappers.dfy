/** Failure-carrying datatypes shared by the model. */
module Wrappers {

  /** Python's `Optional[T]`: a value or `None`. */
  datatype Option<+T> = None | Some(value: T) {
    function GetOr(default: T): T {
      match this
      case Some(v) => v
      case None => default
    }
  }

  /** The outcome of an operation that may raise: its value, or the message of the exception. */
  datatype Result<+T> = Ok(value: T) | Err(error: string)
}
