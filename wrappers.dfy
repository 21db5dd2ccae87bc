// Option and Result values shared by every module of the model.
module Wrappers {

  /** A value that may be absent: Python's `None` or a missing row. */
  datatype Option<T> = None | Some(value: T)
  {
    function GetOr(default: T): T
    {
      match this
      case None => default
      case Some(v) => v
    }
  }

  /** The outcome of an operation that reports failure with a message. */
  datatype Result<T> = Ok(value: T) | Err(message: string)
}
