// Shared result types for the model: an optional value, and a value-or-error
// result standing in for the exceptions and `None` returns of the Python code.
module Wrappers {

  datatype Option<T> = None | Some(value: T)
  {
    function GetOr(default: T): T
    {
      match this
      case None => default
      case Some(v) => v
    }
  }

  datatype Result<T, E> = Ok(value: T) | Err(error: E)
}
