/** Option and Result values: the model's stand-in for Python's `None` returns and raised exceptions. */
module Wrappers {

  datatype Option<+T> = None | Some(value: T) {
    function GetOr(default: T): T {
      match this
      case Some(v) => v
      case None => default
    }
  }

  /** The outcome of an operation that the source may abort by raising or by an early `return`. */
  datatype Result<+T> = Ok(value: T) | Err(message: string)
}
