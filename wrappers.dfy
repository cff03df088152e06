/** Failure-carrying values used across the model: an optional value, and the
    outcome of an operation that can raise a Python exception. */
module Wrappers {

  datatype Option<+T> = None | Some(value: T) {
    function GetOr(default: T): T {
      match this
      case Some(v) => v
      case None => default
    }
  }

  /** `Err` stands for a Python exception that escapes the modelled function;
      `msg` names the exception, it is not the interpreter's text. */
  datatype Result<+T> = Ok(value: T) | Err(msg: string)
}
