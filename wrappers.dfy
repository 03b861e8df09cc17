/** Option and Result values used in place of Java's null and exceptions. */
module Wrappers {

  datatype Option<+T> = None | Some(value: T) {
    function GetOr(default: T): T {
      match this
      case Some(v) => v
      case None => default
    }
  }

  datatype Result<+T, +E> = Ok(value: T) | Err(error: E)

  /** The result of an operation that returns nothing but may throw. */
  datatype Outcome<+E> = Pass | Fail(error: E)

  /** Java exception classes that the modelled code throws itself. */
  datatype Exception =
    | IllegalArgument
    | IllegalState
    | NullPointer
    | UnsupportedOperation
    | StringIndexOutOfBounds
    | Config(message: string)
    | LaunchFailure
    | ClassCast
}
