/** Option and Result: the model's stand-ins for C#'s null references and exceptions. */
module Wrappers {

  /** A value that may be absent (a C# reference that may be null). */
  datatype Option<+T> = None | Some(value: T) {
    function GetOr(default: T): T {
      match this
      case Some(v) => v
      case None => default
    }
  }

  /** The value of a computation, or the error that stopped it. */
  datatype Result<+R, +E> = Success(value: R) | Failure(error: E)
}
