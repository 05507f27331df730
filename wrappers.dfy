/** Option and Result types standing for C#'s nullable results and thrown exceptions. */
module Wrappers {

  /** A value that may be absent (C#'s `null`). */
  datatype Option<+T> = None | Some(value: T) {

    /** The value, or `default` when absent (C#'s `??`). */
    function GetOr(default: T): T {
      match this
      case Some(v) => v
      case None => default
    }
  }

  /** The .NET exceptions the core throws, with the parameter name or position they carry. */
  datatype Error =
    | ArgumentError(param: string)        // System.ArgumentException
    | ArgumentNull(param: string)         // System.ArgumentNullException
    | ArgumentOutOfRange(param: string)   // System.ArgumentOutOfRangeException, raised by System.Random
    | InvalidOperation(position: int)     // System.InvalidOperationException: no syllable at a position

  /** The value a call returns, or the exception it throws. */
  datatype Result<+R> = Success(value: R) | Failure(error: Error)

  /** The outcome of a call that returns nothing (`void`) but may throw. */
  datatype Outcome = Pass | Fail(error: Error)
}
