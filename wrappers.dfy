/** Failure-compatible outcomes standing for the exceptions the sky-map core throws. */
module Wrappers {

  /** The Java exception classes the modelled code can raise. */
  datatype Error =
    | IllegalArgument        // IllegalArgumentException
    | NullPointer            // NullPointerException
    | IndexOutOfBounds       // ArrayIndexOutOfBounds / StringIndexOutOfBounds
    | NumberFormat           // NumberFormatException from a numeric parse
    | UnsupportedOperation   // UnsupportedOperationException

  datatype Option<+T> = None | Some(value: T) {
    predicate IsFailure() { None? }
    function PropagateFailure<U>(): Option<U>
      requires None?
    {
      None
    }
    function Extract(): T
      requires Some?
    {
      value
    }
  }

  /** A value, or the exception that replaced it. */
  datatype Result<+T> = Success(value: T) | Failure(error: Error) {
    predicate IsFailure() { Failure? }
    function PropagateFailure<U>(): Result<U>
      requires Failure?
    {
      Failure(error)
    }
    function Extract(): T
      requires Success?
    {
      value
    }
  }

  /** Normal return of a `void` operation, or the exception it threw. */
  datatype Outcome = Pass | Fail(error: Error) {
    predicate IsFailure() { Fail? }
    function PropagateFailure<U>(): Result<U>
      requires Fail?
    {
      Failure(error)
    }
  }
}
