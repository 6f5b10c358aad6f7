/** Option and Result, and the Python exception kinds the model raises. */
module Wrappers {

  datatype Option<+T> = None | Some(value: T) {
    function GetOr(default: T): T {
      match this
      case Some(v) => v
      case None => default
    }
  }

  /** The exception classes the modelled code can raise. */
  datatype Error =
    | AttributeError  // a method called on None, `.group()` of a failed search
    | TypeError       // None given where a string is needed, int/str mixed
    | IndexError      // `[0]` or `[-1]` of an empty list
    | KeyError        // a dict lookup of a missing key
    | ValueError      // `float()` of a malformed literal, an unreadable file

  datatype Result<+R> = Success(value: R) | Failure(error: Error) {
    predicate IsFailure() {
      Failure?
    }

    function PropagateFailure<U>(): Result<U>
      requires Failure?
    {
      Failure(error)
    }

    function Extract(): R
      requires Success?
    {
      value
    }
  }
}
