/** Failure-compatible wrappers shared by the other modules. */
module Wrappers {

  /** A value that may be absent; `None` stands for a C# `null`. */
  datatype Option<+T> = None | Some(value: T) {
    /** The value, or `default` when absent (the C# `??` operator). */
    function GetOr(default: T): T {
      if Some? then value else default
    }
  }

  /** A computed value or the exception that would have been thrown instead. */
  datatype Result<+T, +E> = Ok(value: T) | Err(error: E)

  /** Success of an operation that returns nothing, or the exception it throws. */
  datatype Outcome<+E> = Pass | Fail(error: E)
}
