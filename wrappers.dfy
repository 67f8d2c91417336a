/** Failure-compatible wrappers used for the C# nullable values and thrown exceptions. */
module Wrappers {

  /** A C# nullable value: `null` is None. */
  datatype Option<+T> = None | Some(value: T) {
    predicate IsFailure() { None? }

    function PropagateFailure<U>(): Option<U>
      requires None?
    {
      None
    }

    function Extract(): T
      requires Some?
    {
      value
    }
  }

  /** The value a C# member returns, or the exception it throws. */
  datatype Result<+T, +E> = Success(value: T) | Failure(error: E) {
    predicate IsFailure() { Failure? }

    function PropagateFailure<U>(): Result<U, E>
      requires Failure?
    {
      Failure(error)
    }

    function Extract(): T
      requires Success?
    {
      value
    }
  }

  /** A void C# member: it returns normally, or it throws. */
  datatype Outcome<+E> = Pass | Fail(error: E)
}

/** The .NET exceptions the modelled code throws. */
module Exceptions {

  datatype Exception =
    | InvalidDataException                 // a package file without the .dmupgrade extension
    | FormatException                      // UInt32.Parse of text that is not a number
    | OverflowException                    // UInt32.Parse of a number above uint.MaxValue
    | ArgumentException(message: string)   // a missing or blank argument
    | InvalidCredentialException           // no usable storage credentials
    | InvalidOperationException(message: string)
}
