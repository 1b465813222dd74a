/** Option and Result, the two wrappers the model uses for C# nulls and thrown exceptions. */
module Wrappers {

  /** A C# nullable reference or value: `None` stands for `null`. */
  datatype Option<+T> = None | Some(value: T)

  /** The outcome of a C# member that either returns a value or throws. */
  datatype Result<+T, +E> = Success(value: T) | Failure(error: E)
}
