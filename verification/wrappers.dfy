/** Option and Result, standing in for C# null references and exceptions. */
module Wrappers {

  /** `None` plays the part of a null object reference. */
  datatype Option<+T> = None | Some(value: T)

  /** `Failure` plays the part of an exception the caller sees. */
  datatype Result<+T, +E> = Success(value: T) | Failure(error: E)
}
