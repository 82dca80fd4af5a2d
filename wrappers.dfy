/** Failure-carrying datatypes shared by the model: a nullable value, the .NET exceptions the
    core tells apart, and the two ways a call can end (it returns, or an exception escapes). */
module Wrappers {

  /** A reference that may be null. */
  datatype Option<+T> = None | Some(value: T)

  /** The exception classes whose handling differs somewhere in the core. */
  datatype Exception =
    | JsonException(message: string)                 // Newtonsoft could not read the payload
    | RuntimeException(message: string)              // PowerShell's RuntimeException and subclasses
    | DirectoryNotFoundException(path: string)       // Directory.EnumerateFiles on a missing directory
    | NullReferenceException                         // a member access on a null reference
    | ArgumentNullException(paramName: string)       // a LINQ operator given a null sequence
    | OtherException(message: string)                // anything else

  /** How a call ends: it returns a value, or an exception propagates out of it. */
  datatype Completion<+T> = Returned(value: T) | Threw(exception: Exception)
}
