/** Optional values and results, standing in for C# nullable references and exceptions. */
module Wrappers {

  /** A value that may be absent: a C# reference that may be null. */
  datatype Option<+T> = None | Some(value: T)

  /** The outcome of an operation that may throw instead of returning. */
  datatype Result<+R, +E> = Success(value: R) | Failure(error: E)
}
