/** Optional values and results: the model's stand-ins for a C# reference that may be null and for a constructor that may throw. */
module Wrappers {

  datatype Option<+T> = None | Some(value: T)

  datatype Result<+T, +E> = Success(value: T) | Failure(error: E)
}
