/** Optional values and results with an error, used throughout the model. */
module Wrappers {

  /** A value that may be absent (C# `null` / `double?` without a value). */
  datatype Option<+T> = None | Some(value: T)

  /** The outcome of a step that may throw: a value, or the exception it raises. */
  datatype Result<+T, +E> = Ok(value: T) | Err(error: E)
}
