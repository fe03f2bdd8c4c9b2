/** Wrappers used by the hub model: an optional value, a value-or-error result, and a pass/fail outcome. */
module Wrappers {

  /** A value that may be absent; stands for a C# reference that may be null. */
  datatype Option<+T> = None | Some(value: T)

  /** Either a value or the error that stopped the computation. */
  datatype Result<+T, +E> = Ok(value: T) | Err(error: E)

  /** The result of an operation that returns nothing on success (a C# `Task` that may throw). */
  datatype Outcome<+E> = Pass | Fail(error: E)
}
