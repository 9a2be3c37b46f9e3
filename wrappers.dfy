/** Failure-carrying values used across the model in place of null,
    undefined and thrown exceptions. */
module Wrappers {

  /** A JavaScript value that may be null or undefined. */
  datatype Option<+T> = None | Some(value: T)

  /** The outcome of an operation that may throw. */
  datatype Result<+T, +E> = Success(value: T) | Failure(error: E)

  /** JavaScript truthiness of an optional string: absent and "" are both falsy. */
  predicate Given(s: Option<string>)
  {
    s.Some? && s.value != ""
  }
}
