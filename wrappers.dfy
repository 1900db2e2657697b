/** Option and Result, the failure-carrying values used across the model. */
module Wrappers {

  /** A value that may be absent: Python's `Optional[T]`, with `None` as absence. */
  datatype Option<+T> = None | Some(value: T)

  /** The outcome of a step that can raise: `Failure` carries the exception's message. */
  datatype Result<+T, +E> = Success(value: T) | Failure(error: E)

  /** Python truthiness of an optional string: `None` and `""` are both false. */
  predicate Truthy(o: Option<string>)
  {
    o.Some? && o.value != ""
  }
}
