/** Option and Result wrappers shared by the whole model, and the one failure the
    core can raise: a timestamp that `datetime.fromisoformat` rejects. */
module Basics {

  datatype Option<+T> = None | Some(value: T)

  datatype Result<+T, +E> = Ok(value: T) | Err(error: E)

  /** The ValueError raised while parsing an ISO-8601 timestamp. */
  datatype Failure = ParseError

  /** Python truthiness of an optional text argument: both `None` and `""` are falsy. */
  predicate Given(o: Option<string>)
  {
    o.Some? && o.value != ""
  }
}
