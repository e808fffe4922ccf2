/** Failure-compatible wrappers shared by every module of the model. */
module Wrappers {

  /** A value or its absence; stands for a Java reference that may be null. */
  datatype Option<+T> = None | Some(value: T)

  /** The value a Java method returns, or the exception it throws instead. */
  datatype Result<+T, +E> = Ok(value: T) | Err(error: E)

  /** The outcome of a Java method returning void: normal completion or an exception. */
  datatype Outcome<+E> = Pass | Fail(error: E)

  /** The kinds of unchecked exception the core throws, with their messages. */
  datatype Exception =
    | IllegalArgument(message: string)
    | IllegalState(message: string)
    | DateTimeError(message: string)
    | NullReference

  /** A possibly null string as Java's string concatenation renders it. */
  function OrNull(s: Option<string>): string {
    if s.Some? then s.value else "null"
  }

  /** A possibly null string, replaced by a default when null. */
  function OrDefault(s: Option<string>, fallback: string): string {
    if s.Some? then s.value else fallback
  }
}
