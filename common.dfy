/**
 * Values shared by every part of the model: optional values, results, the
 * values a JavaScript `catch` clause can receive, and JavaScript truthiness
 * of optional strings.
 */
module Common {

  /** Milliseconds since the epoch, the value of `new Date()`. */
  type Timestamp = int

  datatype Option<+T> = None | Some(value: T)

  datatype Result<+R, +E> = Success(value: R) | Failure(error: E)

  /** What a `catch (error)` clause receives: an `Error` object with its message, or any other thrown value. */
  datatype Thrown = ErrorValue(message: string) | NonErrorValue

  /** `error instanceof Error ? error.message : fallback` */
  function MessageOf(t: Thrown, fallback: string): string {
    match t
    case ErrorValue(message) => message
    case NonErrorValue => fallback
  }

  /** JavaScript truthiness of an optional string: `undefined` and `""` are falsy, every other string is truthy. */
  predicate Truthy(s: Option<string>) {
    s.Some? && s.value != ""
  }
}
