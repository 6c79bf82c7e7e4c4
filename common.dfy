/** Shared vocabulary: identities, optional values, thrown errors, JavaScript truthiness. */
module Common {

  /** A document identity generated by the primary store (an ObjectId in the source). */
  type Id = nat

  datatype Option<T> = None | Some(value: T) {
    function GetOr(default: T): T {
      if Some? then value else default
    }
  }

  /** A JavaScript `Error` as the routes see it: its message and, for system errors, its code. */
  datatype Error = Error(message: string, code: string)

  /** The outcome of a service call: a value, or the error it throws. */
  datatype Result<T> = Ok(value: T) | Err(error: Error)

  /** An error thrown by `new Error(message)`: it carries no code. */
  function Fail<T>(message: string): Result<T> {
    Err(Error(message, ""))
  }

  /** JavaScript truthiness of an optional string: an absent value and "" are falsy. */
  predicate Truthy(s: Option<string>) {
    s.Some? && s.value != ""
  }

  function Min(a: int, b: int): int {
    if a <= b then a else b
  }
}
