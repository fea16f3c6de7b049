/** Values shared by every part of the storefront model: optional values,
    the abstract backend reply, notifications, and JavaScript truthiness of
    strings. */
module Common {

  /** A value that may be null or undefined. */
  datatype Option<+T> = None | Some(value: T)

  /** What an awaited backend call yields to its caller: the parsed body, or
      the message of the error it threw. The backend itself is an oracle: a
      transition takes the reply as a parameter. */
  datatype Reply<+T> = Ok(value: T) | Err(message: string)

  /** A transient notification (a toast). `Plain` is a toast with a title
      and a description; `Titled` is one with a title only. */
  datatype Notice =
    | Success(text: string)
    | Failure(text: string)
    | Plain(title: string, description: string)
    | Titled(title: string)

  /** JavaScript truthiness of a string: only the empty string is falsy. */
  predicate Truthy(s: string) {
    s != ""
  }

  /** Truthiness of a string that may be null: null and "" are falsy. */
  predicate Present(s: Option<string>) {
    s.Some? && s.value != ""
  }

  /** The string an optional string reads as inside `a || b`: null and
      undefined behave like "". */
  function Text(s: Option<string>): string {
    if s.Some? then s.value else ""
  }

  /** `a || b` on strings: the first operand unless it is falsy. */
  function Or(a: string, b: string): (r: string)
    ensures Truthy(b) ==> Truthy(r)
    ensures r == a || r == b
  {
    if Truthy(a) then a else b
  }
}
