/** Values shared by every screen: optional JSON fields and the shape of a network reply. */
module Common {

  /** A JSON field that may be null, undefined or of the wrong type. */
  datatype Option<+T> = None | Some(value: T)

  /** What a request gives back to the screen that issued it.
      Ok: a 2xx response whose body was read; NotOk: a non-2xx response whose body was read,
      carrying the message field the screen looks at ("" when absent);
      Threw: the request or the body parse raised an exception carrying `message`. */
  datatype Reply<+T> = Ok(data: T) | NotOk(message: string) | Threw(message: string)

  /** JavaScript truthiness of an optional string: present and non-empty. */
  predicate Truthy(s: Option<string>) {
    s.Some? && s.value != ""
  }

  /** JavaScript `a || b` on strings: the first one when it is non-empty. */
  function Or(a: string, b: string): string {
    if a != "" then a else b
  }
}
