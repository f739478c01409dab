/** The result of `jwt.verify`, shared by the HTTP middleware and the WebSocket gate. */
module Jwt {
  import opened Wrappers

  /**
   * A verified token's payload: an object with optional `id` and `name`
   * claims, or the bare string a token signed over a string carries.
   */
  datatype Decoded = Claims(id: Option<int>, name: Option<string>) | Text(s: string)

  /** `jwt.verify(token, secret)`: the payload, or `None` where the library throws. */
  type Verifier = string -> Option<Decoded>

  /** `decoded.id`: absent when the payload is a string. */
  function IdOf(d: Decoded): (r: Option<int>)
    ensures d.Text? ==> r.None?
  {
    match d
    case Claims(id, _) => id
    case Text(_) => None
  }

  /** `decoded.name`: absent when the payload is a string. */
  function NameOf(d: Decoded): (r: Option<string>)
    ensures d.Text? ==> r.None?
  {
    match d
    case Claims(_, name) => name
    case Text(_) => None
  }

  /** JavaScript truthiness of the payload: every object, every non-empty string. */
  predicate Truthy(d: Decoded) {
    d.Claims? || d.s != ""
  }
}
