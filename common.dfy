/** Values shared by every page: optional values, the abstract shape of an HTTP
    response as the pages see it, and JavaScript's truthiness of strings. */
module Common {

  datatype Option<+T> = None | Some(value: T)

  /** The result of `await res.json()`: the decoded payload, the JSON literal `null`
      (reading any property of it throws), or the text of the exception that parsing
      raised. A payload that decodes to a number, string or array reads every field as
      `undefined`, which `T` expresses with its missing fields. */
  datatype Body<+T> = Parsed(data: T) | JsonNull | Malformed(error: string)

  /** The message of the `TypeError` raised by reading `field` of `null`, as V8 words it. */
  function NullRead(field: string): string {
    "Cannot read properties of null (reading '" + field + "')"
  }

  /** What an awaited `fetch` produces: a reply with an HTTP status and a body that
      is only decoded when the caller asks for it, or the text of the exception that
      `fetch` itself raised (network failure, CORS, ...). */
  datatype Response<+T> = Reply(status: int, body: Body<T>) | NetworkError(error: string)

  /** `Response.ok`: the status is in the range 200-299. */
  predicate IsOk(status: int) {
    200 <= status <= 299
  }

  /** `s || fallback` for a string `s`: the empty string is falsy. */
  function OrElse(s: string, fallback: string): string {
    if s != "" then s else fallback
  }

  /** A string-valued JSON field that may be missing: truthy when present and non-empty. */
  predicate Truthy(m: Option<string>) {
    m.Some? && m.value != ""
  }

  /** `field || fallback` for a JSON field that may be missing. */
  function FieldOr(m: Option<string>, fallback: string): (r: string)
    ensures Truthy(m) ==> r == m.value
    ensures !Truthy(m) ==> r == fallback
  {
    if m.Some? then OrElse(m.value, fallback) else fallback
  }
}
