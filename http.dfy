/** What the browser's `fetch` followed by `response.json()` hands back to
    the code, with the transport itself left out. */
module Http {

  /** The parsed body, or the reason `response.json()` rejected (the text is
      not JSON, or, where the caller then dereferences it, not an object). */
  datatype Json<+T> = Valid(value: T) | Malformed(reason: string)

  /** A rejected `fetch` (network failure), or a response with its status code. */
  datatype Fetched<+T> = NetworkError(reason: string) | Response(status: nat, body: Json<T>)

  /** `response.ok`: the status is in the range 200-299. */
  predicate IsOk(status: nat) {
    200 <= status <= 299
  }
}
