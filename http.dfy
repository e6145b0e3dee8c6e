/** What a `fetch` call hands back to the code that issued it. */
module Http {
  import opened JsValues

  /** The body as `response.json()` reads it: a JSON document, or the
      message of the SyntaxError it rejects with. */
  datatype Payload = Parsed(json: Json) | Unparseable(reason: string)

  /** A settled `fetch`: a response with its status and body, or the
      message of the error it rejected with (network failure). */
  datatype FetchOutcome = Responded(status: int, body: Payload) | FetchFailed(reason: string)

  /** `response.ok`: a status in the range 200-299. */
  predicate IsOk(status: int) {
    200 <= status <= 299
  }
}
