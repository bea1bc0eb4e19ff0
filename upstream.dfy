/** What the deck service's two requests can come back with, as the adapter
    sees it through its HTTP client. */
module Upstream {
  import opened Wrappers

  datatype HttpResponse = HttpResponse(status: int)

  /** A thrown error. `HttpFailure` is an error object that owns a `response`
      property (the HTTP client's errors); its value is `None` when the
      property is `undefined`. Anything else thrown is an `OtherFailure`. */
  datatype Failure =
    | HttpFailure(response: Option<HttpResponse>)
    | OtherFailure(description: string)

  /** A response body: an already structured document, or text, together with
      what the lenient JSON5 parser makes of that text. */
  datatype Body<T> =
    | Structured(doc: T)
    | Serialized(text: string, parsed: Result<T, string>)

  /** The outcome of one GET: a body, or a thrown error. */
  datatype Fetch<T> = Replied(body: Body<T>) | Threw(failure: Failure)
}
