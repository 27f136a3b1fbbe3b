/**
 * The HTTP exchange as the core sees it through OkHttp: the POST request it builds, and the
 * outcome of executing it, which the model receives as an input.
 */
module Http {
  import opened JavaLang
  import opened JsonTree

  /** A request body: text with its media type, raw bytes with their media type, or a form. */
  datatype Body =
    | Text(mediaType: string, text: string)
    | Bytes(mediaType: string, data: seq<byte>)
    | Form(fields: seq<(string, string)>)

  /** Every request the core issues is a POST. */
  datatype Request = Post(url: string, headers: seq<(string, string)>, body: Body)

  /** What `readTree` makes of a response body: a tree, or a parse failure with its message. */
  datatype Payload = Tree(json: Json) | NotJson(detail: string)

  /**
   * The outcome of `execute()`: an `IOException` (connection, timeout, reading the body),
   * or a response with its status code, reason phrase, body text and parsed body.
   */
  datatype Outcome =
    | IOFailure(detail: string)
    | Reply(code: int, reason: string, text: string, payload: Payload)

  /** `Response.isSuccessful()`: a 2xx status. */
  predicate IsSuccessful(code: int) {
    200 <= code < 300
  }

  /** The result of an operation together with the requests it issued, in the order issued. */
  datatype Exchange<T> = Exchange(result: T, sent: seq<Request>)
}
