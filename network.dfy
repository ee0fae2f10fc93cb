/**
 * The HTTP exchange the app performs through `URLSession`, reduced to
 * values: the request it sends and the reply it gets back. The network
 * itself is a function `Request -> Reply` passed in by the caller.
 */
module Network {
  import opened Wrappers
  import opened JsonModel

  /** A `URLRequest`: HTTP method, absolute URL text and header fields. */
  datatype Request = Request(httpMethod: string, url: string, headers: map<string, string>)

  /** The response data: JSON, or bytes that are not a JSON document. */
  datatype Body = JsonBody(value: Json) | NotJson

  /**
   * What `URLSession.data(for:)` gives for a request: the error it throws,
   * with its `localizedDescription`, or a response. `status` is the
   * `statusCode` when the response is an `HTTPURLResponse`, otherwise None;
   * `description` is the response's textual description.
   */
  datatype Reply =
    | TransportError(description: string)
    | Response(status: Option<int>, body: Body, description: string)

  /** An HTTP response with status code 200. */
  predicate IsOk(reply: Reply) {
    reply.Response? && reply.status == Some(200)
  }
}
