/**
 * One call of the load test: the request that is sent (headers with the
 * optional bearer credential, body only for methods that carry one) and the
 * shape of the value the call resolves to. The network and the clock are
 * inputs: `Reply` is what the transport did, `start` and `end` are the two
 * high-resolution clock readings around it.
 */
module Request {
  import opened Types

  const AUTHORIZATION := "Authorization"

  /** What is handed to fetch. */
  datatype HttpRequest = HttpRequest(
    url: string,
    httpMethod: HttpMethod,
    headers: map<string, string>,
    body: Option<string>)

  /** Reading the response body either yields its text or throws. */
  datatype BodyRead = Text(data: string) | ReadFailed(message: string)

  /** What the transport did with one request: it answered with a status
      (`ok` for the 2xx range) or it rejected with an error message. */
  datatype Reply = Responded(ok: bool, status: int, text: BodyRead) | Rejected(message: string)

  /** One call as the environment plays it: the reply and the clock
      readings taken before the request and on the path that ends it. */
  datatype Call = Call(reply: Reply, start: real, end: real)

  /** The value a call resolves to; it never rejects. */
  datatype RequestResult = RequestResult(
    success: bool,
    status: Option<int>,
    responseTime: real,
    data: Option<string>,
    error: Option<string>)

  /** A copy of the configured headers, with the bearer credential added (or
      replacing a configured one) when the API key is non-empty. */
  function RequestHeaders(config: TestConfig): (h: map<string, string>)
    ensures h.Keys == config.headers.Keys + (if config.apiKey != "" then {AUTHORIZATION} else {})
    ensures forall k :: k in config.headers && (k != AUTHORIZATION || config.apiKey == "") ==>
      h[k] == config.headers[k]
    ensures config.apiKey != "" ==> h[AUTHORIZATION] == "Bearer " + config.apiKey
  {
    if config.apiKey != "" then config.headers[AUTHORIZATION := "Bearer " + config.apiKey]
    else config.headers
  }

  /** The request a call sends: the body goes out only for a method other
      than GET (HEAD is not a method a configuration can name). */
  function FetchRequest(config: TestConfig): (r: HttpRequest)
    ensures r.url == config.endpoint && r.httpMethod == config.httpMethod
    ensures r.headers == RequestHeaders(config)
    ensures r.body.Some? <==> config.httpMethod != GET && config.body.Some?
    ensures r.body.Some? ==> r.body == config.body
  {
    HttpRequest(config.endpoint, config.httpMethod, RequestHeaders(config),
      if config.httpMethod != GET then config.body else None)
  }

  /** The resolved value of one call. A reply whose status is outside the
      success range is a failure without an error message; a rejected
      request or a body that cannot be read is a failure with the error
      message. Either way the latency is measured. */
  function MakeRequest(reply: Reply, start: real, end: real): (r: RequestResult)
    ensures r.responseTime == end - start
    ensures r.success <==> reply.Responded? && reply.ok && reply.text.Text?
    ensures r.error.Some? <==> !(reply.Responded? && reply.text.Text?)
    ensures r.error.Some? ==> r.status.None? && r.data.None? && !r.success
    ensures reply.Rejected? ==> r.error == Some(reply.message)
    ensures reply.Responded? && reply.text.Text? ==>
      r.status == Some(reply.status) && r.data == Some(reply.text.data)
  {
    match reply
    case Rejected(message) =>
      RequestResult(false, None, end - start, None, Some(message))
    case Responded(ok, status, ReadFailed(message)) =>
      RequestResult(false, None, end - start, None, Some(message))
    case Responded(ok, status, Text(data)) =>
      RequestResult(ok, Some(status), end - start, Some(data), None)
  }

  /** The contribution of a call to the statistics. */
  function ResultOf(call: Call): RequestResult
  {
    MakeRequest(call.reply, call.start, call.end)
  }
}
