// How `_make_graph_request` turns an access token, an endpoint and a method
// into at most one HTTP request to Microsoft Graph, and how it maps what comes
// back (or the failure to get anything back) to a decoded body or None. The
// HTTP transport is an oracle: HttpOutcome is what the request would produce.
module Graph {
  import opened PyValues

  const GraphBase := "https://graph.microsoft.com/v1.0"

  /** One HTTP request: method, full URL, headers in order, and the JSON body if one is sent. */
  datatype HttpRequest = HttpRequest(verb: string, url: string, headers: seq<(string, string)>, body: Option<Json>)

  /**
   * What sending a request produces: a response with its status code, its body text and
   * the result of `response.json()` (Raised when the text is not JSON), or a transport
   * failure (connection, timeout, TLS) that the client raises as an exception.
   */
  datatype HttpOutcome =
    | Response(status: int, text: string, json: Py<Json>)
    | TransportFailure

  /** `if not token`: a missing or empty token stops the request. */
  predicate HasToken(token: Option<string>) {
    token.Some? && token.value != ""
  }

  /** The methods the dispatch handles; any other leaves `response` unbound. */
  predicate Supported(verb: string) {
    verb == "GET" || verb == "POST" || verb == "PATCH" || verb == "DELETE"
  }

  /** `raise_for_status()` lets exactly the 2xx codes through. */
  predicate IsSuccess(status: int) {
    200 <= status < 300
  }

  function Headers(token: string): seq<(string, string)> {
    [("Authorization", "Bearer " + token), ("Content-Type", "application/json")]
  }

  /** The request the dispatch sends for a method, or None when it sends none. */
  function RequestFor(token: string, endpoint: string, verb: string, data: Option<Json>): (r: Option<HttpRequest>)
    ensures r.Some? <==> Supported(verb)
    ensures r.Some? ==> r.value.verb == verb && r.value.url == GraphBase + endpoint
    ensures r.Some? ==> r.value.headers == Headers(token)
    ensures r.Some? ==> r.value.body == (if verb == "POST" || verb == "PATCH" then data else None)
  {
    var url := GraphBase + endpoint;
    if verb == "GET" || verb == "DELETE" then Some(HttpRequest(verb, url, Headers(token), None))
    else if verb == "POST" || verb == "PATCH" then Some(HttpRequest(verb, url, Headers(token), data))
    else None
  }

  /**
   * What the handler returns for an outcome: the decoded body of a 2xx response with a
   * non-empty body; None for a status error, a transport failure, an empty body or a body
   * that is not JSON.
   */
  function ResponseValue(http: HttpOutcome): (r: Option<Json>)
    ensures r.Some? <==> http.Response? && IsSuccess(http.status) && http.text != "" && http.json.Value?
    ensures r.Some? ==> r.value == http.json.value
  {
    match http
    case TransportFailure => None
    case Response(status, text, json) =>
      if !IsSuccess(status) then None
      else if text == "" then None
      else if json.Raised? then None
      else Some(json.value)
  }

  /** The request `_make_graph_request` sends, if any, and what it returns. */
  datatype GraphCall = GraphCall(sent: Option<HttpRequest>, result: Option<Json>)

  /** `_make_graph_request` once the token has been obtained. */
  function GraphRequest(token: Option<string>, endpoint: string, verb: string, data: Option<Json>, http: HttpOutcome): (g: GraphCall)
    ensures g.sent.Some? <==> HasToken(token) && Supported(verb)
    ensures g.sent.Some? ==> g.sent.value.verb == verb && g.sent.value.url == GraphBase + endpoint
    ensures g.sent.Some? ==> ("Authorization", "Bearer " + token.value) in g.sent.value.headers
    ensures g.result.Some? <==>
              HasToken(token) && Supported(verb) &&
              http.Response? && IsSuccess(http.status) && http.text != "" && http.json.Value?
    ensures g.result.Some? ==> g.result.value == http.json.value
  {
    if !HasToken(token) then GraphCall(None, None)
    else
      match RequestFor(token.value, endpoint, verb, data)
      case None => GraphCall(None, None)
      case Some(request) => GraphCall(Some(request), ResponseValue(http))
  }

  /** The request log grows by the request sent, if one was. */
  function SentBy(g: GraphCall): (log: seq<HttpRequest>)
    ensures |log| <= 1
    ensures log == [] <==> g.sent.None?
  {
    if g.sent.Some? then [g.sent.value] else []
  }

  /** Every failure, whatever its kind, comes out as the same None: a status error ... */
  lemma StatusErrorGivesNone(token: Option<string>, endpoint: string, verb: string, data: Option<Json>,
                             status: int, text: string, json: Py<Json>)
    requires !IsSuccess(status)
    ensures GraphRequest(token, endpoint, verb, data, Response(status, text, json)).result == None
  {
  }

  /** ... an empty body on a 2xx response, even when one was sent ... */
  lemma EmptyBodyGivesNone(token: Option<string>, endpoint: string, verb: string, data: Option<Json>,
                           status: int, json: Py<Json>)
    ensures GraphRequest(token, endpoint, verb, data, Response(status, "", json)).result == None
  {
  }

  /** ... and a method outside GET/POST/PATCH/DELETE, for which nothing is sent at all. */
  lemma UnsupportedMethodSendsNothing(token: Option<string>, endpoint: string, verb: string, data: Option<Json>,
                                      http: HttpOutcome)
    requires !Supported(verb)
    ensures GraphRequest(token, endpoint, verb, data, http) == GraphCall(None, None)
  {
  }
}
