/** The HTTP client facade and response envelopes of app/core/http.py.
    The network is a parameter: a transport that maps the request a client
    method builds to the upstream's response or to a connection failure. */
module Http {
  import opened Wrappers
  import Json

  const CONTENT_TYPE: string := "Content-Type"
  const APPLICATION_JSON: string := "application/json"
  const APPLICATION_FORM: string := "application/x-www-form-urlencoded"
  const DEFAULT_TIMEOUT: int := 10

  // ---------------------------------------------------------------------------
  // Envelopes

  /** A `JSONResponse`: the HTTP status and the content it serialises. */
  datatype JsonResponse = JsonResponse(statusCode: int, content: Json.Value)

  /** FastAPI's `HTTPException`, as far as the error handler reads it. */
  datatype HttpException = HttpException(statusCode: int, detail: Json.Value)

  /** `http_response`: the success envelope `{track_id, ip, data}`. A `None`
      payload becomes the empty dict; every other payload is kept, falsy ones included. */
  function HttpResponse(data: Json.Value := Json.Null, trackId: Json.Value := Json.Null,
                        id: Json.Value := Json.Null, statusCode: int := 200): (r: JsonResponse)
    ensures r.statusCode == statusCode
    ensures r.content.Dict? && r.content.fields.Keys == {"track_id", "ip", "data"}
    ensures r.content.fields["track_id"] == trackId && r.content.fields["ip"] == id
    ensures data != Json.Null ==> r.content.fields["data"] == data
    ensures data == Json.Null ==> r.content.fields["data"] == Json.Dict(map[])
  {
    var payload := if data == Json.Null then Json.Dict(map[]) else data;
    JsonResponse(statusCode, Json.Dict(map["track_id" := trackId, "ip" := id, "data" := payload]))
  }

  /** `http_error_handler`: the failure envelope, with no correlation fields and
      the exception's status both as the error code and as the response status. */
  function HttpErrorHandler(exc: HttpException): (r: JsonResponse)
    ensures r.statusCode == exc.statusCode
    ensures r.content.Dict? && r.content.fields.Keys == {"track_id", "ip", "error"}
    ensures r.content.fields["track_id"] == Json.Null && r.content.fields["ip"] == Json.Null
    ensures r.content.fields["error"]
            == Json.Dict(map["code" := Json.Number(exc.statusCode), "message" := exc.detail])
  {
    JsonResponse(exc.statusCode, Json.Dict(map[
      "track_id" := Json.Null,
      "ip" := Json.Null,
      "error" := Json.Dict(map["code" := Json.Number(exc.statusCode), "message" := exc.detail])
    ]))
  }

  /** Reads back the payload of a success envelope. */
  function EnvelopeData(content: Json.Value): (r: Option<Json.Value>)
  {
    if content.Dict? && "data" in content.fields && "error" !in content.fields
    then Some(content.fields["data"]) else None
  }

  /** Reads back the (code, message) of a failure envelope. */
  function EnvelopeError(content: Json.Value): (r: Option<(int, Json.Value)>)
  {
    if content.Dict? && "error" in content.fields && "data" !in content.fields
       && content.fields["error"].Dict?
       && "code" in content.fields["error"].fields && content.fields["error"].fields["code"].Number?
       && "message" in content.fields["error"].fields
    then Some((content.fields["error"].fields["code"].n, content.fields["error"].fields["message"]))
    else None
  }

  /** The two envelopes can always be told apart, and each gives back what was put in. */
  lemma EnvelopesRoundTrip(data: Json.Value, trackId: Json.Value, id: Json.Value, status: int, exc: HttpException)
    ensures EnvelopeData(HttpResponse(data, trackId, id, status).content)
            == Some(if data == Json.Null then Json.Dict(map[]) else data)
    ensures EnvelopeError(HttpResponse(data, trackId, id, status).content) == None
    ensures EnvelopeError(HttpErrorHandler(exc).content) == Some((exc.statusCode, exc.detail))
    ensures EnvelopeData(HttpErrorHandler(exc).content) == None
  {
  }

  /** `http_response()` with no arguments: status 200 and `{track_id: None, ip: None, data: {}}`. */
  lemma DefaultHttpResponse()
    ensures HttpResponse()
            == JsonResponse(200, Json.Dict(map["track_id" := Json.Null, "ip" := Json.Null, "data" := Json.Dict(map[])]))
  {
  }

  // ---------------------------------------------------------------------------
  // Header defaulting

  /** A header dict. A value of `None` is a key the caller set to `None`. */
  type HeaderMap = map<string, Option<string>>

  /** The caller's `headers` dict, which the client methods update in place. */
  class Headers {
    var entries: HeaderMap

    constructor (entries: HeaderMap)
      ensures this.entries == entries
    {
      this.entries := entries;
    }
  }

  /** True when `headers.get("Content-Type")` is not `None`. */
  predicate HasContentType(h: HeaderMap)
  {
    CONTENT_TYPE in h && h[CONTENT_TYPE].Some?
  }

  /** The header dict after defaulting: a missing or `None` Content-Type is set
      to `contentType`; a present one, and every other entry, is left as it was. */
  function WithDefaultContentType(h: HeaderMap, contentType: string): (r: HeaderMap)
    ensures HasContentType(r)
    ensures HasContentType(h) ==> r == h
    ensures !HasContentType(h) ==> r[CONTENT_TYPE] == Some(contentType)
    ensures r.Keys == h.Keys + {CONTENT_TYPE}
    ensures forall k :: k in h && k != CONTENT_TYPE ==> r[k] == h[k]
  {
    if HasContentType(h) then h else h[CONTENT_TYPE := Some(contentType)]
  }

  /** Defaulting twice, with any second default, changes nothing more than defaulting once. */
  lemma DefaultingIsIdempotent(h: HeaderMap, first: string, second: string)
    ensures WithDefaultContentType(WithDefaultContentType(h, first), second) == WithDefaultContentType(h, first)
  {
  }

  /** The headers a call sends, for the dict it was given (or `None`). */
  function SentHeaders(given: Option<HeaderMap>, contentType: string): (r: HeaderMap)
    ensures given.None? ==> r == map[CONTENT_TYPE := Some(contentType)]
    ensures given.Some? ==> r == WithDefaultContentType(given.value, contentType)
  {
    WithDefaultContentType(if given.Some? then given.value else map[], contentType)
  }

  /** The opening lines of every client method: `None` becomes a fresh empty
      dict, then Content-Type is defaulted in that dict, in place. */
  method DefaultContentType(headers: Headers?, contentType: string) returns (sent: Headers)
    modifies headers
    ensures headers == null ==> fresh(sent) && sent.entries == map[CONTENT_TYPE := Some(contentType)]
    ensures headers != null ==> sent == headers
                                && sent.entries == WithDefaultContentType(old(headers.entries), contentType)
  {
    if headers == null {
      sent := new Headers(map[]);
    } else {
      sent := headers;
    }
    if CONTENT_TYPE !in sent.entries || sent.entries[CONTENT_TYPE].None? {
      sent.entries := sent.entries[CONTENT_TYPE := Some(contentType)];
    }
  }

  // ---------------------------------------------------------------------------
  // Requests, responses and the transport

  datatype Verb = GET | POST

  /** What a POST carries: a JSON body (`json=data`) or a form body (`data=data`). */
  datatype Body = NoBody | JsonBody(value: Json.Value) | FormBody(value: Json.Value)

  /** The request a client method hands to its HTTP library. */
  datatype Request = Request(verb: Verb, url: string, params: Option<Json.Value>, body: Body,
                             headers: HeaderMap, timeout: int, verifyTls: bool)

  /** The upstream's response: status, body text, and the body parsed as JSON
      (`None` when `response.json()` would raise). */
  datatype Upstream = Upstream(status: int, text: string, json: Option<Json.Value>)

  /** What escapes a client method as an exception. */
  datatype ClientError =
    | ConnectionFailed                          // raised by the HTTP library while connecting or reading
    | JsonDecodeError                           // `response.json()` on a body that is not JSON
    | UnexpectedKeywords(names: set<string>)    // TypeError: keyword arguments the callee does not accept

  /** The network: the upstream's answer to a request, or a connection failure. */
  type Transport = Request -> Result<Upstream, ClientError>

  // ---------------------------------------------------------------------------
  // Response normalisation of the asynchronous clients

  predicate IsOkStatus(status: int) { status == 200 || status == 201 }

  /** The failure object returned instead of the body. */
  function Sentinel(resp: Upstream): (v: Json.Value)
  {
    Json.Dict(map["data" := Json.Number(0), "code" := Json.Str("HTTP_ERROR"),
                  "message" := Json.Str(resp.text), "status" := Json.Number(resp.status)])
  }

  /** Recognises a failure object and gives back the body text and status it carries. */
  function ReadSentinel(v: Json.Value): (r: Option<(string, int)>)
  {
    if v.Dict? && v.fields.Keys == {"data", "code", "message", "status"}
       && v.fields["data"] == Json.Number(0) && v.fields["code"] == Json.Str("HTTP_ERROR")
       && v.fields["message"].Str? && v.fields["status"].Number?
    then Some((v.fields["message"].s, v.fields["status"].n))
    else None
  }

  lemma ReadSentinelRoundTrip(resp: Upstream)
    ensures ReadSentinel(Sentinel(resp)) == Some((resp.text, resp.status))
  {
  }

  /** Result of an asynchronous `get`: on 200/201 the parsed body, and a body
      that does not parse raises; on any other status the parsed body if it
      parses, and the failure object otherwise. Connection failures propagate. */
  function GetOutcome(exchange: Result<Upstream, ClientError>): (r: Result<Json.Value, ClientError>)
    ensures exchange.Failure? ==> r == Failure(exchange.error)
    ensures exchange.Success? && exchange.value.json.Some? ==> r == Success(exchange.value.json.value)
    ensures exchange.Success? && exchange.value.json.None? ==>
              r == if IsOkStatus(exchange.value.status) then Failure(JsonDecodeError)
                   else Success(Sentinel(exchange.value))
  {
    match exchange
    case Failure(e) => Failure(e)
    case Success(resp) =>
      if IsOkStatus(resp.status) then
        (match resp.json case Some(v) => Success(v) case None => Failure(JsonDecodeError))
      else
        (match resp.json case Some(v) => Success(v) case None => Success(Sentinel(resp)))
  }

  /** Result of an asynchronous `post`: on 200/201 the parsed body (a body that
      does not parse raises); on any other status the failure object, even when
      the body is valid JSON. Connection failures propagate. */
  function PostOutcome(exchange: Result<Upstream, ClientError>): (r: Result<Json.Value, ClientError>)
    ensures exchange.Failure? ==> r == Failure(exchange.error)
    ensures exchange.Success? && !IsOkStatus(exchange.value.status) ==> r == Success(Sentinel(exchange.value))
    ensures exchange.Success? && IsOkStatus(exchange.value.status) ==>
              r == if exchange.value.json.Some? then Success(exchange.value.json.value)
                   else Failure(JsonDecodeError)
  {
    match exchange
    case Failure(e) => Failure(e)
    case Success(resp) =>
      if IsOkStatus(resp.status) then
        (match resp.json case Some(v) => Success(v) case None => Failure(JsonDecodeError))
      else
        Success(Sentinel(resp))
  }

  /** `get` and `post` treat a response alike exactly when it is a 200/201, or
      its body does not parse, or its body already is the failure object. */
  lemma GetPostAgreement(resp: Upstream)
    ensures GetOutcome(Success(resp)) == PostOutcome(Success(resp))
            <==> IsOkStatus(resp.status) || resp.json.None? || resp.json.value == Sentinel(resp)
  {
  }

  /** A failing `get` (body unparsable, status not 200/201) and a non-failing one
      (any status, body parses) are indistinguishable when the parsed body looks
      like a failure object: the result does not say whether the upstream failed. */
  lemma GetConflatesFailureWithBody(failed: Upstream, other: Upstream)
    requires failed.json.None? && !IsOkStatus(failed.status)
    requires other.json == Some(Sentinel(failed))
    ensures GetOutcome(Success(other)) == GetOutcome(Success(failed))
    ensures ReadSentinel(GetOutcome(Success(other)).value) == Some((failed.text, failed.status))
  {
  }

  /** The documented cases: a 200 `{"x": 1}` is returned unchanged by both; a
      404 `{"err": "nf"}` is returned by `get` as a result, not an error; a 500
      with body "boom" is reported as the failure object by both. */
  lemma DocumentedOutcomes()
    ensures var x := Json.Dict(map["x" := Json.Number(1)]);
            GetOutcome(Success(Upstream(200, "{\"x\": 1}", Some(x)))) == Success(x)
            && PostOutcome(Success(Upstream(200, "{\"x\": 1}", Some(x)))) == Success(x)
    ensures var nf := Json.Dict(map["err" := Json.Str("nf")]);
            GetOutcome(Success(Upstream(404, "{\"err\": \"nf\"}", Some(nf)))) == Success(nf)
    ensures var boom := Json.Dict(map["data" := Json.Number(0), "code" := Json.Str("HTTP_ERROR"),
                                      "message" := Json.Str("boom"), "status" := Json.Number(500)]);
            GetOutcome(Success(Upstream(500, "boom", None))) == Success(boom)
            && PostOutcome(Success(Upstream(500, "boom", None))) == Success(boom)
  {
  }

  // ---------------------------------------------------------------------------
  // Asynchronous clients (aiohttp, TLS verification off)

  /** The caller's dict before the call, or `None`. */
  function Given(headers: Headers?): (r: Option<HeaderMap>)
    reads headers
  {
    if headers == null then None else Some(headers.entries)
  }

  class JsonHttpClient {

    static method Get(transport: Transport, url: string, params: Option<Json.Value> := None,
                      headers: Headers? := null, timeout: int := DEFAULT_TIMEOUT)
      returns (r: Result<Json.Value, ClientError>)
      modifies headers
      ensures headers != null ==> headers.entries == WithDefaultContentType(old(headers.entries), APPLICATION_JSON)
      ensures r == GetOutcome(transport(Request(GET, url, params, NoBody,
                                                SentHeaders(old(Given(headers)), APPLICATION_JSON), timeout, false)))
    {
      var sent := DefaultContentType(headers, APPLICATION_JSON);
      var exchange := transport(Request(GET, url, params, NoBody, sent.entries, timeout, false));
      r := GetOutcome(exchange);
    }

    static method Post(transport: Transport, url: string, data: Json.Value,
                       headers: Headers? := null, timeout: int := DEFAULT_TIMEOUT)
      returns (r: Result<Json.Value, ClientError>)
      modifies headers
      ensures headers != null ==> headers.entries == WithDefaultContentType(old(headers.entries), APPLICATION_JSON)
      ensures r == PostOutcome(transport(Request(POST, url, None, JsonBody(data),
                                                 SentHeaders(old(Given(headers)), APPLICATION_JSON), timeout, false)))
    {
      var sent := DefaultContentType(headers, APPLICATION_JSON);
      var exchange := transport(Request(POST, url, None, JsonBody(data), sent.entries, timeout, false));
      r := PostOutcome(exchange);
    }
  }

  class XFormHttpClient {

    static method Get(transport: Transport, url: string, params: Option<Json.Value> := None,
                      headers: Headers? := null, timeout: int := DEFAULT_TIMEOUT)
      returns (r: Result<Json.Value, ClientError>)
      modifies headers
      ensures headers != null ==> headers.entries == WithDefaultContentType(old(headers.entries), APPLICATION_FORM)
      ensures r == GetOutcome(transport(Request(GET, url, params, NoBody,
                                                SentHeaders(old(Given(headers)), APPLICATION_FORM), timeout, false)))
    {
      var sent := DefaultContentType(headers, APPLICATION_FORM);
      var exchange := transport(Request(GET, url, params, NoBody, sent.entries, timeout, false));
      r := GetOutcome(exchange);
    }

    static method Post(transport: Transport, url: string, data: Json.Value,
                       headers: Headers? := null, timeout: int := DEFAULT_TIMEOUT)
      returns (r: Result<Json.Value, ClientError>)
      modifies headers
      ensures headers != null ==> headers.entries == WithDefaultContentType(old(headers.entries), APPLICATION_FORM)
      ensures r == PostOutcome(transport(Request(POST, url, None, FormBody(data),
                                                 SentHeaders(old(Given(headers)), APPLICATION_FORM), timeout, false)))
    {
      var sent := DefaultContentType(headers, APPLICATION_FORM);
      var exchange := transport(Request(POST, url, None, FormBody(data), sent.entries, timeout, false));
      r := PostOutcome(exchange);
    }
  }

  // ---------------------------------------------------------------------------
  // Synchronous clients (requests): the raw response is handed back

  /** The keyword arguments `requests.Session.request` accepts; `get` and
      `post` pass theirs through to it unchanged. */
  const REQUESTS_KEYWORDS: set<string> :=
    {"params", "data", "headers", "cookies", "files", "auth", "timeout", "allow_redirects",
     "proxies", "hooks", "stream", "verify", "cert", "json"}

  /** A `requests.Session` call with the given keyword arguments: a keyword it
      does not know raises TypeError before anything is sent. */
  function SessionCall(keywords: set<string>, req: Request, transport: Transport): (r: Result<Upstream, ClientError>)
    ensures keywords <= REQUESTS_KEYWORDS ==> r == transport(req)
    ensures !(keywords <= REQUESTS_KEYWORDS) ==> r == Failure(UnexpectedKeywords(keywords - REQUESTS_KEYWORDS))
  {
    if keywords <= REQUESTS_KEYWORDS then transport(req)
    else Failure(UnexpectedKeywords(keywords - REQUESTS_KEYWORDS))
  }

  /** The keywords each synchronous method passes, as written and as corrected. */
  const SYNC_JSON_GET_KEYWORDS: set<string> := {"params", "timeout", "headers"}
  const SYNC_JSON_POST_KEYWORDS: set<string> := {"json", "timeout", "headers"}
  const SYNC_XFORM_GET_KEYWORDS_AS_WRITTEN: set<string> := {"params", "timeout", "headers", "verify_ssl"}
  const SYNC_XFORM_POST_KEYWORDS_AS_WRITTEN: set<string> := {"data", "timeout", "headers", "verify_ssl"}
  const SYNC_XFORM_GET_KEYWORDS: set<string> := {"params", "timeout", "headers", "verify"}
  const SYNC_XFORM_POST_KEYWORDS: set<string> := {"data", "timeout", "headers", "verify"}

  /** As written, the synchronous form client's calls always raise TypeError
      naming `verify_ssl`, whatever the request and the upstream. */
  lemma SyncXFormAsWrittenAlwaysRaises(req: Request, transport: Transport)
    ensures SessionCall(SYNC_XFORM_GET_KEYWORDS_AS_WRITTEN, req, transport) == Failure(UnexpectedKeywords({"verify_ssl"}))
    ensures SessionCall(SYNC_XFORM_POST_KEYWORDS_AS_WRITTEN, req, transport) == Failure(UnexpectedKeywords({"verify_ssl"}))
  {
    assert "verify_ssl" !in REQUESTS_KEYWORDS;
    assert SYNC_XFORM_GET_KEYWORDS_AS_WRITTEN - REQUESTS_KEYWORDS == {"verify_ssl"};
    assert SYNC_XFORM_POST_KEYWORDS_AS_WRITTEN - REQUESTS_KEYWORDS == {"verify_ssl"};
  }

  /** Every other synchronous call, the corrected form calls included, reaches the upstream. */
  lemma SyncCallsReachUpstream(req: Request, transport: Transport)
    ensures SessionCall(SYNC_JSON_GET_KEYWORDS, req, transport) == transport(req)
    ensures SessionCall(SYNC_JSON_POST_KEYWORDS, req, transport) == transport(req)
    ensures SessionCall(SYNC_XFORM_GET_KEYWORDS, req, transport) == transport(req)
    ensures SessionCall(SYNC_XFORM_POST_KEYWORDS, req, transport) == transport(req)
  {
  }

  class SyncJsonHttpClient {

    /** No `verify` keyword: requests checks the upstream's certificate by default. */
    static method Get(transport: Transport, url: string, params: Option<Json.Value> := None,
                      headers: Headers? := null, timeout: int := DEFAULT_TIMEOUT)
      returns (r: Result<Upstream, ClientError>)
      modifies headers
      ensures headers != null ==> headers.entries == WithDefaultContentType(old(headers.entries), APPLICATION_JSON)
      ensures r == transport(Request(GET, url, params, NoBody,
                                     SentHeaders(old(Given(headers)), APPLICATION_JSON), timeout, true))
    {
      var sent := DefaultContentType(headers, APPLICATION_JSON);
      r := SessionCall(SYNC_JSON_GET_KEYWORDS, Request(GET, url, params, NoBody, sent.entries, timeout, true), transport);
    }

    static method Post(transport: Transport, url: string, data: Json.Value,
                       headers: Headers? := null, timeout: int := DEFAULT_TIMEOUT)
      returns (r: Result<Upstream, ClientError>)
      modifies headers
      ensures headers != null ==> headers.entries == WithDefaultContentType(old(headers.entries), APPLICATION_JSON)
      ensures r == transport(Request(POST, url, None, JsonBody(data),
                                     SentHeaders(old(Given(headers)), APPLICATION_JSON), timeout, true))
    {
      var sent := DefaultContentType(headers, APPLICATION_JSON);
      r := SessionCall(SYNC_JSON_POST_KEYWORDS, Request(POST, url, None, JsonBody(data), sent.entries, timeout, true), transport);
    }
  }

  class SyncXFormHttpClient {

    /** As written: the headers are defaulted, then the call raises TypeError
        because `verify_ssl` is not a keyword requests accepts. */
    static method GetAsWritten(transport: Transport, url: string, params: Option<Json.Value> := None,
                               headers: Headers? := null, timeout: int := DEFAULT_TIMEOUT)
      returns (r: Result<Upstream, ClientError>)
      modifies headers
      ensures headers != null ==> headers.entries == WithDefaultContentType(old(headers.entries), APPLICATION_FORM)
      ensures r == Failure(UnexpectedKeywords({"verify_ssl"}))
    {
      var sent := DefaultContentType(headers, APPLICATION_FORM);
      var req := Request(GET, url, params, NoBody, sent.entries, timeout, false);
      r := SessionCall(SYNC_XFORM_GET_KEYWORDS_AS_WRITTEN, req, transport);
      SyncXFormAsWrittenAlwaysRaises(req, transport);
    }

    static method PostAsWritten(transport: Transport, url: string, data: Json.Value,
                                headers: Headers? := null, timeout: int := DEFAULT_TIMEOUT)
      returns (r: Result<Upstream, ClientError>)
      modifies headers
      ensures headers != null ==> headers.entries == WithDefaultContentType(old(headers.entries), APPLICATION_FORM)
      ensures r == Failure(UnexpectedKeywords({"verify_ssl"}))
    {
      var sent := DefaultContentType(headers, APPLICATION_FORM);
      var req := Request(POST, url, None, FormBody(data), sent.entries, timeout, false);
      r := SessionCall(SYNC_XFORM_POST_KEYWORDS_AS_WRITTEN, req, transport);
      SyncXFormAsWrittenAlwaysRaises(req, transport);
    }

    /** Corrected: certificate checking is turned off with requests' own `verify`
        keyword, and the upstream's raw response is handed back. */
    static method Get(transport: Transport, url: string, params: Option<Json.Value> := None,
                      headers: Headers? := null, timeout: int := DEFAULT_TIMEOUT)
      returns (r: Result<Upstream, ClientError>)
      modifies headers
      ensures headers != null ==> headers.entries == WithDefaultContentType(old(headers.entries), APPLICATION_FORM)
      ensures r == transport(Request(GET, url, params, NoBody,
                                     SentHeaders(old(Given(headers)), APPLICATION_FORM), timeout, false))
    {
      var sent := DefaultContentType(headers, APPLICATION_FORM);
      r := SessionCall(SYNC_XFORM_GET_KEYWORDS, Request(GET, url, params, NoBody, sent.entries, timeout, false), transport);
    }

    static method Post(transport: Transport, url: string, data: Json.Value,
                       headers: Headers? := null, timeout: int := DEFAULT_TIMEOUT)
      returns (r: Result<Upstream, ClientError>)
      modifies headers
      ensures headers != null ==> headers.entries == WithDefaultContentType(old(headers.entries), APPLICATION_FORM)
      ensures r == transport(Request(POST, url, None, FormBody(data),
                                     SentHeaders(old(Given(headers)), APPLICATION_FORM), timeout, false))
    {
      var sent := DefaultContentType(headers, APPLICATION_FORM);
      r := SessionCall(SYNC_XFORM_POST_KEYWORDS, Request(POST, url, None, FormBody(data), sent.entries, timeout, false), transport);
    }
  }

  /** Repeating a `get`: the first call leaves the caller's headers as the
      second call would make them, so the two calls send the same request and,
      against the same upstream, return the same result. */
  method RepeatedGet(transport: Transport, url: string, params: Option<Json.Value>, given: HeaderMap)
    returns (first: Result<Json.Value, ClientError>, second: Result<Json.Value, ClientError>)
    ensures first == second
    ensures first == GetOutcome(transport(Request(GET, url, params, NoBody,
                                                  WithDefaultContentType(given, APPLICATION_JSON), DEFAULT_TIMEOUT, false)))
  {
    var h := new Headers(given);
    first := JsonHttpClient.Get(transport, url, params, h);
    DefaultingIsIdempotent(given, APPLICATION_JSON, APPLICATION_JSON);
    second := JsonHttpClient.Get(transport, url, params, h);
  }
}
