/**
 * The server-side HTTP client (backend/src/services/api_client.py): it joins
 * the base URL and an endpoint, sends JSON with the bearer token it holds,
 * and turns the answer into a value or an `HTTPException`.
 *
 * What the server at the other end answers (or how the transport fails) is
 * a parameter of each call, as is whether the HTTP library classes a timeout
 * as a request error (the first `except` clause then takes it).
 */
module ServerApiClient {
  import opened Wrappers
  import opened Strings
  import opened ServerHttp

  const BaseUrlVar := "API_BASE_URL"
  const DefaultBaseUrl := "http://localhost:8000"
  const TimeoutSeconds := 30
  const JsonMediaType := "application/json"
  const ContentTypeHeader := "Content-Type"
  const AcceptHeader := "Accept"
  const AuthorizationHeader := "Authorization"
  const UnauthorizedDetail := "Unauthorized: Please log in again"
  const ForbiddenDetail := "Access forbidden: Insufficient permissions"
  const NetworkErrorPrefix := "Network error occurred while making request: "
  const TimedOutDetail := "Request timed out"

  /** A flat JSON object: header sets, query parameters, request bodies. */
  type Fields = map<string, string>

  /** A response body: a JSON object, some other JSON value, or text that is not JSON. */
  datatype Body = JsonObject(fields: Fields) | OtherJson | NotJson

  datatype Response = Response(status: int, body: Body)

  /** What sending produced: a response, or a transport failure with its message. */
  datatype Transport = Responded(response: Response) | RequestFailed(message: string) | TimedOut(message: string)

  /** The request handed to the HTTP library. */
  datatype Request = Request(verb: string, url: string, headers: Fields, json: Option<Fields>, params: Option<Fields>)

  /** Python truthiness of the stored token: set and non-empty. */
  predicate HasToken(token: Option<string>) {
    token.Some? && token.value != ""
  }

  /** The caller's headers set `name`. */
  predicate Overrides(extra: Option<Fields>, name: string) {
    extra.Some? && name in extra.value
  }

  /**
   * `f"{base_url}/{endpoint.lstrip('/')}"`: the endpoint loses all its
   * leading slashes, and exactly one joins it to the base URL.
   */
  function Url(baseUrl: string, endpoint: string): (url: string)
    ensures exists k ::
      (0 <= k <= |endpoint| && url == baseUrl + "/" + endpoint[k..] &&
       (forall i :: 0 <= i < k ==> endpoint[i] == '/') && (k < |endpoint| ==> endpoint[k] != '/'))
  {
    var rest := StripStart(endpoint, {'/'});
    StripStartRemoves(endpoint, {'/'});
    assert endpoint[|endpoint| - |rest|..] == rest;
    baseUrl + "/" + rest
  }

  function Slashes(k: nat): (s: string)
    ensures |s| == k && forall i :: 0 <= i < k ==> s[i] == '/'
  {
    if k == 0 then "" else "/" + Slashes(k - 1)
  }

  lemma {:induction false} StripSlashes(k: nat, endpoint: string)
    ensures StripStart(Slashes(k) + endpoint, {'/'}) == StripStart(endpoint, {'/'})
  {
    if k > 0 {
      StripSlashes(k - 1, endpoint);
      StripSlashesStep(k, endpoint);
    } else {
      NoSlashes(endpoint);
    }
  }

  lemma NoSlashes(endpoint: string)
    ensures Slashes(0) + endpoint == endpoint
  {
    assert Slashes(0) == "";
  }

  /** One more leading slash strips to the same text. */
  lemma StripSlashesStep(k: nat, endpoint: string)
    requires k > 0
    ensures StripStart(Slashes(k) + endpoint, {'/'}) == StripStart(Slashes(k - 1) + endpoint, {'/'})
  {
    SlashesUncons(k, endpoint);
    StripOneSlash(Slashes(k - 1) + endpoint);
  }

  lemma SlashesUncons(k: nat, endpoint: string)
    requires k > 0
    ensures Slashes(k) + endpoint == "/" + (Slashes(k - 1) + endpoint)
  {
  }

  lemma StripOneSlash(t: string)
    ensures StripStart("/" + t, {'/'}) == StripStart(t, {'/'})
  {
    assert ("/" + t)[1..] == t;
  }

  /** "tasks", "/tasks" and "//tasks" name the same URL. */
  lemma LeadingSlashesIgnored(baseUrl: string, k: nat, endpoint: string)
    ensures Url(baseUrl, Slashes(k) + endpoint) == Url(baseUrl, endpoint)
  {
    StripSlashes(k, endpoint);
  }

  /**
   * The headers sent: JSON content type and accept, a bearer credential
   * when a token is held, then the caller's headers, which win over all
   * three.
   */
  function RequestHeaders(token: Option<string>, extra: Option<Fields>): (h: Fields)
    ensures forall name :: name in h <==>
      name == ContentTypeHeader || name == AcceptHeader || (name == AuthorizationHeader && HasToken(token)) || Overrides(extra, name)
    ensures forall name :: Overrides(extra, name) ==> name in h && h[name] == extra.value[name]
    ensures !Overrides(extra, ContentTypeHeader) ==> h[ContentTypeHeader] == JsonMediaType
    ensures !Overrides(extra, AcceptHeader) ==> h[AcceptHeader] == JsonMediaType
    ensures HasToken(token) && !Overrides(extra, AuthorizationHeader) ==> h[AuthorizationHeader] == "Bearer " + token.value
  {
    assert |ContentTypeHeader| == 12 && |AcceptHeader| == 6 && |AuthorizationHeader| == 13;
    var defaults := map[ContentTypeHeader := JsonMediaType, AcceptHeader := JsonMediaType];
    var withAuth := if HasToken(token) then defaults[AuthorizationHeader := "Bearer " + token.value] else defaults;
    if extra.Some? && |extra.value| > 0 then withAuth + extra.value else withAuth
  }

  /** `f"HTTP {response.status_code} error"`. */
  function StatusDetail(status: int): string {
    "HTTP " + IntToString(status) + " error"
  }

  /**
   * The answer to one request: a status of 400 or more raises (401 and 403
   * with fixed details, any other with the body's `detail` or "HTTP <code>
   * error"); a lower status returns the parsed body, and a body that is not
   * JSON escapes as a decoding error. A transport failure is a 503 naming
   * it. The `RequestError` handler comes first, and httpx's
   * `TimeoutException` is a `RequestError`, so with httpx
   * (`timeoutIsRequestError`) a timeout is a 503 too and the 504 handler is
   * never reached; the 504 is the answer only for a library that keeps the
   * two apart.
   */
  function MapResponse(outcome: Transport, timeoutIsRequestError: bool): (r: Outcome<Body>)
    ensures r.Ok? <==> outcome.Responded? && outcome.response.status < 400 && outcome.response.body != NotJson
    ensures r.Ok? ==> r.value == outcome.response.body
    ensures r.Crash? <==> outcome.Responded? && outcome.response.status < 400 && outcome.response.body == NotJson
    ensures r.Raise? ==> !r.error.bearerChallenge
    ensures outcome.Responded? && outcome.response.status >= 400 ==>
      r.Raise? && r.error.status == outcome.response.status
    ensures outcome.Responded? && outcome.response.status == Unauthorized ==> r == Fail(Unauthorized, UnauthorizedDetail)
    ensures outcome.Responded? && outcome.response.status == Forbidden ==> r == Fail(Forbidden, ForbiddenDetail)
    ensures (outcome.Responded? && outcome.response.status >= 400 &&
             outcome.response.status != Unauthorized && outcome.response.status != Forbidden) ==>
      var b := outcome.response.body;
      r.error.detail == (if b.JsonObject? && "detail" in b.fields then b.fields["detail"] else StatusDetail(outcome.response.status))
    ensures outcome.RequestFailed? ==> r == Fail(ServiceUnavailable, NetworkErrorPrefix + outcome.message)
    ensures outcome.TimedOut? ==>
      r == if timeoutIsRequestError then Fail(ServiceUnavailable, NetworkErrorPrefix + outcome.message)
           else Fail(GatewayTimeout, TimedOutDetail)
  {
    match outcome
    case Responded(Response(status, body)) =>
      if status >= 400 then
        if status == Unauthorized then Fail(Unauthorized, UnauthorizedDetail)
        else if status == Forbidden then Fail(Forbidden, ForbiddenDetail)
        else if body.JsonObject? && "detail" in body.fields then Fail(status, body.fields["detail"])
        else Fail(status, StatusDetail(status))
      else if body.NotJson? then Crash("JSONDecodeError")
      else Ok(body)
    case RequestFailed(message) => Fail(ServiceUnavailable, NetworkErrorPrefix + message)
    case TimedOut(message) =>
      if timeoutIsRequestError then Fail(ServiceUnavailable, NetworkErrorPrefix + message)
      else Fail(GatewayTimeout, TimedOutDetail)
  }

  /**
   * An error this server raises, other than 401 and 403, reaches a caller of
   * the client with the same status and detail.
   */
  lemma ForwardsServerError(e: HttpError, timeoutIsRequestError: bool)
    requires e.status >= 400 && e.status != Unauthorized && e.status != Forbidden
    ensures MapResponse(Responded(Response(e.status, JsonObject(map["detail" := e.detail]))), timeoutIsRequestError)
      == Fail(e.status, e.detail)
  {
  }

  class ApiClient {
    var baseUrl: string
    var token: Option<string>

    /** `base_url or os.getenv("API_BASE_URL", ...)`: an empty argument counts as absent; no token yet. */
    constructor (baseUrl: Option<string>, env: map<string, string>)
      ensures baseUrl.Some? && baseUrl.value != "" ==> this.baseUrl == baseUrl.value
      ensures !(baseUrl.Some? && baseUrl.value != "") ==>
        this.baseUrl == if BaseUrlVar in env then env[BaseUrlVar] else DefaultBaseUrl
      ensures token == None
    {
      if baseUrl.Some? && baseUrl.value != "" {
        this.baseUrl := baseUrl.value;
      } else if BaseUrlVar in env {
        this.baseUrl := env[BaseUrlVar];
      } else {
        this.baseUrl := DefaultBaseUrl;
      }
      token := None;
    }

    /**
     * `_make_request`: the request leaves for `Url(base_url, endpoint)` with
     * `RequestHeaders`, and its outcome is mapped by `MapResponse`.
     */
    method MakeRequest(verb: string, endpoint: string, data: Option<Fields>, params: Option<Fields>,
                       headers: Option<Fields>, outcome: Transport, timeoutIsRequestError: bool)
      returns (sent: Request, r: Outcome<Body>)
      ensures sent == Request(verb, Url(baseUrl, endpoint), RequestHeaders(token, headers), data, params)
      ensures r == MapResponse(outcome, timeoutIsRequestError)
    {
      var url := baseUrl + "/" + StripStart(endpoint, {'/'});
      var requestHeaders := map[ContentTypeHeader := JsonMediaType, AcceptHeader := JsonMediaType];
      if HasToken(token) {
        requestHeaders := requestHeaders[AuthorizationHeader := "Bearer " + token.value];
      }
      if headers.Some? && |headers.value| > 0 {
        requestHeaders := requestHeaders + headers.value;
      }
      sent := Request(verb, url, requestHeaders, data, params);
      r := MapResponse(outcome, timeoutIsRequestError);
    }

    /** `set_token`: later requests carry this token. */
    method SetToken(t: string)
      modifies this
      ensures token == Some(t) && baseUrl == old(baseUrl)
      ensures t != "" ==> forall extra :: !Overrides(extra, AuthorizationHeader) ==>
        RequestHeaders(token, extra)[AuthorizationHeader] == "Bearer " + t
    {
      token := Some(t);
    }

    /** `clear_token`: later requests carry no `Authorization` unless the caller adds one. */
    method ClearToken()
      modifies this
      ensures token == None && baseUrl == old(baseUrl)
      ensures forall extra :: !Overrides(extra, AuthorizationHeader) ==> AuthorizationHeader !in RequestHeaders(token, extra)
    {
      token := None;
    }

    /** `get`: query parameters, no body. */
    method Get(endpoint: string, params: Option<Fields>, headers: Option<Fields>, outcome: Transport, timeoutIsRequestError: bool)
      returns (sent: Request, r: Outcome<Body>)
      ensures sent.verb == "GET" && sent.json == None && sent.params == params
      ensures sent.url == Url(baseUrl, endpoint) && sent.headers == RequestHeaders(token, headers)
      ensures r == MapResponse(outcome, timeoutIsRequestError)
    {
      sent, r := MakeRequest("GET", endpoint, None, params, headers, outcome, timeoutIsRequestError);
    }

    /** `post`: a JSON body, no query parameters. */
    method Post(endpoint: string, data: Option<Fields>, headers: Option<Fields>, outcome: Transport, timeoutIsRequestError: bool)
      returns (sent: Request, r: Outcome<Body>)
      ensures sent.verb == "POST" && sent.json == data && sent.params == None
      ensures sent.url == Url(baseUrl, endpoint) && sent.headers == RequestHeaders(token, headers)
      ensures r == MapResponse(outcome, timeoutIsRequestError)
    {
      sent, r := MakeRequest("POST", endpoint, data, None, headers, outcome, timeoutIsRequestError);
    }

    /** `put`: a JSON body, no query parameters. */
    method Put(endpoint: string, data: Option<Fields>, headers: Option<Fields>, outcome: Transport, timeoutIsRequestError: bool)
      returns (sent: Request, r: Outcome<Body>)
      ensures sent.verb == "PUT" && sent.json == data && sent.params == None
      ensures sent.url == Url(baseUrl, endpoint) && sent.headers == RequestHeaders(token, headers)
      ensures r == MapResponse(outcome, timeoutIsRequestError)
    {
      sent, r := MakeRequest("PUT", endpoint, data, None, headers, outcome, timeoutIsRequestError);
    }

    /** `patch`: a JSON body, no query parameters. */
    method Patch(endpoint: string, data: Option<Fields>, headers: Option<Fields>, outcome: Transport, timeoutIsRequestError: bool)
      returns (sent: Request, r: Outcome<Body>)
      ensures sent.verb == "PATCH" && sent.json == data && sent.params == None
      ensures sent.url == Url(baseUrl, endpoint) && sent.headers == RequestHeaders(token, headers)
      ensures r == MapResponse(outcome, timeoutIsRequestError)
    {
      sent, r := MakeRequest("PATCH", endpoint, data, None, headers, outcome, timeoutIsRequestError);
    }

    /** `delete`: neither body nor query parameters. */
    method Delete(endpoint: string, headers: Option<Fields>, outcome: Transport, timeoutIsRequestError: bool)
      returns (sent: Request, r: Outcome<Body>)
      ensures sent.verb == "DELETE" && sent.json == None && sent.params == None
      ensures sent.url == Url(baseUrl, endpoint) && sent.headers == RequestHeaders(token, headers)
      ensures r == MapResponse(outcome, timeoutIsRequestError)
    {
      sent, r := MakeRequest("DELETE", endpoint, None, None, headers, outcome, timeoutIsRequestError);
    }
  }
}
