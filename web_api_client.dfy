/**
 * The browser's authenticated HTTP client (frontend/src/services/api_client.ts):
 * token storage, the request interceptor that attaches the bearer token, the
 * response interceptor that answers a 401 with refresh-then-retry through a
 * single in-flight refresh slot, and the token handling of register, login
 * and logout.
 *
 * Asynchrony is modelled as a sequence of events. `OnResponseError` is the
 * response interceptor receiving an error; when it starts or joins a
 * refresh, the failed request is parked in the slot. `SettleRefresh` is the
 * refresh POST settling: every parked request observes the same result, in
 * the order it was parked.
 */
module WebApiClient {
  import opened Wrappers
  import opened Strings
  import opened Js
  import opened WebStorage

  const DefaultBaseUrl := "http://localhost:8000"
  const DefaultAccessKey := "access_token"
  const DefaultRefreshKey := "refresh_token"
  const TimeoutMs := 10000
  const SignInPage := "/auth/signin"
  const Unauthorized := 401

  /** A JSON body field. */
  datatype Json = JText(text: string) | JBool(flag: bool) | JNull

  /** An axios request configuration: verb, URL (relative to the base URL unless absolute), headers and body. */
  datatype Request = Request(verb: string, url: string, headers: map<string, string>, body: map<string, Json>)

  /** A request as built by `this.client`, which sends `Content-Type: application/json` by default. */
  function NewRequest(verb: string, url: string, body: map<string, Json>): Request {
    Request(verb, url, map["Content-Type" := "application/json"], body)
  }

  /** The credential of section 2.1 of RFC 6750: `Bearer <token>`. */
  function BearerHeader(token: string): string {
    "Bearer " + token
  }

  /** The token a `Bearer` credential carries. */
  function BearerToken(header: string): Option<string> {
    if StartsWith(header, "Bearer ") then Some(header[7..]) else None
  }

  /** The request interceptor: with a truthy stored token, set `Authorization: Bearer <token>`. */
  function Authorize(req: Request, token: Option<string>): Request {
    if Truthy(token) then req.(headers := req.headers["Authorization" := BearerHeader(token.value)])
    else req
  }

  /**
   * A request leaves with `Authorization: Bearer t` when the stored token `t`
   * is truthy, and otherwise with the headers it already had: nothing is added.
   */
  lemma AuthorizeAttachesBearer(req: Request, token: Option<string>)
    ensures var r := Authorize(req, token);
      r.verb == req.verb && r.url == req.url && r.body == req.body &&
      (Truthy(token) ==>
        "Authorization" in r.headers && BearerToken(r.headers["Authorization"]) == token &&
        r.headers - {"Authorization"} == req.headers - {"Authorization"}) &&
      (!Truthy(token) ==> r.headers == req.headers)
  {
    if Truthy(token) {
      var h := BearerHeader(token.value);
      assert h[7..] == token.value;
    }
  }

  /** The POST that `refreshAccessToken` sends with the bare axios instance: no interceptors, no token. */
  function RefreshRequest(baseUrl: string, refreshToken: string): Request {
    Request("POST", baseUrl + "/auth/refresh", map["Content-Type" := "application/json"],
            map["refresh_token" := JText(refreshToken)])
  }

  /**
   * A parked request being retried: `error.config.headers['Authorization']` is
   * overwritten with the new token, and `this.client.request` then runs the
   * request interceptor again with whatever token storage now holds.
   */
  function Retry(config: Request, newToken: string, stored: Option<string>): Request {
    Authorize(config.(headers := config.headers["Authorization" := BearerHeader(newToken)]), stored)
  }

  function RetryAll(configs: seq<Request>, newToken: string, stored: Option<string>): (r: seq<Request>)
    ensures |r| == |configs|
    ensures forall i :: 0 <= i < |r| ==> r[i] == Retry(configs[i], newToken, stored)
  {
    if configs == [] then [] else [Retry(configs[0], newToken, stored)] + RetryAll(configs[1..], newToken, stored)
  }

  /**
   * When storage holds the new token (the refresh has just saved it), the
   * retried request carries exactly `Authorization: Bearer <new token>` and is
   * otherwise the original request.
   */
  lemma RetryCarriesNewToken(config: Request, newToken: string)
    requires newToken != ""
    ensures var r := Retry(config, newToken, Some(newToken));
      r.verb == config.verb && r.url == config.url && r.body == config.body &&
      r.headers == config.headers["Authorization" := BearerHeader(newToken)] &&
      BearerToken(r.headers["Authorization"]) == Some(newToken)
  {
    AuthorizeAttachesBearer(config.(headers := config.headers["Authorization" := BearerHeader(newToken)]), Some(newToken));
  }

  /** The pending `refreshTokenPromise`: the refresh token it was started with and the requests awaiting it. */
  datatype Flight = Flight(refreshToken: string, waiters: seq<Request>)

  /** How the refresh POST settles: an error, or a response whose `access_token` may be missing. */
  datatype RefreshResult = RefreshFailed | RefreshSucceeded(accessToken: Option<string>)

  /** What became of a parked request. */
  datatype Resolution = Retried(request: Request) | Rejected

  /** The outcome of a transport call the model does not look inside. */
  /** An axios error (with the response status and `detail`, when a response arrived) or any other error. */
  datatype CallFailure =
    | AxiosFailure(status: Option<int>, detail: Option<string>, message: string)
    | OtherFailure(message: string)
  datatype CallResult<T> = Responded(data: T) | Failed(failure: CallFailure)

  /** A settled promise of the client's public methods. */
  datatype Settled<T> = Resolved(value: T) | Thrown(message: string)

  /** The signed-in user's profile as the server returns it. */
  datatype Profile = Profile(id: string, email: string)

  /**
   * The fields of an authentication answer the client code reads:
   * `access_token`, `token`, `refresh_token` and `user`, each possibly missing.
   */
  datatype AuthResponse = AuthResponse(accessToken: Option<string>, token: Option<string>,
                                       refreshToken: Option<string>, user: Option<Profile>)

  /** The message the client's methods rethrow: `error.response?.data?.detail || error.message` for axios errors. */
  function FailureMessage(f: CallFailure): string {
    match f
    case AxiosFailure(_, detail, message) => Or(detail, message)
    case OtherFailure(message) => message
  }

  class ApiClient {
    const storage: LocalStorage
    /** `process.env` as the client sees it. */
    const env: map<string, string>
    const baseUrl: string
    /** `refreshTokenPromise`: `None` is `null`. */
    var inFlight: Option<Flight>
    /** Every request handed to the transport, in order. */
    var sent: seq<Request>
    /** Every assignment to `window.location.href`, in order. */
    var redirects: seq<string>

    /** `new ApiClient(baseURL?)`: the default argument applies only when none is given. */
    constructor (storage: LocalStorage, env: map<string, string>, baseUrlArg: Option<string>)
      ensures this.storage == storage && this.env == env
      ensures baseUrl == (if baseUrlArg.Some? then baseUrlArg.value else Or(EnvGet(env, ApiBaseUrlVar), DefaultBaseUrl))
      ensures inFlight == None && sent == [] && redirects == []
    {
      this.storage := storage;
      this.env := env;
      baseUrl := if baseUrlArg.Some? then baseUrlArg.value else Or(EnvGet(env, ApiBaseUrlVar), DefaultBaseUrl);
      inFlight := None;
      sent := [];
      redirects := [];
    }

    function AccessKey(): string {
      KeyName(env, AccessKeyVar, DefaultAccessKey)
    }

    function RefreshKey(): string {
      KeyName(env, RefreshKeyVar, DefaultRefreshKey)
    }

    function GetToken(): Option<string>
      reads storage
    {
      storage.GetItem(AccessKey())
    }

    function GetRefreshToken(): Option<string>
      reads storage
    {
      storage.GetItem(RefreshKey())
    }

    /** Writes the access key, then the refresh key; reading them back gives the saved values. */
    method SaveTokens(accessToken: string, refreshToken: string)
      modifies storage
      ensures storage.items == old(storage.items)[AccessKey() := accessToken][RefreshKey() := refreshToken]
      ensures GetRefreshToken() == Some(refreshToken)
      ensures AccessKey() != RefreshKey() ==> GetToken() == Some(accessToken)
    {
      storage.SetItem(AccessKey(), accessToken);
      storage.SetItem(RefreshKey(), refreshToken);
    }

    /** Removes both keys; afterwards neither token reads back, and a second call changes nothing. */
    method ClearTokens()
      modifies storage
      ensures storage.items == old(storage.items) - {AccessKey(), RefreshKey()}
      ensures GetToken() == None && GetRefreshToken() == None
    {
      storage.RemoveItem(AccessKey());
      storage.RemoveItem(RefreshKey());
    }

    /** `clearToken()`, the public alias. */
    method ClearToken()
      modifies storage
      ensures storage.items == old(storage.items) - {AccessKey(), RefreshKey()}
    {
      ClearTokens();
    }

    /** A request passing through `this.client`: the request interceptor runs, then the transport receives it. */
    method Send(req: Request) returns (r: Request)
      modifies this
      ensures r == Authorize(req, GetToken())
      ensures sent == old(sent) + [r]
      ensures inFlight == old(inFlight) && redirects == old(redirects)
    {
      r := Authorize(req, GetToken());
      sent := sent + [r];
    }

    /**
     * The response interceptor receiving an error for the request `config`
     * with HTTP status `status` (`None`: no response at all). Returns whether
     * the request was parked to await a refresh; otherwise it is rejected.
     */
    method OnResponseError(status: Option<int>, config: Request) returns (parked: bool)
      modifies this
      ensures status != Some(Unauthorized) ==>
        !parked && sent == old(sent) && inFlight == old(inFlight) && redirects == old(redirects)
      ensures status == Some(Unauthorized) && !Truthy(GetRefreshToken()) ==>
        !parked && sent == old(sent) && inFlight == old(inFlight) && redirects == old(redirects) + [SignInPage]
      ensures status == Some(Unauthorized) && Truthy(GetRefreshToken()) && old(inFlight).Some? ==>
        parked && sent == old(sent) && redirects == old(redirects) &&
        inFlight == Some(old(inFlight).value.(waiters := old(inFlight).value.waiters + [config]))
      ensures status == Some(Unauthorized) && Truthy(GetRefreshToken()) && old(inFlight).None? ==>
        parked && redirects == old(redirects) &&
        inFlight == Some(Flight(GetRefreshToken().value, [config])) &&
        sent == old(sent) + [RefreshRequest(baseUrl, GetRefreshToken().value)]
    {
      parked := false;
      if status == Some(Unauthorized) {
        var refreshToken := GetRefreshToken();
        if Truthy(refreshToken) {
          RefreshAccessToken(refreshToken.value, config);
          parked := true;
        } else {
          redirects := redirects + [SignInPage];
        }
      }
    }

    /**
     * `refreshAccessToken`: join the pending refresh if there is one (no
     * second POST), otherwise start one.
     */
    method RefreshAccessToken(refreshToken: string, config: Request)
      modifies this
      ensures redirects == old(redirects)
      ensures old(inFlight).Some? ==>
        sent == old(sent) && inFlight == Some(old(inFlight).value.(waiters := old(inFlight).value.waiters + [config]))
      ensures old(inFlight).None? ==>
        sent == old(sent) + [RefreshRequest(baseUrl, refreshToken)] && inFlight == Some(Flight(refreshToken, [config]))
    {
      if inFlight.Some? {
        inFlight := Some(inFlight.value.(waiters := inFlight.value.waiters + [config]));
      } else {
        sent := sent + [RefreshRequest(baseUrl, refreshToken)];
        inFlight := Some(Flight(refreshToken, [config]));
      }
    }

    /**
     * The refresh POST settles. On success the new access token is saved with
     * the SAME refresh token (no rotation). The slot is emptied either way.
     * Every parked request then sees the same result: a truthy new token
     * re-sends it through the client, anything else rejects it, and the
     * tokens are never cleared here.
     */
    method SettleRefresh(result: RefreshResult) returns (resolutions: seq<Resolution>)
      requires inFlight.Some?
      modifies this, storage
      ensures inFlight.None? && redirects == old(redirects)
      ensures result.RefreshFailed? ==> storage.items == old(storage.items)
      ensures result.RefreshSucceeded? ==>
        storage.items == old(storage.items)[AccessKey() := Stringify(result.accessToken)]
                                           [RefreshKey() := old(inFlight).value.refreshToken]
      ensures |resolutions| == |old(inFlight).value.waiters|
      ensures Truthy(NewToken(result)) ==>
        sent == old(sent) + RetryAll(old(inFlight).value.waiters, NewToken(result).value, GetToken()) &&
        forall i :: 0 <= i < |resolutions| ==>
          resolutions[i] == Retried(Retry(old(inFlight).value.waiters[i], NewToken(result).value, GetToken()))
      ensures !Truthy(NewToken(result)) ==>
        sent == old(sent) && forall i :: 0 <= i < |resolutions| ==> resolutions[i] == Rejected
    {
      var flight := inFlight.value;
      var newToken := NewToken(result);
      if result.RefreshSucceeded? {
        SaveTokens(Stringify(result.accessToken), flight.refreshToken);
      }
      inFlight := None;
      resolutions := ResolveWaiters(flight.waiters, newToken);
    }

    /** Every parked request, in the order it was parked, re-sent with `newToken` when that is truthy, else rejected. */
    method ResolveWaiters(waiters: seq<Request>, newToken: Option<string>) returns (resolutions: seq<Resolution>)
      modifies this
      ensures inFlight == old(inFlight) && redirects == old(redirects)
      ensures |resolutions| == |waiters|
      ensures Truthy(newToken) ==>
        sent == old(sent) + RetryAll(waiters, newToken.value, GetToken()) &&
        forall i :: 0 <= i < |resolutions| ==> resolutions[i] == Retried(Retry(waiters[i], newToken.value, GetToken()))
      ensures !Truthy(newToken) ==>
        sent == old(sent) && forall i :: 0 <= i < |resolutions| ==> resolutions[i] == Rejected
    {
      resolutions := [];
      var i := 0;
      while i < |waiters|
        invariant 0 <= i <= |waiters| && |resolutions| == i
        invariant inFlight == old(inFlight) && redirects == old(redirects)
        invariant Truthy(newToken) ==>
          sent == old(sent) + RetryAll(waiters[..i], newToken.value, GetToken()) &&
          forall k :: 0 <= k < i ==> resolutions[k] == Retried(Retry(waiters[k], newToken.value, GetToken()))
        invariant !Truthy(newToken) ==>
          sent == old(sent) && forall k :: 0 <= k < i ==> resolutions[k] == Rejected
      {
        var config := waiters[i];
        if Truthy(newToken) {
          var r := Send(config.(headers := config.headers["Authorization" := BearerHeader(newToken.value)]));
          resolutions := resolutions + [Retried(r)];
          assert waiters[..i + 1] == waiters[..i] + [config];
          RetryAllAppend(waiters[..i], config, newToken.value, GetToken());
        } else {
          resolutions := resolutions + [Rejected];
        }
        i := i + 1;
      }
      assert waiters[..i] == waiters;
    }

    /**
     * A request through `this.client` that fails with `response` meets the
     * response interceptor: a 401 parks it to await a refresh when a refresh
     * token is stored, and sends the browser to sign-in when none is.
     */
    predicate Parks<T>(response: CallResult<T>, refreshToken: Option<string>) {
      response.Failed? && FailureStatus(response.failure) == Some(Unauthorized) && Truthy(refreshToken)
    }

    /**
     * What a POST `out` (the request as the request interceptor left it)
     * through `this.client` did to the client, starting from `sent0`,
     * `inFlight0` and `redirects0` with `refresh0` stored: it was sent, and
     * a failure met `OnResponseError`.
     */
    ghost predicate Posted<T>(out: Request, response: CallResult<T>, refresh0: Option<string>,
                              sent0: seq<Request>, inFlight0: Option<Flight>, redirects0: seq<string>)
      reads this
    {
      var unauthorized := response.Failed? && FailureStatus(response.failure) == Some(Unauthorized);
      redirects == redirects0 + (if unauthorized && !Truthy(refresh0) then [SignInPage] else []) &&
      (!Parks(response, refresh0) ==> inFlight == inFlight0 && sent == sent0 + [out]) &&
      (Parks(response, refresh0) && inFlight0.Some? ==>
        sent == sent0 + [out] && inFlight == Some(inFlight0.value.(waiters := inFlight0.value.waiters + [out]))) &&
      (Parks(response, refresh0) && inFlight0.None? ==>
        sent == sent0 + [out, RefreshRequest(baseUrl, refresh0.value)] && inFlight == Some(Flight(refresh0.value, [out])))
    }

    /** `this.client.post(url, body)` answered by `response`; `parked` when the interceptor holds the call for a refresh. */
    method Post<T>(url: string, body: map<string, Json>, response: CallResult<T>) returns (parked: bool)
      modifies this
      ensures parked == Parks(response, GetRefreshToken())
      ensures Posted(Authorize(NewRequest("POST", url, body), GetToken()), response, GetRefreshToken(),
                     old(sent), old(inFlight), old(redirects))
    {
      var out := Send(NewRequest("POST", url, body));
      parked := false;
      if response.Failed? {
        parked := OnResponseError(FailureStatus(response.failure), out);
      }
    }

    /**
     * `register`: the POST to `/auth/signup` goes through the client. A call
     * parked for a refresh stays pending (`None`). Otherwise tokens are saved
     * only when both `token` and `refresh_token` are truthy, and a failure is
     * rethrown as its message.
     */
    method Register(userData: map<string, Json>, response: CallResult<AuthResponse>)
      returns (r: Option<Settled<AuthResponse>>)
      modifies this, storage
      ensures Posted(Authorize(NewRequest("POST", SignUpPath, userData), old(GetToken())), response,
                     old(GetRefreshToken()), old(sent), old(inFlight), old(redirects))
      ensures r.None? <==> Parks(response, old(GetRefreshToken()))
      ensures r.None? ==> storage.items == old(storage.items)
      ensures r.Some? ==> Stored(response, r.value, old(storage.items))
    {
      var parked := Post(SignUpPath, userData, response);
      if parked {
        return None;
      }
      var settled := StoreAuthResponse(response);
      r := Some(settled);
    }

    /** `login`: the same, posting the credentials to `/auth/signin`. */
    method Login(credentials: map<string, Json>, response: CallResult<AuthResponse>)
      returns (r: Option<Settled<AuthResponse>>)
      modifies this, storage
      ensures Posted(Authorize(NewRequest("POST", SignInPath, credentials), old(GetToken())), response,
                     old(GetRefreshToken()), old(sent), old(inFlight), old(redirects))
      ensures r.None? <==> Parks(response, old(GetRefreshToken()))
      ensures r.None? ==> storage.items == old(storage.items)
      ensures r.Some? ==> Stored(response, r.value, old(storage.items))
    {
      var parked := Post(SignInPath, credentials, response);
      if parked {
        return None;
      }
      var settled := StoreAuthResponse(response);
      r := Some(settled);
    }

    /**
     * The settled call: the answer as it came, with both tokens saved only
     * when both are truthy, or the failure's message with storage untouched.
     */
    ghost predicate Stored(response: CallResult<AuthResponse>, r: Settled<AuthResponse>, items0: map<string, string>)
      reads storage
    {
      (response.Failed? ==> r == Thrown(FailureMessage(response.failure)) && storage.items == items0) &&
      (response.Responded? ==> r == Resolved(response.data)) &&
      (response.Responded? && Truthy(response.data.token) && Truthy(response.data.refreshToken) ==>
        storage.items == items0[AccessKey() := response.data.token.value][RefreshKey() := response.data.refreshToken.value]) &&
      (response.Responded? && !(Truthy(response.data.token) && Truthy(response.data.refreshToken)) ==>
        storage.items == items0)
    }

    method StoreAuthResponse(response: CallResult<AuthResponse>) returns (r: Settled<AuthResponse>)
      modifies storage
      ensures response.Failed? ==> r == Thrown(FailureMessage(response.failure)) && storage.items == old(storage.items)
      ensures response.Responded? ==> r == Resolved(response.data)
      ensures response.Responded? && Truthy(response.data.token) && Truthy(response.data.refreshToken) ==>
        storage.items == old(storage.items)[AccessKey() := response.data.token.value]
                                           [RefreshKey() := response.data.refreshToken.value]
      ensures response.Responded? && !(Truthy(response.data.token) && Truthy(response.data.refreshToken)) ==>
        storage.items == old(storage.items)
    {
      match response
      case Failed(failure) =>
        r := Thrown(FailureMessage(failure));
      case Responded(data) =>
        if Truthy(data.token) && Truthy(data.refreshToken) {
          SaveTokens(data.token.value, data.refreshToken.value);
        }
        r := Resolved(data);
    }

    /**
     * `logout`: the POST to `/auth/signout` goes through the client, and the
     * `finally` clears the tokens whether or not it succeeded. A call parked
     * for a refresh has not reached the `finally` yet (`done` is false).
     */
    method Logout(signout: CallResult<()>) returns (done: bool)
      modifies this, storage
      ensures Posted(Authorize(NewRequest("POST", SignOutPath, map[]), old(GetToken())), signout,
                     old(GetRefreshToken()), old(sent), old(inFlight), old(redirects))
      ensures done <==> !Parks(signout, old(GetRefreshToken()))
      ensures done ==> storage.items == old(storage.items) - {AccessKey(), RefreshKey()}
      ensures !done ==> storage.items == old(storage.items)
    {
      var parked := Post(SignOutPath, map[], signout);
      done := !parked;
      if done {
        ClearTokens();
      }
    }
  }

  const SignUpPath := "/auth/signup"
  const SignInPath := "/auth/signin"
  const SignOutPath := "/auth/signout"

  /** The HTTP status of a failure, when a response arrived. */
  function FailureStatus(f: CallFailure): Option<int> {
    match f
    case AxiosFailure(status, _, _) => status
    case OtherFailure(_) => None
  }

  /** The token `refreshAccessToken` resolves with: `null` on failure, else `response.data.access_token`. */
  function NewToken(result: RefreshResult): Option<string> {
    match result
    case RefreshFailed => None
    case RefreshSucceeded(token) => token
  }

  lemma RetryAllAppend(configs: seq<Request>, c: Request, newToken: string, stored: Option<string>)
    ensures RetryAll(configs + [c], newToken, stored) == RetryAll(configs, newToken, stored) + [Retry(c, newToken, stored)]
  {
  }

  /** The task calls of the client (`getTasks` … `completeTask`); completion sends the flag in the body. */
  datatype TaskCall =
    | GetTasks | GetTaskById(id: string) | CreateTask(fields: map<string, Json>)
    | UpdateTask(id: string, fields: map<string, Json>) | DeleteTask(id: string)
    | CompleteTask(id: string, completed: bool)

  function TaskCallRequest(call: TaskCall): Request {
    match call
    case GetTasks => NewRequest("GET", "/tasks", map[])
    case GetTaskById(id) => NewRequest("GET", "/tasks/" + id, map[])
    case CreateTask(fields) => NewRequest("POST", "/tasks", fields)
    case UpdateTask(id, fields) => NewRequest("PUT", "/tasks/" + id, fields)
    case DeleteTask(id) => NewRequest("DELETE", "/tasks/" + id, map[])
    case CompleteTask(id, completed) => NewRequest("PATCH", "/tasks/" + id + "/complete", map["completed" := JBool(completed)])
  }

  /** Every task call goes to a path under `/tasks`; only completion and the writes carry a body. */
  lemma TaskCallPaths(call: TaskCall)
    ensures var r := TaskCallRequest(call);
      StartsWith(r.url, "/tasks") &&
      (call.CompleteTask? ==> r.verb == "PATCH" && r.body == map["completed" := JBool(call.completed)]) &&
      (call.GetTasks? || call.GetTaskById? || call.DeleteTask? ==> r.body == map[])
  {
    var r := TaskCallRequest(call);
    assert r.url[..6] == "/tasks";
  }

  /**
   * A 401 storm handled from a fresh start: `n` requests fail with 401 while a
   * refresh token is stored, then the refresh succeeds with `newToken`.
   * Exactly one refresh POST is sent, and every one of the `n` requests is
   * re-sent once, carrying the new token.
   */
  method UnauthorizedStorm(configs: seq<Request>, accessToken: string, refreshToken: string, newToken: string)
    returns (refreshPosts: nat, retried: seq<Request>)
    requires |configs| > 0 && refreshToken != "" && newToken != ""
    ensures refreshPosts == 1
    ensures |retried| == |configs|
    ensures forall i :: 0 <= i < |retried| ==>
      "Authorization" in retried[i].headers && retried[i].headers["Authorization"] == BearerHeader(newToken) &&
      retried[i].url == configs[i].url && retried[i].body == configs[i].body
  {
    var storage := new LocalStorage();
    var client := new ApiClient(storage, map[], None);
    client.SaveTokens(accessToken, refreshToken);
    var i := 0;
    while i < |configs|
      invariant 0 <= i <= |configs|
      invariant client.storage == storage && client.env == map[]
      invariant client.GetRefreshToken() == Some(refreshToken)
      invariant i == 0 ==> client.inFlight.None? && client.sent == []
      invariant i > 0 ==> client.inFlight == Some(Flight(refreshToken, configs[..i])) &&
                          client.sent == [RefreshRequest(client.baseUrl, refreshToken)]
    {
      var parked := client.OnResponseError(Some(Unauthorized), configs[i]);
      assert configs[..i + 1] == configs[..i] + [configs[i]];
      assert i == 0 ==> configs[..i + 1] == [configs[i]];
      i := i + 1;
    }
    assert configs[..i] == configs;
    var resolutions := client.SettleRefresh(RefreshSucceeded(Some(newToken)));
    assert client.GetToken() == Some(newToken);
    refreshPosts := |client.sent| - |configs|;
    retried := client.sent[1..];
    forall k | 0 <= k < |retried|
      ensures "Authorization" in retried[k].headers && retried[k].headers["Authorization"] == BearerHeader(newToken)
      ensures retried[k].url == configs[k].url && retried[k].body == configs[k].body
    {
      assert retried[k] == Retry(configs[k], newToken, Some(newToken));
      RetryCarriesNewToken(configs[k], newToken);
    }
  }
}
