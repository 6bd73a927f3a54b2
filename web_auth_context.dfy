/**
 * The second session provider (frontend/src/contexts/auth_context.tsx). It
 * delegates token storage to the API client, except in `checkAuthStatus`,
 * which reads the access token itself under `NEXT_PUBLIC_JWT_TOKEN_KEY ||
 * 'auth_token'`, while the client saves it under
 * `NEXT_PUBLIC_JWT_TOKEN_KEY || 'access_token'`.
 */
module WebAuthContext {
  import opened Wrappers
  import opened Js
  import opened WebStorage
  import opened WebApiClient

  const ContextAccessKey := "auth_token"
  const ContextRefreshKey := "refresh_token"
  const InvalidLogin := "Invalid login response"
  const InvalidRegistration := "Invalid registration response"
  const TasksPage := "/tasks"
  const HomePage := "/"

  /** The message of a rethrown error: the context throws the error itself, so it keeps its own message. */
  function Rethrown(f: CallFailure): string {
    f.message
  }

  class AuthContext {
    const client: ApiClient
    var currentUser: Option<Profile>
    var loading: bool
    var navigations: seq<string>

    constructor (client: ApiClient)
      ensures this.client == client
      ensures currentUser == None && loading && navigations == []
    {
      this.client := client;
      currentUser := None;
      loading := true;
      navigations := [];
    }

    /** `isAuthenticated: !!currentUser`. */
    predicate IsAuthenticated()
      reads this
    {
      currentUser.Some?
    }

    function TokenKey(): string {
      KeyName(client.env, AccessKeyVar, ContextAccessKey)
    }

    function RefreshKey(): string {
      KeyName(client.env, RefreshKeyVar, ContextRefreshKey)
    }

    /**
     * `checkAuthStatus` as written: it looks for the access token under its
     * own key name; `profile` is how `GET /users/me` ends, consulted only
     * when a token is found.
     */
    method CheckAuthStatusAsWritten(profile: CallResult<Profile>)
      modifies this, client.storage
      ensures loading == old(loading) && navigations == old(navigations)
      ensures !Truthy(old(client.storage.GetItem(TokenKey()))) ==>
        currentUser == None && client.storage.items == old(client.storage.items)
      ensures Truthy(old(client.storage.GetItem(TokenKey()))) && profile.Responded? ==>
        currentUser == Some(profile.data) && client.storage.items == old(client.storage.items)
      ensures Truthy(old(client.storage.GetItem(TokenKey()))) && profile.Failed? ==>
        currentUser == None && client.storage.items == old(client.storage.items) - {TokenKey(), RefreshKey()}
    {
      var token := client.storage.GetItem(TokenKey());
      if !Truthy(token) {
        currentUser := None;
        return;
      }
      match profile
      case Responded(user) =>
        currentUser := Some(user);
      case Failed(_) =>
        client.storage.RemoveItem(TokenKey());
        client.storage.RemoveItem(RefreshKey());
        currentUser := None;
    }

    /**
     * `checkAuthStatus` reading the token where the client keeps it: a
     * stored access token and a profile answer restore the session; a
     * failed profile call clears both of the client's tokens.
     */
    method CheckAuthStatus(profile: CallResult<Profile>)
      modifies this, client.storage
      ensures loading == old(loading) && navigations == old(navigations)
      ensures !Truthy(old(client.GetToken())) ==>
        currentUser == None && client.storage.items == old(client.storage.items)
      ensures Truthy(old(client.GetToken())) && profile.Responded? ==>
        currentUser == Some(profile.data) && client.storage.items == old(client.storage.items)
      ensures Truthy(old(client.GetToken())) && profile.Failed? ==>
        currentUser == None && client.storage.items == old(client.storage.items) - {client.AccessKey(), client.RefreshKey()}
    {
      var token := client.GetToken();
      if !Truthy(token) {
        currentUser := None;
        return;
      }
      match profile
      case Responded(user) =>
        currentUser := Some(user);
      case Failed(_) =>
        client.ClearTokens();
        currentUser := None;
    }

    /**
     * The mount effect as written: `checkAuthStatus` on the context's own
     * key, then stop loading. A session the client saved under its default
     * key is not found.
     */
    method MountAsWritten(profile: CallResult<Profile>)
      modifies this, client.storage
      ensures !loading && navigations == old(navigations)
      ensures Truthy(old(client.storage.GetItem(TokenKey()))) && profile.Responded? <==> IsAuthenticated()
    {
      CheckAuthStatusAsWritten(profile);
      loading := false;
    }

    /** The mount effect with the corrected check, reading the client's key. */
    method Mount(profile: CallResult<Profile>)
      modifies this, client.storage
      ensures !loading && navigations == old(navigations)
      ensures Truthy(old(client.GetToken())) && profile.Responded? <==> IsAuthenticated()
    {
      CheckAuthStatus(profile);
      loading := false;
    }

    /**
     * `login`: only an answer with a truthy `token` signs in; it is saved
     * through the client together with `refresh_token` as stored by
     * `localStorage.setItem` (a missing one becomes the string "undefined").
     */
    method Login(answer: CallResult<AuthResponse>) returns (r: Settled<()>)
      modifies this, client.storage
      ensures !loading
      ensures r.Resolved? <==> answer.Responded? && Truthy(answer.data.token)
      ensures r.Resolved? ==> Saved(old(client.storage.items), answer.data, old(navigations))
      ensures r.Thrown? ==>
        client.storage.items == old(client.storage.items) &&
        currentUser == old(currentUser) && navigations == old(navigations)
      ensures r.Thrown? ==> r.message == (if answer.Failed? then Rethrown(answer.failure) else InvalidLogin)
    {
      r := Authenticate(answer, InvalidLogin);
    }

    /** `register`: as `login`, with its own message for a tokenless answer. */
    method Register(answer: CallResult<AuthResponse>) returns (r: Settled<()>)
      modifies this, client.storage
      ensures !loading
      ensures r.Resolved? <==> answer.Responded? && Truthy(answer.data.token)
      ensures r.Resolved? ==> Saved(old(client.storage.items), answer.data, old(navigations))
      ensures r.Thrown? ==>
        client.storage.items == old(client.storage.items) &&
        currentUser == old(currentUser) && navigations == old(navigations)
      ensures r.Thrown? ==> r.message == (if answer.Failed? then Rethrown(answer.failure) else InvalidRegistration)
    {
      r := Authenticate(answer, InvalidRegistration);
    }

    ghost predicate Saved(items0: map<string, string>, data: AuthResponse, navigations0: seq<string>)
      reads this, client.storage
      requires data.token.Some?
    {
      client.storage.items ==
        items0[client.AccessKey() := data.token.value][client.RefreshKey() := Stringify(data.refreshToken)] &&
      currentUser == data.user && navigations == navigations0 + [TasksPage]
    }

    method Authenticate(answer: CallResult<AuthResponse>, invalid: string) returns (r: Settled<()>)
      modifies this, client.storage
      ensures !loading
      ensures r.Resolved? <==> answer.Responded? && Truthy(answer.data.token)
      ensures r.Resolved? ==> Saved(old(client.storage.items), answer.data, old(navigations))
      ensures r.Thrown? ==>
        client.storage.items == old(client.storage.items) &&
        currentUser == old(currentUser) && navigations == old(navigations)
      ensures r.Thrown? ==> r.message == (if answer.Failed? then Rethrown(answer.failure) else invalid)
    {
      loading := true;
      match answer {
      case Failed(f) =>
        r := Thrown(Rethrown(f));
      case Responded(data) =>
        if Truthy(data.token) {
          client.SaveTokens(data.token.value, Stringify(data.refreshToken));
          currentUser := data.user;
          navigations := navigations + [TasksPage];
          r := Resolved(());
        } else {
          r := Thrown(invalid);
        }
      }
      loading := false;
    }

    /** `logout`: the client's tokens are cleared whatever the sign-out call does. */
    method Logout(signout: CallResult<()>)
      modifies this, client.storage
      ensures client.storage.items == old(client.storage.items) - {client.AccessKey(), client.RefreshKey()}
      ensures !IsAuthenticated() && navigations == old(navigations) + [HomePage] && loading == old(loading)
    {
      client.ClearTokens();
      currentUser := None;
      navigations := navigations + [HomePage];
    }
  }
  /**
   * Without `NEXT_PUBLIC_JWT_TOKEN_KEY`, the client saves the access token
   * under "access_token" while `checkAuthStatus` as written looks under
   * "auth_token": reloading the page after a successful sign-in finds no
   * session, even though the profile call would succeed.
   */
  method ReloadAfterLoginAsWritten(storage: LocalStorage, env: map<string, string>, data: AuthResponse, profile: Profile)
    returns (restored: bool)
    requires AccessKeyVar !in env && RefreshKeyVar !in env
    requires ContextAccessKey !in storage.items && Truthy(data.token)
    modifies storage
    ensures !restored
  {
    var client := new ApiClient(storage, env, None);
    var signIn := new AuthContext(client);
    var r := signIn.Login(Responded(data));
    assert ContextAccessKey != DefaultAccessKey && ContextAccessKey != DefaultRefreshKey;
    var freshClient := new ApiClient(storage, env, None);
    var reloaded := new AuthContext(freshClient);
    reloaded.MountAsWritten(Responded(profile));
    restored := reloaded.IsAuthenticated();
  }

  /**
   * With `checkAuthStatus` reading the client's key, the same sequence
   * restores the session, whatever the environment names the keys (as long
   * as the two token keys differ).
   */
  method ReloadAfterLogin(storage: LocalStorage, env: map<string, string>, data: AuthResponse, profile: Profile)
    returns (restored: bool)
    requires KeyName(env, AccessKeyVar, DefaultAccessKey) != KeyName(env, RefreshKeyVar, DefaultRefreshKey)
    requires Truthy(data.token)
    modifies storage
    ensures restored
  {
    var client := new ApiClient(storage, env, None);
    var signIn := new AuthContext(client);
    var r := signIn.Login(Responded(data));
    var freshClient := new ApiClient(storage, env, None);
    var reloaded := new AuthContext(freshClient);
    reloaded.Mount(Responded(profile));
    restored := reloaded.IsAuthenticated();
  }
}
