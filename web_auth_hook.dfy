/**
 * The `useAuth` provider (frontend/src/hooks/useAuth.tsx): the signed-in
 * user, the loading and error flags, and the session operations. Server
 * answers are parameters; `navigations` records every `router.push`.
 */
module WebAuthHook {
  import opened Wrappers
  import opened Js
  import opened WebStorage
  import opened WebApiClient

  const FallbackAccessKey := "access_token"
  const FallbackRefreshKey := "refresh_token"
  const InvalidResponse := "Invalid response from server"
  const LoginFallback := "An error occurred during login. Please try again."
  const RegisterFallback := "An error occurred during registration. Please try again."
  const TasksPage := "/tasks"
  const HomePage := "/"

  /** The message the provider throws for a failed sign-in or sign-up: the server's `detail`, else `fallback`. */
  function ErrorMessage(f: CallFailure, fallback: string): string {
    match f
    case AxiosFailure(_, detail, _) => Or(detail, fallback)
    case OtherFailure(_) => fallback
  }

  /** The token a sign-in or sign-up answer yields: `access_token || token`. */
  function AnswerToken(data: AuthResponse): Option<string> {
    OrElse(data.accessToken, data.token)
  }

  /** The request bodies of sign-in and sign-up. */
  function SigninRequest(email: string, password: string): Request {
    NewRequest("POST", "/api/auth/signin", map["email" := JText(email), "password" := JText(password)])
  }

  function SignupRequest(email: string, password: string, confirmPassword: string): Request {
    NewRequest("POST", "/api/auth/signup",
      map["email" := JText(email), "password" := JText(password), "confirm_password" := JText(confirmPassword)])
  }

  class AuthProvider {
    const client: ApiClient
    var currentUser: Option<Profile>
    var loading: bool
    var error: Option<string>
    var isAuthenticated: bool
    var navigations: seq<string>

    constructor (client: ApiClient)
      ensures this.client == client
      ensures currentUser == None && loading && error == None && !isAuthenticated && navigations == []
    {
      this.client := client;
      currentUser := None;
      loading := true;
      error := None;
      isAuthenticated := false;
      navigations := [];
    }

    function AccessKey(): string {
      KeyName(client.env, AccessKeyVar, FallbackAccessKey)
    }

    function RefreshKey(): string {
      KeyName(client.env, RefreshKeyVar, FallbackRefreshKey)
    }

    /**
     * `checkAuthStatus`: without a stored token the user is signed out and no
     * call is made; otherwise the profile call decides, and its failure clears
     * both stored tokens. `profile` is how `GET /api/users/me` ends.
     */
    method CheckAuthStatus(profile: CallResult<Profile>)
      modifies this, client.storage
      ensures !loading && error == old(error) && navigations == old(navigations)
      ensures isAuthenticated <==> currentUser.Some?
      ensures !Truthy(old(client.storage.GetItem(AccessKey()))) ==>
        currentUser == None && client.storage.items == old(client.storage.items)
      ensures Truthy(old(client.storage.GetItem(AccessKey()))) && profile.Responded? ==>
        currentUser == Some(profile.data) && client.storage.items == old(client.storage.items)
      ensures Truthy(old(client.storage.GetItem(AccessKey()))) && profile.Failed? ==>
        currentUser == None && client.storage.items == old(client.storage.items) - {AccessKey(), RefreshKey()}
    {
      loading := true;
      var token := client.storage.GetItem(AccessKey());
      if !Truthy(token) {
        currentUser := None;
        isAuthenticated := false;
      } else {
        match profile
        case Responded(user) =>
          currentUser := Some(user);
          isAuthenticated := true;
        case Failed(_) =>
          client.storage.RemoveItem(AccessKey());
          client.storage.RemoveItem(RefreshKey());
          currentUser := None;
          isAuthenticated := false;
      }
      loading := false;
    }

    /** `login`: `answer` is how `POST /api/auth/signin` ends. */
    method Login(answer: CallResult<AuthResponse>) returns (r: Settled<()>)
      modifies this, client.storage
      ensures !loading
      ensures r.Resolved? <==> answer.Responded? && Truthy(AnswerToken(answer.data))
      ensures r.Resolved? ==> Signed(old(client.storage.items), answer.data, TasksPage, old(navigations))
      ensures r.Thrown? ==> Refused(old(client.storage.items), old(currentUser), old(isAuthenticated), old(navigations), r.message)
      ensures r.Thrown? ==> r.message == (if answer.Failed? then ErrorMessage(answer.failure, LoginFallback) else LoginFallback)
    {
      r := Authenticate(answer, LoginFallback);
    }

    /** `register`: `answer` is how `POST /api/auth/signup` ends. */
    method Register(answer: CallResult<AuthResponse>) returns (r: Settled<()>)
      modifies this, client.storage
      ensures !loading
      ensures r.Resolved? <==> answer.Responded? && Truthy(AnswerToken(answer.data))
      ensures r.Resolved? ==> Signed(old(client.storage.items), answer.data, TasksPage, old(navigations))
      ensures r.Thrown? ==> Refused(old(client.storage.items), old(currentUser), old(isAuthenticated), old(navigations), r.message)
      ensures r.Thrown? ==> r.message == (if answer.Failed? then ErrorMessage(answer.failure, RegisterFallback) else RegisterFallback)
    {
      r := Authenticate(answer, RegisterFallback);
    }

    /** The state after a successful sign-in or sign-up. */
    ghost predicate Signed(items0: map<string, string>, data: AuthResponse, page: string, navigations0: seq<string>)
      reads this, client.storage
      requires Truthy(AnswerToken(data))
    {
      client.storage.items ==
        (if Truthy(data.refreshToken)
         then items0[AccessKey() := AnswerToken(data).value][RefreshKey() := data.refreshToken.value]
         else items0[AccessKey() := AnswerToken(data).value]) &&
      currentUser == data.user && isAuthenticated && error == None && navigations == navigations0 + [page]
    }

    /** The state after a refused sign-in or sign-up: only the error is shown. */
    ghost predicate Refused(items0: map<string, string>, user0: Option<Profile>, auth0: bool,
                            navigations0: seq<string>, message: string)
      reads this, client.storage
    {
      client.storage.items == items0 && currentUser == user0 && isAuthenticated == auth0 &&
      navigations == navigations0 && error == Some(message)
    }

    /**
     * The shared body of `login` and `register`. A response without a token
     * throws 'Invalid response from server', and the `catch` then replaces
     * that message with `fallback`, since the error carries no response.
     */
    method Authenticate(answer: CallResult<AuthResponse>, fallback: string) returns (r: Settled<()>)
      modifies this, client.storage
      ensures !loading
      ensures r.Resolved? <==> answer.Responded? && Truthy(AnswerToken(answer.data))
      ensures r.Resolved? ==> Signed(old(client.storage.items), answer.data, TasksPage, old(navigations))
      ensures r.Thrown? ==> Refused(old(client.storage.items), old(currentUser), old(isAuthenticated), old(navigations), r.message)
      ensures r.Thrown? ==> r.message == (if answer.Failed? then ErrorMessage(answer.failure, fallback) else fallback)
    {
      loading := true;
      error := None;
      var thrown: Option<CallFailure> := None;
      match answer {
      case Failed(f) =>
        thrown := Some(f);
      case Responded(data) =>
        var token := AnswerToken(data);
        if Truthy(token) {
          client.storage.SetItem(AccessKey(), token.value);
          if Truthy(data.refreshToken) {
            client.storage.SetItem(RefreshKey(), data.refreshToken.value);
          }
          currentUser := data.user;
          isAuthenticated := true;
          navigations := navigations + [TasksPage];
        } else {
          error := Some(InvalidResponse);
          thrown := Some(OtherFailure(InvalidResponse));
        }
      }
      if thrown.Some? {
        var message := ErrorMessage(thrown.value, fallback);
        error := Some(message);
        r := Thrown(message);
      } else {
        r := Resolved(());
      }
      loading := false;
    }

    /** `logout`: local sign-out happens whatever the sign-out call does. */
    method Logout(signout: CallResult<()>)
      modifies this, client.storage
      ensures client.storage.items == old(client.storage.items) - {AccessKey(), RefreshKey(), client.AccessKey(), client.RefreshKey()}
      ensures currentUser == None && !isAuthenticated
      ensures navigations == old(navigations) + [HomePage]
      ensures loading == old(loading) && error == old(error)
    {
      client.storage.RemoveItem(AccessKey());
      client.storage.RemoveItem(RefreshKey());
      client.ClearToken();
      currentUser := None;
      isAuthenticated := false;
      navigations := navigations + [HomePage];
    }
  }

  /**
   * The provider and the client agree on where tokens live: both default to
   * `access_token` and `refresh_token`, so a session the provider saves is the
   * one the client sends and refreshes.
   */
  lemma ProviderAndClientShareKeys(provider: AuthProvider)
    ensures provider.AccessKey() == provider.client.AccessKey()
    ensures provider.RefreshKey() == provider.client.RefreshKey()
  {
  }

  /**
   * An answer without `access_token` and without `token` is refused with the
   * generic message: 'Invalid response from server' is never what the caller sees.
   */
  lemma TokenlessAnswerMessage(data: AuthResponse)
    requires !Truthy(data.accessToken) && !Truthy(data.token)
    ensures !Truthy(AnswerToken(data))
    ensures ErrorMessage(OtherFailure(InvalidResponse), LoginFallback) == LoginFallback != InvalidResponse
    ensures ErrorMessage(OtherFailure(InvalidResponse), RegisterFallback) == RegisterFallback != InvalidResponse
  {
  }
}
