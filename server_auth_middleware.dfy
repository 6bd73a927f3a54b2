/**
 * Request authentication on the server (backend/src/middleware/auth_middleware.py):
 * the bearer scheme (section 2.1 of RFC 6750) as FastAPI's `HTTPBearer`
 * parses it, the `JWTBearer` check on top, resolving the token to a user,
 * and the per-user access check.
 */
module ServerAuthMiddleware {
  import opened Wrappers
  import opened Strings
  import opened Uuids
  import opened ServerHttp
  import opened ServerUserModels
  import opened ServerDb
  import opened ServerJwt
  import opened ServerAuthConfig
  import opened ServerUserService

  const NotAuthenticatedDetail := "Not authenticated"
  const InvalidCredentialsDetail := "Invalid authentication credentials"
  const InvalidSchemeDetail := "Invalid authentication scheme."
  const InvalidTokenDetail := "Invalid token or expired token."
  const InvalidAuthorizationCodeDetail := "Invalid authorization code."
  const CouldNotValidateDetail := "Could not validate credentials"
  const InvalidUserIdInTokenDetail := "Invalid user ID format in token"
  const UserNotFoundDetail := "User not found"
  const InvalidTargetDetail := "Invalid target user ID format"
  const CannotAccessOtherDetail := "Access forbidden: Cannot access other user's data"

  /** An `Authorization` header split at its first space: the scheme, then the credentials. */
  datatype AuthorizationHeader = AuthorizationHeader(scheme: string, credentials: Token)

  /** `scheme.lower() == "bearer"`; only the ASCII capitals lower-case onto these letters. */
  predicate IsBearerIgnoringCase(scheme: string) {
    |scheme| == 6 && forall i :: 0 <= i < 6 ==> AsciiLower(scheme[i]) == "bearer"[i]
  }

  /**
   * `HTTPBearer.__call__` with `auto_error`: 403 when the header, its
   * scheme or its credentials are missing, 403 when the scheme is not
   * "bearer" in any case, otherwise the credentials.
   */
  function HttpBearer(h: Option<AuthorizationHeader>): (r: Outcome<AuthorizationHeader>)
    ensures r.Ok? <==> h.Some? && h.value.scheme != "" && TokenTruthy(h.value.credentials) && IsBearerIgnoringCase(h.value.scheme)
    ensures r.Ok? ==> r.value == h.value
    ensures !r.Ok? ==> r.Raise? && r.error.status == Forbidden && !r.error.bearerChallenge
  {
    if h.None? || h.value.scheme == "" || !TokenTruthy(h.value.credentials) then Fail(Forbidden, NotAuthenticatedDetail)
    else if !IsBearerIgnoringCase(h.value.scheme) then Fail(Forbidden, InvalidCredentialsDetail)
    else Ok(h.value)
  }

  /**
   * `JWTBearer.__call__` as written: after `HTTPBearer`, the scheme must be
   * exactly "Bearer" and the token must verify; what it hands on is the
   * token itself.
   */
  function JwtBearerCall(h: Option<AuthorizationHeader>, cfg: AuthConfig, now: Timestamp): (r: Outcome<Token>)
    ensures r.Ok? <==>
      HttpBearer(h).Ok? && h.value.scheme == "Bearer" && VerifyToken(h.value.credentials, cfg, now).Some?
    ensures r.Ok? ==> r.value == h.value.credentials
    ensures !r.Ok? ==> r.Raise? && r.error.status == Forbidden
    ensures r != Fail(Forbidden, InvalidAuthorizationCodeDetail)
  {
    var creds := HttpBearer(h);
    if !creds.Ok? then Raise(creds.error)
    else if creds.value.scheme != "Bearer" then Fail(Forbidden, InvalidSchemeDetail)
    else if VerifyToken(creds.value.credentials, cfg, now).None? then Fail(Forbidden, InvalidTokenDetail)
    else Ok(creds.value.credentials)
  }

  /**
   * The body of `get_current_user`, given the token: 401 with a challenge
   * when the token does not verify or has no `sub`, when `sub` is not a
   * UUID, or when no user has that id; otherwise that user, whether active
   * or not.
   */
  function GetCurrentUser(token: Token, users: seq<User>, cfg: AuthConfig, now: Timestamp): (r: Outcome<User>)
    ensures !r.Crash?
    ensures r.Raise? ==> r.error.status == Unauthorized && r.error.bearerChallenge
    ensures r.Ok? <==>
      VerifyToken(token, cfg, now).Some? && SubClaim in token.claims &&
      Parse(token.claims[SubClaim].text).Some? && UserIdTaken(users, Parse(token.claims[SubClaim].text).value)
    ensures r.Ok? ==> r.value in users && Parse(token.claims[SubClaim].text) == Some(r.value.id)
  {
    var payload := VerifyToken(token, cfg, now);
    if payload.None? then Challenge(Unauthorized, CouldNotValidateDetail)
    else if SubClaim !in payload.value then Challenge(Unauthorized, CouldNotValidateDetail)
    else
      var id := Parse(payload.value[SubClaim].text);
      if id.None? then Challenge(Unauthorized, InvalidUserIdInTokenDetail)
      else
        var i := UserIndexById(users, id.value);
        if i.None? then Challenge(Unauthorized, UserNotFoundDetail)
        else Ok(users[i.value])
  }

  /**
   * `get_current_user` as wired: it depends on `JWTBearer`, which hands it
   * the token string, and reads `.credentials` from it; a `str` has no
   * such attribute, so every request that passes the bearer check ends in
   * AttributeError.
   */
  function GetCurrentUserAsWritten(h: Option<AuthorizationHeader>, users: seq<User>, cfg: AuthConfig, now: Timestamp)
    : (r: Outcome<User>)
    ensures JwtBearerCall(h, cfg, now).Ok? ==> r.Crash?
    ensures !JwtBearerCall(h, cfg, now).Ok? ==> r == Raise(JwtBearerCall(h, cfg, now).error)
  {
    var token := JwtBearerCall(h, cfg, now);
    if !token.Ok? then Raise(token.error)
    else Crash("AttributeError: 'str' object has no attribute 'credentials'")
  }

  /** As written, no request authenticates: the dependency never yields a user. */
  lemma NoRequestAuthenticatesAsWritten(h: Option<AuthorizationHeader>, users: seq<User>, cfg: AuthConfig, now: Timestamp)
    ensures !GetCurrentUserAsWritten(h, users, cfg, now).Ok?
  {
  }

  /**
   * The dependency with `JWTBearer` handing on the credentials object, as
   * `get_current_user` expects: the bearer check, then the token resolved
   * to a user.
   */
  function CurrentUser(h: Option<AuthorizationHeader>, users: seq<User>, cfg: AuthConfig, now: Timestamp)
    : (r: Outcome<User>)
    ensures !JwtBearerCall(h, cfg, now).Ok? ==> r == Raise(JwtBearerCall(h, cfg, now).error)
    ensures JwtBearerCall(h, cfg, now).Ok? ==> r == GetCurrentUser(h.value.credentials, users, cfg, now)
  {
    var token := JwtBearerCall(h, cfg, now);
    if !token.Ok? then Raise(token.error)
    else GetCurrentUser(h.value.credentials, users, cfg, now)
  }

  /**
   * The access token issued at sign-in identifies its user on every request
   * until it expires, and is refused by the bearer check afterwards.
   * Nothing here asks whether the account is active.
   */
  lemma IssuedTokenIdentifiesUser(users: seq<User>, j: nat, cfg: AuthConfig, issued: Timestamp, now: Timestamp)
    requires UsersWellFormed(users) && j < |users|
    ensures var h := Some(AuthorizationHeader("Bearer", IssueTokens(users[j], cfg, issued).accessToken));
      var exp := issued + AccessTokenExpireDelta(cfg);
      (now <= exp ==> CurrentUser(h, users, cfg, now) == Ok(users[j])) &&
      (exp < now ==> CurrentUser(h, users, cfg, now) == Fail(Forbidden, InvalidTokenDetail))
  {
    if now <= issued + AccessTokenExpireDelta(cfg) {
      IssuedTokenBeforeExpiry(users, j, cfg, issued, now);
    } else {
      IssuedAccessTokenClaims(users[j], cfg, issued, now);
      assert IsBearerIgnoringCase("Bearer");
    }
  }

  lemma IssuedTokenBeforeExpiry(users: seq<User>, j: nat, cfg: AuthConfig, issued: Timestamp, now: Timestamp)
    requires UsersWellFormed(users) && j < |users| && now <= issued + AccessTokenExpireDelta(cfg)
    ensures CurrentUser(Some(AuthorizationHeader("Bearer", IssueTokens(users[j], cfg, issued).accessToken)), users, cfg, now)
      == Ok(users[j])
  {
    var u := users[j];
    IssuedAccessTokenClaims(u, cfg, issued, now);
    ParseToString(u.id);
    assert IsBearerIgnoringCase("Bearer");
    IndexOfOwnId(users, j);
  }

  /** The issued access token verifies until its expiry, carrying the user's id as `sub`. */
  lemma IssuedAccessTokenClaims(u: User, cfg: AuthConfig, issued: Timestamp, now: Timestamp)
    ensures var t := IssueTokens(u, cfg, issued).accessToken;
      (VerifyToken(t, cfg, now).Some? <==> now <= issued + AccessTokenExpireDelta(cfg)) &&
      (VerifyToken(t, cfg, now).Some? ==>
        SubClaim in VerifyToken(t, cfg, now).value && t.claims[SubClaim] == Text(ToString(u.id)))
  {
    AccessTokenLifetime(TokenData(u), None, cfg, issued, now, 0, 0);
  }

  /** With unique ids, looking up a user's own id finds that user. */
  lemma IndexOfOwnId(users: seq<User>, j: nat)
    requires UsersWellFormed(users) && j < |users|
    ensures UserIndexById(users, users[j].id) == Some(j)
  {
    assert forall k :: 0 <= k < |users| && k != j ==> users[k].id != users[j].id;
  }

  /** Deactivating an account does not revoke the access tokens it already holds. */
  lemma DeactivatedTokenStillAccepted(users: seq<User>, j: nat, cfg: AuthConfig, issued: Timestamp, now: Timestamp)
    requires UsersWellFormed(users) && j < |users| && now <= issued + AccessTokenExpireDelta(cfg)
    ensures var after := users[j := users[j].(isActive := false)];
      var h := Some(AuthorizationHeader("Bearer", IssueTokens(users[j], cfg, issued).accessToken));
      CurrentUser(h, after, cfg, now) == Ok(after[j])
  {
    var after := users[j := users[j].(isActive := false)];
    assert IssueTokens(users[j], cfg, issued).accessToken == IssueTokens(after[j], cfg, issued).accessToken;
    IssuedTokenIdentifiesUser(after, j, cfg, issued, now);
  }

  /**
   * `validate_user_access`: 400 when the target is not a UUID, 403 unless
   * it is the caller's id written exactly as `str(uuid)` writes it, else True.
   */
  function ValidateUserAccess(current: User, target: string): (r: Outcome<bool>)
    ensures r == Ok(true) <==> target == ToString(current.id)
    ensures Parse(target).None? ==> r == Fail(BadRequest, InvalidTargetDetail)
    ensures Parse(target).Some? && target != ToString(current.id) ==> r == Fail(Forbidden, CannotAccessOtherDetail)
    ensures Parse(target) == Some(current.id) && target != ToString(current.id) ==>
      r == Fail(Forbidden, CannotAccessOtherDetail)
    ensures r.Ok? ==> r.value
  {
    ParseToString(current.id);
    if Parse(target).None? then Fail(BadRequest, InvalidTargetDetail)
    else if ToString(current.id) != target then Fail(Forbidden, CannotAccessOtherDetail)
    else Ok(true)
  }
}
