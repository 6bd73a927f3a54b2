/**
 * The `/auth` endpoints (backend/src/api/auth_router.py): sign-up with
 * automatic sign-in, sign-in, access-token refresh, and sign-out.
 */
module ServerAuthRouter {
  import opened Wrappers
  import opened Uuids
  import opened ServerHttp
  import opened ServerUserModels
  import opened ServerDb
  import opened ServerJwt
  import opened ServerAuthConfig
  import opened ServerUserService

  const RegistrationFailedDetail := "Failed to authenticate user after registration"
  const RegistrationErrorPrefix := "An unexpected error occurred during registration: "
  const AuthenticationErrorPrefix := "An unexpected error occurred during authentication: "
  const IncorrectCredentialsDetail := "Incorrect email or password"
  const RefreshRequiredDetail := "Refresh token is required"
  const InvalidRefreshDetail := "Invalid or expired refresh token"
  const InvalidRefreshPayloadDetail := "Invalid refresh token payload"
  const UserNotFoundDetail := "User not found"
  const RefreshTokenField := "refresh_token"
  const SignedOutMessage := "Successfully signed out"

  /** The body of a successful sign-up or sign-in (`success` is always true). */
  datatype SessionResponse = SessionResponse(
    success: bool, user: UserPublic, accessToken: Token, refreshToken: Token, tokenType: string)

  /** The `except Exception` of sign-up and sign-in: any other error becomes a 500 naming it. */
  function Wrap<T>(r: Outcome<T>, prefix: string): (w: Outcome<T>)
    ensures !w.Crash?
    ensures r.Crash? ==> w == Fail(InternalServerError, prefix + r.reason)
    ensures !r.Crash? ==> w == r
  {
    if r.Crash? then Fail(InternalServerError, prefix + r.reason) else r
  }

  /**
   * `register_user`: `create_user`, then `authenticate_user` with the same
   * email and password, answering with the new user and its tokens. An
   * `HTTPException` passes through; any other error becomes a 500 (the new
   * row, once committed, stays).
   */
  method RegisterUser(db: Database, body: UserCreate, salt: nat, freshId: Uuid, now: Timestamp, cfg: AuthConfig)
    returns (r: Outcome<SessionResponse>)
    requires db.Valid()
    modifies db
    ensures db.Valid() && db.tasks == old(db.tasks)
    ensures !r.Crash? && r != Fail(InternalServerError, RegistrationFailedDetail)
    ensures old(EmailTaken(db.users, body.email)) ==>
      r == Fail(BadRequest, EmailExistsDetail) && db.users == old(db.users)
    ensures !old(EmailTaken(db.users, body.email)) && body.password != body.confirmPassword ==>
      r == Fail(BadRequest, PasswordsDifferDetail) && db.users == old(db.users)
    ensures !old(EmailTaken(db.users, body.email)) && body.password == body.confirmPassword ==>
      var u := Registered(body, salt, freshId, now);
      if old(UserIdTaken(db.users, freshId)) then
        r.Raise? && r.error.status == InternalServerError && db.users == old(db.users)
      else
        var tokens := IssueTokens(u, cfg, now);
        r == Ok(SessionResponse(true, Public(u), tokens.accessToken, tokens.refreshToken, BearerType)) &&
        db.users == old(db.users) + [u]
  {
    ghost var before := db.users;
    var created := CreateUser(db, body, salt, freshId, now);
    if created.Raise? {
      return Raise(created.error);
    }
    if created.Crash? {
      return Fail(InternalServerError, RegistrationErrorPrefix + created.reason);
    }
    SignupThenSignin(before, body, salt, freshId, now, cfg, now);
    var auth := AuthenticateUser(db.users, body.email, body.password, cfg, now);
    match auth {
      case Raise(e) => r := Raise(e);
      case Crash(reason) => r := Fail(InternalServerError, RegistrationErrorPrefix + reason);
      case Ok(None) => r := Fail(InternalServerError, RegistrationFailedDetail);
      case Ok(Some(res)) => r := Ok(SessionResponse(true, created.value, res.accessToken, res.refreshToken, BearerType));
    }
  }

  /**
   * `login_user`: an unknown email or a wrong password is a 401 with a
   * bearer challenge; a deactivated account keeps the service's 401;
   * otherwise the user and the token pair.
   */
  function LoginUser(users: seq<User>, login: UserLogin, cfg: AuthConfig, now: Timestamp): (r: Outcome<SessionResponse>)
    ensures !r.Crash?
    ensures r.Raise? ==> r.error.status == Unauthorized && r.error.bearerChallenge
    ensures r == Challenge(Unauthorized, IncorrectCredentialsDetail) <==>
      AuthenticateUser(users, login.email, login.password, cfg, now) == Ok(None)
    ensures r.Ok? ==>
      var u := GetUserByEmail(users, login.email).value;
      var tokens := IssueTokens(u, cfg, now);
      u.isActive && VerifyPassword(login.password, u.hashedPassword) &&
      r.value == SessionResponse(true, Public(u), tokens.accessToken, tokens.refreshToken, BearerType)
  {
    var auth := Wrap(AuthenticateUser(users, login.email, login.password, cfg, now), AuthenticationErrorPrefix);
    if !auth.Ok? then Raise(auth.error)
    else if auth.value.None? then Challenge(Unauthorized, IncorrectCredentialsDetail)
    else
      var res := auth.value.value;
      Ok(SessionResponse(true, res.user, res.accessToken, res.refreshToken, res.tokenType))
  }

  /** The body of a successful refresh. */
  datatype RefreshResponse = RefreshResponse(success: bool, accessToken: Token, tokenType: string)

  /** A verified refresh token whose subject is the id of some user. */
  predicate RefreshableFor(users: seq<User>, t: Token, cfg: AuthConfig, now: Timestamp) {
    VerifyToken(t, cfg, now).Some? && TypeClaim in t.claims && t.claims[TypeClaim] == Text(RefreshType) &&
    SubClaim in t.claims &&
    exists j :: 0 <= j < |users| && Parse(t.claims[SubClaim].text) == Some(users[j].id)
  }

  /**
   * `refresh_token`: 400 when the body has no (or an empty) refresh token;
   * 401 when it does not verify or is not a refresh token, when it has no
   * subject, or when the subject names no user; a subject that is not a
   * UUID surfaces as the service's 400. Otherwise a new access token for
   * that user, with the configured lifetime. Whether the account is active
   * is not asked.
   */
  function RefreshToken(users: seq<User>, body: map<string, Token>, cfg: AuthConfig, now: Timestamp)
    : (r: Outcome<RefreshResponse>)
    ensures !r.Crash?
    ensures RefreshTokenField !in body || !TokenTruthy(body[RefreshTokenField]) <==>
      r == Fail(BadRequest, RefreshRequiredDetail)
    ensures r.Ok? ==>
      var t := body[RefreshTokenField];
      VerifyToken(t, cfg, now).Some? && TypeClaim in t.claims && t.claims[TypeClaim] == Text(RefreshType) &&
      SubClaim in t.claims &&
      exists j :: 0 <= j < |users| && Parse(t.claims[SubClaim].text) == Some(users[j].id) &&
        r.value == RefreshResponse(true, CreateAccessToken(TokenData(users[j]), None, cfg, now), BearerType)
    ensures (RefreshTokenField in body && TokenTruthy(body[RefreshTokenField]) &&
             RefreshableFor(users, body[RefreshTokenField], cfg, now)) ==> r.Ok?
  {
    if RefreshTokenField !in body || !TokenTruthy(body[RefreshTokenField]) then Fail(BadRequest, RefreshRequiredDetail)
    else
      var t := body[RefreshTokenField];
      var payload := VerifyToken(t, cfg, now);
      if payload.None? || |payload.value| == 0 || TypeClaim !in payload.value || payload.value[TypeClaim] != Text(RefreshType) then
        Fail(Unauthorized, InvalidRefreshDetail)
      else if SubClaim !in payload.value || payload.value[SubClaim].text == "" then
        Fail(Unauthorized, InvalidRefreshPayloadDetail)
      else
        var user := GetUserById(users, payload.value[SubClaim].text);
        if !user.Ok? then Raise(user.error)
        else if user.value.None? then Fail(Unauthorized, UserNotFoundDetail)
        else
          var p := user.value.value;
          var data := map[SubClaim := Text(ToString(p.id)), EmailClaim := Text(p.email)];
          Ok(RefreshResponse(true, CreateAccessToken(data, None, cfg, now), BearerType))
  }

  /**
   * The refresh token issued at sign-in refreshes, until it expires, into
   * an access token for the same user, even after the account was
   * deactivated; an access token is refused.
   */
  lemma RefreshWithIssuedTokens(users: seq<User>, j: nat, cfg: AuthConfig, issued: Timestamp, now: Timestamp)
    requires UsersWellFormed(users) && j < |users|
    ensures var tokens := IssueTokens(users[j], cfg, issued);
      (now <= issued + RefreshTokenExpireDelta(cfg) ==>
        RefreshToken(users, map[RefreshTokenField := tokens.refreshToken], cfg, now) ==
          Ok(RefreshResponse(true, CreateAccessToken(TokenData(users[j]), None, cfg, now), BearerType))) &&
      RefreshToken(users, map[RefreshTokenField := tokens.accessToken], cfg, now) == Fail(Unauthorized, InvalidRefreshDetail)
  {
    var u := users[j];
    var tokens := IssueTokens(u, cfg, issued);
    assert TypeClaim !in tokens.accessToken.claims;
    if now <= issued + RefreshTokenExpireDelta(cfg) {
      ToStringShape(u.id);
      assert ToString(u.id) != "";
      GetUserByIdOfToString(users, j);
      assert TokenData(u) == map[SubClaim := Text(ToString(Public(u).id)), EmailClaim := Text(Public(u).email)];
    }
  }

  /** The body of a sign-out. */
  datatype SignoutResponse = SignoutResponse(success: bool, message: string)

  /** `logout_user`: the server keeps no session, so sign-out always succeeds and revokes nothing. */
  function LogoutUser(): (r: SignoutResponse)
    ensures r.success && r.message == SignedOutMessage
  {
    SignoutResponse(true, SignedOutMessage)
  }
}
