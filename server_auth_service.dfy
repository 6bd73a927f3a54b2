/**
 * The second sign-in service (backend/src/services/auth_service.py), which
 * differs from `UserService.authenticate_user` in its details, plus token
 * refresh and account (de)activation.
 */
module ServerAuthService {
  import opened Wrappers
  import opened Uuids
  import opened ServerHttp
  import opened ServerUserModels
  import opened ServerDb
  import opened ServerJwt
  import opened ServerAuthConfig
  import opened ServerUserService

  /** `timedelta(minutes=30)`, in seconds. */
  const ShortAccessLifetime := 30 * 60

  const CannotDeactivateOtherDetail := "Access forbidden: Cannot deactivate other user's account"

  /** `UserPublic(...)` built without `role`, which therefore takes its default. */
  function PublicWithoutRole(u: User): (p: UserPublic)
    ensures p.role == RegularUser
    ensures p == Public(u).(role := RegularUser)
  {
    UserPublic(u.id, u.email, u.isActive, u.emailVerified, RegularUser, u.createdAt)
  }

  /**
   * `AuthService.authenticate_user`: None for an unknown email or a wrong
   * password (passlib's bcrypt check, which truncates at 72 bytes as
   * `verify_password` does); a 401 without a challenge header for a
   * deactivated account; otherwise a 30-minute access token, a refresh
   * token of the configured lifetime, and the user shown as an ordinary one.
   */
  function AuthenticateUser(users: seq<User>, email: string, password: string, cfg: AuthConfig, now: Timestamp)
    : (r: Outcome<Option<LoginResult>>)
    ensures !r.Crash?
    ensures r.Raise? ==> r == Fail(Unauthorized, AccountDeactivatedDetail)
    ensures r.Ok? && r.value.Some? ==>
      GetUserByEmail(users, email).Some? &&
      (var u := GetUserByEmail(users, email).value;
       u.isActive && r.value.value.user == PublicWithoutRole(u) &&
       r.value.value.accessToken == CreateAccessToken(TokenData(u), Some(ShortAccessLifetime), cfg, now))
  {
    var user := GetUserByEmail(users, email);
    if user.None? || !VerifyPassword(password, user.value.hashedPassword) then Ok(None)
    else if !user.value.isActive then Fail(Unauthorized, AccountDeactivatedDetail)
    else
      var data := TokenData(user.value);
      Ok(Some(LoginResult(PublicWithoutRole(user.value), CreateAccessToken(data, Some(ShortAccessLifetime), cfg, now),
                          CreateRefreshToken(data, None, cfg, now), BearerType)))
  }

  /**
   * The two sign-in services accept and refuse the same credentials and
   * issue the same refresh token. They differ in three ways: the 401 for a
   * deactivated account carries a challenge only in `UserService`; an admin
   * is reported as an ordinary user here; and here the access token lasts
   * 30 minutes instead of the configured lifetime.
   */
  lemma AuthenticateServicesAgree(users: seq<User>, email: string, password: string, cfg: AuthConfig, now: Timestamp)
    ensures var a := AuthenticateUser(users, email, password, cfg, now);
      var b := ServerUserService.AuthenticateUser(users, email, password, cfg, now);
      (a == Ok(None) <==> b == Ok(None)) &&
      (a.Raise? <==> b.Raise?) &&
      (a.Raise? ==> a.error.(bearerChallenge := true) == b.error && !a.error.bearerChallenge) &&
      (a.Ok? && a.value.Some? ==>
        b.Ok? && b.value.Some? &&
        a.value.value.refreshToken == b.value.value.refreshToken &&
        a.value.value.user == b.value.value.user.(role := RegularUser))
  {
  }

  /** What `refresh_access_token` returns on success. */
  datatype RefreshResult = RefreshResult(accessToken: Token, tokenType: string)

  /**
   * `refresh_access_token`: None unless the token verifies, its payload is
   * non-empty and its `type` is "refresh"; a payload without `sub` or
   * `email` raises KeyError; otherwise an access token for the same
   * subject and email, of the configured lifetime.
   */
  function RefreshAccessToken(t: Token, cfg: AuthConfig, now: Timestamp): (r: Outcome<Option<RefreshResult>>)
    ensures !r.Raise?
    ensures r.Ok? && r.value.Some? ==>
      VerifyToken(t, cfg, now).Some? && TypeClaim in t.claims && SubClaim in t.claims && EmailClaim in t.claims &&
      t.claims[TypeClaim] == Text(RefreshType) &&
      r.value.value.accessToken ==
        CreateAccessToken(map[SubClaim := t.claims[SubClaim], EmailClaim := t.claims[EmailClaim]], None, cfg, now)
    ensures (VerifyToken(t, cfg, now).Some? && TypeClaim in t.claims && SubClaim in t.claims &&
             EmailClaim in t.claims && t.claims[TypeClaim] == Text(RefreshType)) ==>
      r == Ok(Some(RefreshResult(
        CreateAccessToken(map[SubClaim := t.claims[SubClaim], EmailClaim := t.claims[EmailClaim]], None, cfg, now),
        BearerType)))
    ensures r.Crash? <==>
      VerifyToken(t, cfg, now).Some? && TypeClaim in t.claims && t.claims[TypeClaim] == Text(RefreshType) &&
      (SubClaim !in t.claims || EmailClaim !in t.claims)
  {
    var payload := VerifyToken(t, cfg, now);
    if payload.None? || |payload.value| == 0 then Ok(None)
    else if TypeClaim !in payload.value || payload.value[TypeClaim] != Text(RefreshType) then Ok(None)
    else if SubClaim !in payload.value || EmailClaim !in payload.value then Crash("KeyError")
    else
      var data := map[SubClaim := payload.value[SubClaim], EmailClaim := payload.value[EmailClaim]];
      Ok(Some(RefreshResult(CreateAccessToken(data, None, cfg, now), BearerType)))
  }

  /**
   * A refresh token issued at sign-in yields, until it expires, an access
   * token for the same user; an access token is never accepted for refresh.
   */
  lemma RefreshOfIssuedTokens(u: User, cfg: AuthConfig, issued: Timestamp, now: Timestamp)
    ensures var tokens := IssueTokens(u, cfg, issued);
      var exp := issued + RefreshTokenExpireDelta(cfg);
      (now <= exp ==>
        RefreshAccessToken(tokens.refreshToken, cfg, now) ==
          Ok(Some(RefreshResult(CreateAccessToken(TokenData(u), None, cfg, now), BearerType)))) &&
      (exp < now ==> RefreshAccessToken(tokens.refreshToken, cfg, now) == Ok(None)) &&
      RefreshAccessToken(tokens.accessToken, cfg, now) == Ok(None)
  {
    var tokens := IssueTokens(u, cfg, issued);
    var c := tokens.refreshToken.claims;
    assert SubClaim in c && EmailClaim in c;
    assert map[SubClaim := c[SubClaim], EmailClaim := c[EmailClaim]] == TokenData(u);
    assert TypeClaim !in tokens.accessToken.claims;
  }

  /**
   * `AuthService.deactivate_user`: 403 unless the id is the caller's own
   * (checked before any look-up, so the later `uuid.UUID` call cannot fail);
   * False for a caller whose row is gone; otherwise the row is deactivated.
   */
  method DeactivateUser(db: Database, userId: string, current: User) returns (r: Outcome<bool>)
    requires db.Valid()
    modifies db
    ensures db.Valid() && db.tasks == old(db.tasks)
    ensures ToString(current.id) != userId ==>
      r == Fail(Forbidden, CannotDeactivateOtherDetail) && db.users == old(db.users)
    ensures ToString(current.id) == userId ==>
      var found := old(UserIndexById(db.users, current.id));
      (found.None? ==> r == Ok(false) && db.users == old(db.users)) &&
      (found.Some? ==>
        r == Ok(true) && db.users == old(db.users)[found.value := old(db.users)[found.value].(isActive := false)])
  {
    if ToString(current.id) != userId {
      return Fail(Forbidden, CannotDeactivateOtherDetail);
    }
    var id := Parse(userId);
    ParseToString(current.id);
    var found := UserIndexById(db.users, id.value);
    if found.None? {
      return Ok(false);
    }
    var user := db.users[found.value];
    assert forall j :: 0 <= j < |db.users| && j != found.value ==> db.users[j].email != user.email;
    var ok := db.UpdateUser(found.value, user.(isActive := false));
    r := Ok(ok);
  }

  /**
   * `activate_user`: a malformed id escapes as ValueError (500); False for
   * an unknown id; otherwise the row is active again.
   */
  method ActivateUser(db: Database, userId: string) returns (r: Outcome<bool>)
    requires db.Valid()
    modifies db
    ensures db.Valid() && db.tasks == old(db.tasks)
    ensures Parse(userId).None? ==> r.Crash? && db.users == old(db.users)
    ensures Parse(userId).Some? ==>
      var found := old(UserIndexById(db.users, Parse(userId).value));
      (found.None? ==> r == Ok(false) && db.users == old(db.users)) &&
      (found.Some? ==>
        r == Ok(true) && db.users == old(db.users)[found.value := old(db.users)[found.value].(isActive := true)])
  {
    var id := Parse(userId);
    if id.None? {
      return Crash("ValueError: badly formed hexadecimal UUID string");
    }
    var found := UserIndexById(db.users, id.value);
    if found.None? {
      return Ok(false);
    }
    var user := db.users[found.value];
    assert forall j :: 0 <= j < |db.users| && j != found.value ==> db.users[j].email != user.email;
    var ok := db.UpdateUser(found.value, user.(isActive := true));
    r := Ok(ok);
  }
}
