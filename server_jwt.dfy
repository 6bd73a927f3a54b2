/**
 * Token handling (backend/src/utils/jwt_utils.py): the claims each token
 * carries and the `exp` arithmetic (sections 4.1.2 and 4.1.4 of RFC 7519),
 * and what verification lets through. Signing and decoding by python-jose
 * stay abstract: a token is either one jose signed over some claims with
 * some key and algorithm, or any other text.
 */
module ServerJwt {
  import opened Wrappers
  import opened ServerUserModels
  import opened ServerAuthConfig

  datatype ClaimValue = Text(text: string) | Number(number: int)

  type Claims = map<string, ClaimValue>

  datatype Token = Jwt(claims: Claims, key: string, algorithm: string) | Opaque(text: string)

  const SubClaim := "sub"
  const EmailClaim := "email"
  const ExpClaim := "exp"
  const TypeClaim := "type"
  const RefreshType := "refresh"

  /** Python truthiness of a token string: jose never writes the empty string. */
  predicate TokenTruthy(t: Token) {
    !(t.Opaque? && t.text == "")
  }

  /** Python truthiness of a claim value. */
  predicate ClaimTruthy(v: ClaimValue) {
    match v
    case Text(s) => s != ""
    case Number(n) => n != 0
  }

  /**
   * The expiry instant: now plus `expires_delta` when it is truthy (a zero
   * `timedelta` is not), otherwise now plus the configured default.
   */
  function Expiry(expiresDelta: Option<int>, default: int, now: Timestamp): (e: Timestamp)
    ensures expiresDelta.Some? && expiresDelta.value != 0 ==> e == now + expiresDelta.value
    ensures expiresDelta.None? || expiresDelta.value == 0 ==> e == now + default
  {
    now + if expiresDelta.Some? && expiresDelta.value != 0 then expiresDelta.value else default
  }

  /**
   * `create_access_token`: a copy of the caller's claims with `exp` added,
   * signed with the configured key and algorithm.
   */
  function CreateAccessToken(data: Claims, expiresDelta: Option<int>, cfg: AuthConfig, now: Timestamp): (t: Token)
    ensures t.Jwt? && t.key == cfg.secretKey && t.algorithm == cfg.algorithm
    ensures t.claims.Keys == data.Keys + {ExpClaim}
    ensures forall k :: k in data && k != ExpClaim ==> t.claims[k] == data[k]
    ensures t.claims[ExpClaim] == Number(Expiry(expiresDelta, AccessTokenExpireDelta(cfg), now))
  {
    Jwt(data[ExpClaim := Number(Expiry(expiresDelta, AccessTokenExpireDelta(cfg), now))], cfg.secretKey, cfg.algorithm)
  }

  /**
   * `create_refresh_token`: as an access token but with the refresh
   * lifetime, and `type` set to "refresh" whatever the caller's claims said.
   */
  function CreateRefreshToken(data: Claims, expiresDelta: Option<int>, cfg: AuthConfig, now: Timestamp): (t: Token)
    ensures t.Jwt? && t.key == cfg.secretKey && t.algorithm == cfg.algorithm
    ensures t.claims.Keys == data.Keys + {ExpClaim, TypeClaim}
    ensures forall k :: k in data && k != ExpClaim && k != TypeClaim ==> t.claims[k] == data[k]
    ensures t.claims[ExpClaim] == Number(Expiry(expiresDelta, RefreshTokenExpireDelta(cfg), now))
    ensures t.claims[TypeClaim] == Text(RefreshType)
  {
    var exp := Expiry(expiresDelta, RefreshTokenExpireDelta(cfg), now);
    Jwt(data[ExpClaim := Number(exp)][TypeClaim := Text(RefreshType)], cfg.secretKey, cfg.algorithm)
  }

  /**
   * The claim checks jose makes while decoding: `exp`, when present, is a
   * number not yet passed, and `sub`, when present, is a string.
   */
  predicate ClaimsAcceptable(claims: Claims, now: Timestamp) {
    (ExpClaim in claims ==> claims[ExpClaim].Number? && now <= claims[ExpClaim].number) &&
    (SubClaim in claims ==> claims[SubClaim].Text?)
  }

  /**
   * `verify_token`: the claims of a token signed with the configured key and
   * algorithm whose claims pass jose's checks; None for an expired, foreign
   * or malformed token.
   */
  function VerifyToken(t: Token, cfg: AuthConfig, now: Timestamp): (r: Option<Claims>)
    ensures r.Some? <==>
      t.Jwt? && t.key == cfg.secretKey && t.algorithm == cfg.algorithm && ClaimsAcceptable(t.claims, now)
    ensures r.Some? ==> r.value == t.claims
  {
    if t.Jwt? && t.key == cfg.secretKey && t.algorithm == cfg.algorithm && ClaimsAcceptable(t.claims, now)
    then Some(t.claims) else None
  }

  /**
   * `decode_token_payload` as written: `jwt.decode` is called without its
   * required `key` argument, so the call raises TypeError, which the blanket
   * `except` turns into None for every token.
   */
  function DecodeTokenPayloadAsWritten(t: Token): (r: Option<Claims>)
    ensures r.None?
  {
    None
  }

  /**
   * What the docstring promises: the claims of any jose token, read without
   * checking signature, algorithm or expiry.
   */
  function DecodeTokenPayload(t: Token): (r: Option<Claims>)
    ensures r.Some? <==> t.Jwt?
    ensures r.Some? ==> r.value == t.claims
  {
    if t.Jwt? then Some(t.claims) else None
  }

  /** Unverified decoding sees at least what verification sees, and agrees with it there. */
  lemma DecodeSeesVerified(t: Token, cfg: AuthConfig, now: Timestamp)
    ensures VerifyToken(t, cfg, now).Some? ==> DecodeTokenPayload(t) == VerifyToken(t, cfg, now)
    ensures DecodeTokenPayloadAsWritten(t) != DecodeTokenPayload(t) <==> t.Jwt?
  {
  }

  /**
   * `get_user_id_from_token`: the `sub` of a verified, non-empty payload
   * (jose has already made sure it is a string), otherwise None.
   */
  function GetUserIdFromToken(t: Token, cfg: AuthConfig, now: Timestamp): (r: Option<string>)
    ensures r.Some? <==> VerifyToken(t, cfg, now).Some? && SubClaim in t.claims
    ensures r.Some? ==> t.claims[SubClaim] == Text(r.value)
  {
    var payload := VerifyToken(t, cfg, now);
    if payload.Some? && |payload.value| > 0 && SubClaim in payload.value then
      Some(payload.value[SubClaim].text)
    else None
  }

  /** A reading of `datetime.utcnow()`, in microseconds since the epoch. */
  type Micros = int

  const MicrosPerSecond := 1_000_000

  /**
   * The whole second jose checks `exp` against: the reading with its
   * microseconds dropped (floor division, also before 1970).
   */
  function WholeSeconds(m: Micros): (s: Timestamp)
    ensures s * MicrosPerSecond <= m < (s + 1) * MicrosPerSecond
  {
    m / MicrosPerSecond
  }

  /**
   * `is_token_expired`: `jwt.decode` reads the clock at `decodedAt` (to the
   * second), and the comparison `utcfromtimestamp(exp) < utcnow()` reads it
   * again at `comparedAt` (to the microsecond). Not expired exactly when the
   * token verifies, carries a truthy `exp`, and that second has not been
   * passed at `comparedAt`.
   */
  function IsTokenExpired(t: Token, cfg: AuthConfig, decodedAt: Micros, comparedAt: Micros): (r: bool)
    ensures !r <==>
      VerifyToken(t, cfg, WholeSeconds(decodedAt)).Some? && ExpClaim in t.claims &&
      ClaimTruthy(t.claims[ExpClaim]) && comparedAt <= t.claims[ExpClaim].number * MicrosPerSecond
  {
    var payload := VerifyToken(t, cfg, WholeSeconds(decodedAt));
    if payload.None? then true
    else if ExpClaim in payload.value && ClaimTruthy(payload.value[ExpClaim]) then
      payload.value[ExpClaim].number * MicrosPerSecond < comparedAt
    else true
  }

  /**
   * A token the server issues verifies, with exactly the claims it was given
   * plus `exp`, until and including its expiry second, and not after it.
   * `is_token_expired`, whose second clock reading comes no earlier than
   * the first, reports it expired exactly once the instant `exp` has passed
   * (when `exp` is not zero).
   */
  lemma AccessTokenLifetime(data: Claims, expiresDelta: Option<int>, cfg: AuthConfig, issued: Timestamp, now: Timestamp,
                            decodedAt: Micros, comparedAt: Micros)
    requires SubClaim in data ==> data[SubClaim].Text?
    requires decodedAt <= comparedAt
    ensures var t := CreateAccessToken(data, expiresDelta, cfg, issued);
      var exp := Expiry(expiresDelta, AccessTokenExpireDelta(cfg), issued);
      (VerifyToken(t, cfg, now).Some? <==> now <= exp) &&
      (now <= exp ==> VerifyToken(t, cfg, now) == Some(data[ExpClaim := Number(exp)])) &&
      (exp != 0 ==> (IsTokenExpired(t, cfg, decodedAt, comparedAt) <==> exp * MicrosPerSecond < comparedAt))
  {
    var exp := Expiry(expiresDelta, AccessTokenExpireDelta(cfg), issued);
    ExpiredOnlyAfterExp(exp, decodedAt, comparedAt);
  }

  /** The same for refresh tokens, which also carry `type` "refresh". */
  lemma RefreshTokenLifetime(data: Claims, expiresDelta: Option<int>, cfg: AuthConfig, issued: Timestamp, now: Timestamp,
                             decodedAt: Micros, comparedAt: Micros)
    requires SubClaim in data ==> data[SubClaim].Text?
    requires decodedAt <= comparedAt
    ensures var t := CreateRefreshToken(data, expiresDelta, cfg, issued);
      var exp := Expiry(expiresDelta, RefreshTokenExpireDelta(cfg), issued);
      (VerifyToken(t, cfg, now).Some? <==> now <= exp) &&
      (now <= exp ==> VerifyToken(t, cfg, now).value[TypeClaim] == Text(RefreshType)) &&
      (exp != 0 ==> (IsTokenExpired(t, cfg, decodedAt, comparedAt) <==> exp * MicrosPerSecond < comparedAt))
  {
    var exp := Expiry(expiresDelta, RefreshTokenExpireDelta(cfg), issued);
    ExpiredOnlyAfterExp(exp, decodedAt, comparedAt);
  }

  /** A comparison reading still within `exp` means jose's earlier reading was within it too. */
  lemma ExpiredOnlyAfterExp(exp: int, decodedAt: Micros, comparedAt: Micros)
    requires decodedAt <= comparedAt
    ensures comparedAt <= exp * MicrosPerSecond ==> WholeSeconds(decodedAt) <= exp
  {
  }

  /**
   * The two clocks disagree for one second: read at a single instant, an
   * issued token that still verifies is reported expired exactly when the
   * instant lies strictly inside its expiry second.
   */
  lemma ExpirySecondDisagreement(data: Claims, cfg: AuthConfig, issued: Timestamp, at: Micros)
    requires SubClaim in data ==> data[SubClaim].Text?
    ensures var t := CreateAccessToken(data, None, cfg, issued);
      var exp := Expiry(None, AccessTokenExpireDelta(cfg), issued);
      exp != 0 ==>
        (VerifyToken(t, cfg, WholeSeconds(at)).Some? && IsTokenExpired(t, cfg, at, at) <==>
         exp * MicrosPerSecond < at < (exp + 1) * MicrosPerSecond)
  {
    var exp := Expiry(None, AccessTokenExpireDelta(cfg), issued);
    AccessTokenLifetime(data, None, cfg, issued, WholeSeconds(at), at, at);
    if exp * MicrosPerSecond < at < (exp + 1) * MicrosPerSecond {
      assert WholeSeconds(at) == exp;
    }
  }

  /** Only a refresh token carries `type` "refresh" unless the caller put it in the claims itself. */
  lemma AccessTokenHasNoType(data: Claims, expiresDelta: Option<int>, cfg: AuthConfig, now: Timestamp)
    requires TypeClaim !in data
    ensures TypeClaim !in CreateAccessToken(data, expiresDelta, cfg, now).claims
  {
  }
}
