/**
 * The server's token settings (backend/src/config/auth_config.py), read from
 * the environment once at import: the signing key and algorithm, the two
 * lifetimes, and their conversion to durations (in seconds here).
 */
module ServerAuthConfig {
  import opened Wrappers
  import opened Strings
  import WebAuthConfig

  const SecretVar := "BETTER_AUTH_SECRET"
  const FallbackSecret := "fallback-test-secret-key-change-in-production"
  const Algorithm := "HS256"
  const ExpirationVar := "JWT_EXPIRATION_TIME"
  const RefreshExpireDays := 7

  /** The default the code gives JWT_EXPIRATION_TIME, read as minutes. */
  const ExpirationDefaultAsWritten := "3600"
  /** The default that makes the access lifetime the one hour its comment announces. */
  const ExpirationDefault := "60"

  const SecondsPerMinute := 60
  const SecondsPerDay := 24 * 60 * 60

  datatype AuthConfig = AuthConfig(secretKey: string, algorithm: string, accessExpireMinutes: int, refreshExpireDays: int)

  /**
   * The characters Python's `str.isspace()` accepts: `int()` turns each into
   * a space and then ignores the spaces around the number.
   */
  const PySpaces: set<char> := {
    '\t', '\n', '\U{000B}', '\U{000C}', '\r', '\U{001C}', '\U{001D}', '\U{001E}', '\U{001F}', ' ',
    '\U{0085}', '\U{00A0}', '\U{1680}', '\U{2000}', '\U{2001}', '\U{2002}', '\U{2003}', '\U{2004}',
    '\U{2005}', '\U{2006}', '\U{2007}', '\U{2008}', '\U{2009}', '\U{200A}', '\U{2028}', '\U{2029}',
    '\U{202F}', '\U{205F}', '\U{3000}'}

  predicate AllDigits(s: string) {
    forall i :: 0 <= i < |s| ==> IsDigit(s[i])
  }

  /** `t` is an optional sign, "+" or "-", followed by a non-empty run of ASCII digits `d`. */
  predicate SignedDigits(t: string, sign: string, d: string) {
    (sign == "" || sign == "+" || sign == "-") && d != [] && AllDigits(d) && t == sign + d
  }

  /** The value of a signed run of digits. */
  function SignedValue(sign: string, d: string): int
    requires AllDigits(d)
  {
    if sign == "-" then -(DigitsValue(d) as int) else DigitsValue(d)
  }

  /**
   * Python's `int(s)` on a decimal string: once the surrounding white space
   * is stripped, an optional sign and at least one digit, read as their
   * value; anything else ("", "abc", "1.5", "--1", "+") raises ValueError (None).
   */
  function ParseInt(s: string): (r: Option<int>)
    ensures r.Some? <==> exists sign, d :: SignedDigits(Strip(s, PySpaces), sign, d)
    ensures forall sign, d :: SignedDigits(Strip(s, PySpaces), sign, d) ==> r == Some(SignedValue(sign, d))
  {
    ParseSignedSpec(Strip(s, PySpaces));
    ParseSigned(Strip(s, PySpaces))
  }

  /** An optional sign followed by at least one digit, with nothing around them. */
  function ParseSigned(t: string): (r: Option<int>)
    ensures r.Some? ==> t != []
  {
    if t == [] then None
    else
      var negative := t[0] == '-';
      var digits := if t[0] == '-' || t[0] == '+' then t[1..] else t;
      if digits != [] && AllDigits(digits) then
        var value: int := DigitsValue(digits);
        Some(if negative then -value else value)
      else None
  }

  lemma ParseSignedSpec(t: string)
    ensures ParseSigned(t).Some? <==> exists sign, d :: SignedDigits(t, sign, d)
    ensures forall sign, d :: SignedDigits(t, sign, d) ==> ParseSigned(t) == Some(SignedValue(sign, d))
  {
    if ParseSigned(t).Some? {
      var sign := if t[0] == '-' || t[0] == '+' then t[..1] else "";
      var d := if t[0] == '-' || t[0] == '+' then t[1..] else t;
      assert SignedDigits(t, sign, d);
    }
    forall sign, d | SignedDigits(t, sign, d)
      ensures ParseSigned(t) == Some(SignedValue(sign, d))
    {
      ParseSignedDigits(sign, d);
    }
  }

  lemma ParseSignedDigits(sign: string, d: string)
    requires SignedDigits(sign + d, sign, d)
    ensures ParseSigned(sign + d) == Some(SignedValue(sign, d))
  {
    var t := sign + d;
    if sign == "" {
      assert t == d && IsDigit(d[0]);
    } else {
      assert t[0] == sign[0] && t[1..] == d;
    }
  }

  /** `int(str(n)) == n`: what Python writes for an integer reads back as it. */
  lemma ParseIntOfString(n: int)
    ensures ParseInt(IntToString(n)) == Some(n)
  {
    var m: nat := if n < 0 then -n else n;
    var d := NatToString(m);
    var sign := if n < 0 then "-" else "";
    assert IntToString(n) == sign + d;
    DigitsValueOfNatToString(m);
    assert SignedValue(sign, d) == n;
    ParseIntDigits(sign, d);
  }

  /** A sign and a run of digits, with nothing around them, read back as their value. */
  lemma ParseIntDigits(sign: string, d: string)
    requires sign == "" || sign == "+" || sign == "-"
    requires d != [] && AllDigits(d)
    ensures ParseInt(sign + d) == Some(SignedValue(sign, d))
  {
    var s := sign + d;
    assert IsDigit(d[0]) && IsDigit(d[|d| - 1]);
    assert s[|s| - 1] == d[|d| - 1];
    NotSpace(s[|s| - 1]);
    NotSpace(s[0]);
    StripUntouched(s);
    assert SignedDigits(s, sign, d);
  }

  /** White space around the text makes no difference to what `int()` reads. */
  lemma ParseIntIgnoresPadding(pre: string, t: string, post: string)
    requires forall i :: 0 <= i < |pre| ==> pre[i] in PySpaces
    requires forall i :: 0 <= i < |post| ==> post[i] in PySpaces
    requires t != [] && t[0] !in PySpaces && t[|t| - 1] !in PySpaces
    ensures ParseInt(pre + t + post) == ParseInt(t)
  {
    assert pre + t + post == pre + (t + post);
    assert (t + post)[0] == t[0];
    StripStartPrefix(pre, t + post, PySpaces);
    StripEndSuffix(t, post, PySpaces);
    StripUntouched(t);
  }

  lemma NotSpace(c: char)
    requires IsDigit(c) || c == '-' || c == '+'
    ensures c !in PySpaces
  {
    assert c as int > 0x20 && c as int < 0x80;
  }

  /** A string that neither starts nor ends with white space is its own `strip()`. */
  lemma StripUntouched(s: string)
    requires s != [] && s[0] !in PySpaces && s[|s| - 1] !in PySpaces
    ensures Strip(s, PySpaces) == s
  {
    assert StripStart(s, PySpaces) == s;
  }

  /**
   * The class body of `AuthConfig`: the key falls back when BETTER_AUTH_SECRET
   * is unset, and configuration fails when JWT_EXPIRATION_TIME (or, unset,
   * its default) is not an integer.
   */
  function LoadWith(env: map<string, string>, expirationDefault: string): (r: Result<AuthConfig>)
    ensures var text := if ExpirationVar in env then env[ExpirationVar] else expirationDefault;
      (r.Success? <==> ParseInt(text).Some?) &&
      (r.Success? ==> ParseInt(text) == Some(r.value.accessExpireMinutes))
    ensures r.Success? ==>
      r.value.algorithm == Algorithm && r.value.refreshExpireDays == RefreshExpireDays &&
      r.value.secretKey == (if SecretVar in env then env[SecretVar] else FallbackSecret)
  {
    var secret := if SecretVar in env then env[SecretVar] else FallbackSecret;
    var minutes := ParseInt(if ExpirationVar in env then env[ExpirationVar] else expirationDefault);
    if minutes.None? then Failure("invalid literal for int() with base 10")
    else Success(AuthConfig(secret, Algorithm, minutes.value, RefreshExpireDays))
  }

  /** The configuration as the code reads it. */
  function LoadAuthConfigAsWritten(env: map<string, string>): Result<AuthConfig> {
    LoadWith(env, ExpirationDefaultAsWritten)
  }

  /** The configuration with the default corrected; the rest of the model is meant to run on this one. */
  function LoadAuthConfig(env: map<string, string>): Result<AuthConfig> {
    LoadWith(env, ExpirationDefault)
  }

  /** `timedelta(minutes=ACCESS_TOKEN_EXPIRE_MINUTES)`, in seconds. */
  function AccessTokenExpireDelta(c: AuthConfig): int {
    c.accessExpireMinutes * SecondsPerMinute
  }

  /** `timedelta(days=REFRESH_TOKEN_EXPIRE_DAYS)`, in seconds. */
  function RefreshTokenExpireDelta(c: AuthConfig): int {
    c.refreshExpireDays * SecondsPerDay
  }

  /**
   * As written, an unset JWT_EXPIRATION_TIME gives access tokens a lifetime
   * of 3600 minutes: sixty hours, not the hour the comment and the client's
   * configuration announce.
   */
  lemma AsWrittenDefaultIsSixtyHours(env: map<string, string>, clientEnv: map<string, string>)
    requires ExpirationVar !in env
    ensures LoadAuthConfigAsWritten(env).Success?
    ensures AccessTokenExpireDelta(LoadAuthConfigAsWritten(env).value) == 60 * 60 * 60
    ensures AccessTokenExpireDelta(LoadAuthConfigAsWritten(env).value) ==
      60 * WebAuthConfig.ConfigOf(clientEnv).accessTokenExpiration
  {
    DefaultsParse();
  }

  /**
   * With the corrected default an unset JWT_EXPIRATION_TIME gives one hour,
   * the client's `accessTokenExpiration`; refresh tokens last one week.
   */
  lemma DefaultLifetimes(env: map<string, string>, clientEnv: map<string, string>)
    requires ExpirationVar !in env
    ensures LoadAuthConfig(env).Success?
    ensures AccessTokenExpireDelta(LoadAuthConfig(env).value) == 60 * 60
    ensures AccessTokenExpireDelta(LoadAuthConfig(env).value) ==
      WebAuthConfig.ConfigOf(clientEnv).accessTokenExpiration
    ensures RefreshTokenExpireDelta(LoadAuthConfig(env).value) == 604800 ==
      WebAuthConfig.ConfigOf(clientEnv).refreshTokenExpiration
  {
    DefaultsParse();
  }

  lemma DefaultsParse()
    ensures ParseInt(ExpirationDefaultAsWritten) == Some(3600)
    ensures ParseInt(ExpirationDefault) == Some(60)
  {
    AsWrittenDefaultParses();
    DefaultParses();
  }

  lemma AsWrittenDefaultParses()
    ensures ParseInt(ExpirationDefaultAsWritten) == Some(3600)
  {
    var w := ExpirationDefaultAsWritten;
    assert AllDigits(w);
    assert w[..3] == "360" && w[..3][..2] == "36" && w[..3][..2][..1] == "3";
    assert DigitsValue("3") == 3 by {
      assert "3"[..0] == [];
    }
    assert DigitsValue("36") == 36 by {
      assert "36"[..1] == "3";
    }
    assert DigitsValue("360") == 360 by {
      assert "360"[..2] == "36";
    }
    assert DigitsValue(w) == 3600;
    ParseIntDigits("", w);
    assert "" + w == w;
  }

  lemma DefaultParses()
    ensures ParseInt(ExpirationDefault) == Some(60)
  {
    var c := ExpirationDefault;
    assert AllDigits(c);
    assert c[..1] == "6";
    assert DigitsValue("6") == 6 by {
      assert "6"[..0] == [];
    }
    assert DigitsValue(c) == 60;
    ParseIntDigits("", c);
    assert "" + c == c;
  }
}
