/**
 * The client's configuration (frontend/src/config/auth_config.ts). Loading it
 * validates the four public environment variables; when validation fails it
 * overwrites all four in `process.env` with development values, which every
 * later reader of the environment then sees.
 */
module WebAuthConfig {
  import opened Js
  import opened Strings

  const FallbackAuthUrl := "http://localhost:3000"
  const FallbackApiBaseUrl := "http://localhost:8000"
  const FallbackTokenKey := "auth_token"
  const FallbackRefreshKey := "refresh_token"

  /** The values written into `process.env` when validation fails. */
  const FallbackEnv: map<string, string> := map[
    AuthUrlVar := FallbackAuthUrl, ApiBaseUrlVar := FallbackApiBaseUrl,
    AccessKeyVar := FallbackTokenKey, RefreshKeyVar := FallbackRefreshKey]

  datatype AuthConfig = AuthConfig(
    baseUrl: string, authUrl: string, tokenKey: string, refreshTokenKey: string,
    accessTokenExpiration: nat, refreshTokenExpiration: nat, apiTimeout: nat,
    defaultErrorMessage: string, unauthorizedMessage: string, forbiddenMessage: string,
    passwordMinLength: nat, passwordRules: seq<string>)

  /** The mutable `process.env`. */
  class ProcessEnv {
    var vars: map<string, string>

    constructor (vars: map<string, string>)
      ensures this.vars == vars
    {
      this.vars := vars;
    }
  }

  /**
   * The schema's verdict: the two URL variables, when present, must be URLs
   * (`isUrl` stands for zod's URL check); the key variables accept any string.
   */
  predicate EnvValid(vars: map<string, string>, isUrl: string -> bool) {
    (AuthUrlVar in vars ==> isUrl(vars[AuthUrlVar])) && (ApiBaseUrlVar in vars ==> isUrl(vars[ApiBaseUrlVar]))
  }

  /** The exported `authConfig`, read from the environment as it stands after validation. */
  function ConfigOf(vars: map<string, string>): (c: AuthConfig)
    ensures c.tokenKey != "" && c.refreshTokenKey != "" && c.baseUrl != "" && c.authUrl != ""
  {
    AuthConfig(
      KeyName(vars, ApiBaseUrlVar, FallbackApiBaseUrl), KeyName(vars, AuthUrlVar, FallbackAuthUrl),
      KeyName(vars, AccessKeyVar, FallbackTokenKey), KeyName(vars, RefreshKeyVar, FallbackRefreshKey),
      3600, 7 * 24 * 3600, 10000,
      "An unexpected error occurred", "Authentication required", "Access forbidden",
      8, ["At least 8 characters long", "Contains uppercase letter", "Contains lowercase letter",
          "Contains number", "Contains special character"])
  }

  /** Loading the module: validate, fall back if invalid, then build the configuration. */
  method LoadAuthConfig(env: ProcessEnv, isUrl: string -> bool) returns (config: AuthConfig)
    modifies env
    ensures EnvValid(old(env.vars), isUrl) ==> env.vars == old(env.vars)
    ensures !EnvValid(old(env.vars), isUrl) ==> env.vars == old(env.vars) + FallbackEnv
    ensures config == ConfigOf(env.vars)
  {
    if !EnvValid(env.vars, isUrl) {
      env.vars := env.vars[AuthUrlVar := FallbackAuthUrl];
      env.vars := env.vars[ApiBaseUrlVar := FallbackApiBaseUrl];
      env.vars := env.vars[AccessKeyVar := FallbackTokenKey];
      env.vars := env.vars[RefreshKeyVar := FallbackRefreshKey];
      FallbackWrites(old(env.vars));
    }
    config := ConfigOf(env.vars);
  }

  /** The four assignments of the fallback branch overlay `FallbackEnv`. */
  lemma FallbackWrites(vars: map<string, string>)
    ensures vars[AuthUrlVar := FallbackAuthUrl][ApiBaseUrlVar := FallbackApiBaseUrl]
      [AccessKeyVar := FallbackTokenKey][RefreshKeyVar := FallbackRefreshKey] == vars + FallbackEnv
  {
  }

  /**
   * After a failed validation the configuration is the development one
   * whatever was set before, and the API client, which falls back to
   * `access_token` itself, now stores tokens under `auth_token` too.
   */
  lemma FallbackConfig(vars: map<string, string>, isUrl: string -> bool)
    requires !EnvValid(vars, isUrl)
    ensures var c := ConfigOf(vars + FallbackEnv);
      c.baseUrl == FallbackApiBaseUrl && c.authUrl == FallbackAuthUrl &&
      c.tokenKey == FallbackTokenKey && c.refreshTokenKey == FallbackRefreshKey
    ensures KeyName(vars + FallbackEnv, AccessKeyVar, "access_token") == FallbackTokenKey
  {
  }

  /**
   * With a valid environment that leaves the token key unset, the
   * configuration names `auth_token` while the API client stores under
   * `access_token`: the two disagree.
   */
  lemma ValidEnvKeysDisagree(vars: map<string, string>, isUrl: string -> bool)
    requires EnvValid(vars, isUrl) && AccessKeyVar !in vars
    ensures ConfigOf(vars).tokenKey == FallbackTokenKey
    ensures KeyName(vars, AccessKeyVar, "access_token") == "access_token" != ConfigOf(vars).tokenKey
  {
  }

  /** The two lifetimes are one hour and one week, in seconds. */
  lemma Lifetimes(vars: map<string, string>)
    ensures ConfigOf(vars).accessTokenExpiration == 60 * 60
    ensures ConfigOf(vars).refreshTokenExpiration == 7 * ConfigOf(vars).accessTokenExpiration * 24
  {
  }

  /**
   * `emailRegex`, `/^[^\s@]+@[^\s@]+\.[^\s@]+$/`: no white space, exactly one
   * `@` with text before it, and a `.` after it with text on both sides.
   */
  predicate ConfigEmailValid(s: string) {
    (forall k :: 0 <= k < |s| ==> !IsJsSpace(s[k])) &&
    exists at, dot :: 0 < at && at + 1 < dot && dot + 1 < |s| && ConfigEmailAt(s, at, dot)
  }

  predicate ConfigEmailAt(s: string, at: int, dot: int)
    requires 0 <= at < |s| && 0 <= dot < |s|
  {
    s[at] == '@' && s[dot] == '.' && forall k :: 0 <= k < |s| && k != at ==> s[k] != '@'
  }
}
