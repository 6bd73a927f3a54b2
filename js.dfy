/** JavaScript value conventions the client code relies on. */
module Js {
  import opened Wrappers

  /** A possibly-`undefined` string is truthy when it is present and non-empty. */
  predicate Truthy(v: Option<string>) {
    v.Some? && v.value != ""
  }

  /** `v || fallback` on a possibly-`undefined` string. */
  function Or(v: Option<string>, fallback: string): string {
    if Truthy(v) then v.value else fallback
  }

  /** `a || b` on two possibly-`undefined` strings: the first when it is truthy, else the second. */
  function OrElse(a: Option<string>, b: Option<string>): (r: Option<string>)
    ensures Truthy(r) <==> Truthy(a) || Truthy(b)
    ensures Truthy(a) ==> r == a
  {
    if Truthy(a) then a else b
  }

  /** The string `localStorage.setItem` stores for a possibly-`undefined` value. */
  function Stringify(v: Option<string>): string {
    if v.Some? then v.value else "undefined"
  }

  /** `process.env[name]`. */
  function EnvGet(env: map<string, string>, name: string): Option<string> {
    if name in env then Some(env[name]) else None
  }

  const AccessKeyVar := "NEXT_PUBLIC_JWT_TOKEN_KEY"
  const RefreshKeyVar := "NEXT_PUBLIC_REFRESH_TOKEN_KEY"
  const ApiBaseUrlVar := "NEXT_PUBLIC_API_BASE_URL"
  const AuthUrlVar := "NEXT_PUBLIC_BETTER_AUTH_URL"

  /** The storage key of a token: `process.env[name] || fallback`. */
  function KeyName(env: map<string, string>, name: string, fallback: string): (r: string)
    ensures r == fallback || (name in env && r == env[name] != "")
  {
    Or(EnvGet(env, name), fallback)
  }
}
