/**
 * The Next.js route guard (frontend/src/middleware/auth_middleware.ts):
 * protected pages require a token, and a signed-in visitor is sent from the
 * sign-in and sign-up pages to the task list.
 */
module WebRouteGuard {
  import opened Wrappers
  import opened Strings
  import opened Js

  const ProtectedRoutes: seq<string> := ["/tasks", "/profile", "/settings"]
  const PublicRoutes: seq<string> := ["/auth/signin", "/auth/signup", "/"]
  const SignInPage := "/auth/signin"
  const SignUpPage := "/auth/signup"
  const TasksPage := "/tasks"
  const CookieFallbackKey := "auth_token"

  /** What the guard sees of a navigation. */
  datatype Navigation = Navigation(pathname: string, cookies: map<string, string>, authorization: Option<string>)

  /** `NextResponse.next()`, or a redirect to `path` with an optional `callbackUrl` search parameter. */
  datatype Decision = Next | Redirect(path: string, callbackUrl: Option<string>)

  /** `protectedRoutes.some(route => pathname.startsWith(route))`. */
  predicate IsProtected(pathname: string) {
    exists route :: route in ProtectedRoutes && StartsWith(pathname, route)
  }

  /**
   * The token: the cookie named `NEXT_PUBLIC_JWT_TOKEN_KEY || 'auth_token'`,
   * else the `authorization` header with its first "Bearer " removed.
   */
  function NavigationToken(env: map<string, string>, nav: Navigation): Option<string> {
    var key := KeyName(env, AccessKeyVar, CookieFallbackKey);
    var cookie := if key in nav.cookies then Some(nav.cookies[key]) else None;
    var header := if nav.authorization.Some? then Some(ReplaceFirst(nav.authorization.value, "Bearer ", "")) else None;
    OrElse(cookie, header)
  }

  /** `authMiddleware` for a navigation the matcher sends to it. */
  function Decide(env: map<string, string>, nav: Navigation): Decision {
    var hasToken := Truthy(NavigationToken(env, nav));
    if IsProtected(nav.pathname) && !hasToken then Redirect(SignInPage, Some(nav.pathname))
    else if nav.pathname in PublicRoutes && hasToken &&
            (StartsWith(nav.pathname, SignInPage) || StartsWith(nav.pathname, SignUpPage))
    then Redirect(TasksPage, None)
    else Next
  }

  /**
   * The matcher `/((?!api|_next/static|_next/image|favicon.ico).*)`: every
   * path except those whose first segment begins with one of the excluded
   * prefixes (the `.` of `favicon.ico` matches any character).
   */
  predicate Matched(pathname: string) {
    |pathname| >= 1 && pathname[0] == '/' &&
    var rest := pathname[1..];
    !StartsWith(rest, "api") && !StartsWith(rest, "_next/static") && !StartsWith(rest, "_next/image") &&
    !(|rest| >= 11 && rest[..7] == "favicon" && rest[8..11] == "ico")
  }

  /** The guard as Next.js runs it: unmatched paths pass straight through. */
  function Guard(env: map<string, string>, nav: Navigation): Decision {
    if Matched(nav.pathname) then Decide(env, nav) else Next
  }

  /**
   * The guard's three outcomes, both ways: a tokenless visit to a protected
   * page goes to sign-in with the page as `callbackUrl`; a signed-in visit to
   * exactly the sign-in or sign-up page goes to the task list; every other
   * visit proceeds.
   */
  lemma DecideCases(env: map<string, string>, nav: Navigation)
    ensures var token := Truthy(NavigationToken(env, nav));
      (Decide(env, nav) == Redirect(SignInPage, Some(nav.pathname)) <==> IsProtected(nav.pathname) && !token) &&
      (Decide(env, nav) == Redirect(TasksPage, None) <==>
         token && (nav.pathname == SignInPage || nav.pathname == SignUpPage)) &&
      (Decide(env, nav) == Next <==>
         !(IsProtected(nav.pathname) && !token) && !(token && (nav.pathname == SignInPage || nav.pathname == SignUpPage)))
  {
    var p := nav.pathname;
    if p == SignInPage || p == SignUpPage {
      assert p in PublicRoutes && (StartsWith(p, SignInPage) || StartsWith(p, SignUpPage));
      NotProtected(p);
    }
    if p in PublicRoutes && (StartsWith(p, SignInPage) || StartsWith(p, SignUpPage)) {
      assert p == SignInPage || p == SignUpPage;
    }
  }

  /** The sign-in, sign-up and home pages are not protected. */
  lemma NotProtected(p: string)
    requires p in PublicRoutes
    ensures !IsProtected(p)
  {
    forall route | route in ProtectedRoutes
      ensures !StartsWith(p, route)
    {
      if |route| <= |p| {
        assert p[1] != route[1];
        assert p[..|route|][1] != route[1];
      }
    }
  }

  /**
   * Following a redirect never redirects again: the sign-in page is open to
   * everybody without a token, and the task list to everybody with one.
   */
  lemma NoRedirectLoop(env: map<string, string>, nav: Navigation)
    requires Decide(env, nav).Redirect?
    ensures Decide(env, nav.(pathname := Decide(env, nav).path)) == Next
  {
    DecideCases(env, nav);
    var target := nav.(pathname := Decide(env, nav).path);
    assert NavigationToken(env, target) == NavigationToken(env, nav);
    DecideCases(env, target);
    if Decide(env, nav).path == SignInPage {
      NotProtected(SignInPage);
    }
  }

  /**
   * Protection is by prefix, not by path segment: `/tasksfoo` and
   * `/settings-old` are protected too.
   */
  lemma PrefixProtection(pathname: string)
    requires StartsWith(pathname, "/tasks") || StartsWith(pathname, "/profile") || StartsWith(pathname, "/settings")
    ensures IsProtected(pathname)
  {
    if StartsWith(pathname, "/tasks") { assert "/tasks" in ProtectedRoutes; }
    else if StartsWith(pathname, "/profile") { assert "/profile" in ProtectedRoutes; }
    else { assert "/settings" in ProtectedRoutes; }
  }

  /**
   * The scheme is not checked: with no cookie, a `Basic` credential (any
   * header that does not start with "Bearer ") counts as a token.
   */
  lemma AnyHeaderIsAToken(env: map<string, string>, nav: Navigation, credentials: string)
    requires KeyName(env, AccessKeyVar, CookieFallbackKey) !in nav.cookies
    requires nav.authorization == Some("Basic " + credentials)
    ensures Truthy(NavigationToken(env, nav))
  {
    var h := "Basic " + credentials;
    assert h[1] == 'a';
    assert |h| >= 7 ==> h[..7][1] != "Bearer "[1];
    assert ReplaceFirst(h, "Bearer ", "") == [h[0]] + ReplaceFirst(h[1..], "Bearer ", "");
  }

  /** API routes and Next.js assets are never guarded. */
  lemma ApiPassesThrough(env: map<string, string>, nav: Navigation)
    requires StartsWith(nav.pathname, "/api")
    ensures Guard(env, nav) == Next
  {
    assert nav.pathname[1..][..3] == nav.pathname[..4][1..];
  }
}
