/** The request middleware (src/middleware.ts): public paths pass, any
    other path needs a session and otherwise redirects to the login page
    with the requested path as `callbackUrl`. Which requests reach the
    middleware at all is decided by the framework's matcher and is not part
    of this model. */
module Middleware {
  import opened Text

  const PublicPaths: seq<string> := ["/", "/login", "/api/auth"]

  /** A public path is one of the entries or lies below one of them. */
  predicate IsPublicPath(pathname: string) {
    exists i :: 0 <= i < |PublicPaths| && (pathname == PublicPaths[i] || StartsWith(pathname, PublicPaths[i] + "/"))
  }

  datatype Decision = Next | RedirectToLogin(callbackUrl: string)

  /** The middleware's decision for a path, given whether the request
      carries a session. */
  function Decide(pathname: string, authenticated: bool): (d: Decision)
    ensures d.RedirectToLogin? <==> !IsPublicPath(pathname) && !authenticated
    ensures d.RedirectToLogin? ==> d.callbackUrl == pathname
  {
    if IsPublicPath(pathname) then Next
    else if !authenticated then RedirectToLogin(pathname)
    else Next
  }

  /** The public paths spelled out; `"/"` only covers itself and paths
      that start with `"//"`. */
  lemma PublicPathIff(pathname: string)
    ensures IsPublicPath(pathname) <==>
      || pathname == "/" || StartsWith(pathname, "//")
      || pathname == "/login" || StartsWith(pathname, "/login/")
      || pathname == "/api/auth" || StartsWith(pathname, "/api/auth/")
  {
    assert PublicPaths[0] + "/" == "//";
    assert PublicPaths[1] + "/" == "/login/";
    assert PublicPaths[2] + "/" == "/api/auth/";
  }

  /** The login page and the authentication endpoints below it are public;
      a path that only shares a prefix with an entry is not, and neither is
      the dashboard, which an anonymous request is sent away from. */
  lemma Examples()
    ensures IsPublicPath("/login") && IsPublicPath("/api/auth/session")
    ensures !IsPublicPath("/loginx") && !IsPublicPath("/dashboard")
    ensures Decide("/dashboard", false) == RedirectToLogin("/dashboard")
    ensures Decide("/dashboard", true) == Next
  {
    PublicPathIff("/login");
    PublicPathIff("/api/auth/session");
    assert StartsWith("/api/auth/session", "/api/auth/") by {
      assert "/api/auth/session"[..10] == "/api/auth/";
    }
    PublicPathIff("/loginx");
    assert !StartsWith("/loginx", "//") by { assert "/loginx"[1] == 'l'; }
    assert !StartsWith("/loginx", "/login/") by { assert "/loginx"[6] == 'x'; }
    assert !StartsWith("/loginx", "/api/auth/") by { assert "/loginx"[1] == 'l'; }
    PublicPathIff("/dashboard");
    assert !StartsWith("/dashboard", "//") by { assert "/dashboard"[1] == 'd'; }
    assert !StartsWith("/dashboard", "/login/") by { assert "/dashboard"[1] == 'd'; }
    assert !StartsWith("/dashboard", "/api/auth/") by { assert "/dashboard"[1] == 'd'; }
  }
}
