/** The admin route gate (middleware.ts): every path under "/admin" except
    the login page needs an `auth-token` cookie, and a request without one
    is sent to the login page with the path it asked for. */
module Middleware {
  import opened JsText

  const AdminPrefix: string := "/admin"
  const LoginPath: string := "/admin/login"
  const AuthCookie: string := "auth-token"

  /** A URL: the origin of the request, a path and the query parameters. */
  datatype Url = Url(origin: string, pathname: string, query: seq<(string, string)>)

  datatype Decision = Next | Redirect(location: Url)

  /** `middleware`, for a request to `origin` + `pathname` carrying the
      cookies `cookies`. Only whether the cookie is present is looked at. */
  function Gate(origin: string, pathname: string, cookies: map<string, string>): (d: Decision)
    ensures d.Redirect? <==> StartsWith(pathname, "/admin") && pathname != "/admin/login" && "auth-token" !in cookies
    ensures d.Redirect? ==> d.location == Url(origin, "/admin/login", [("redirect", pathname)])
  {
    if StartsWith(pathname, AdminPrefix) then
      if pathname == LoginPath then Next
      else if AuthCookie !in cookies then Redirect(Url(origin, LoginPath, [("redirect", pathname)]))
      else Next
    else Next
  }

  /** The decision depends on the path and on the cookie's presence only:
      its value is never read. */
  lemma GateSeesOnlyPresence(origin: string, pathname: string, c1: map<string, string>, c2: map<string, string>)
    requires (AuthCookie in c1) == (AuthCookie in c2)
    ensures Gate(origin, pathname, c1) == Gate(origin, pathname, c2)
  {
  }

  /** Following the redirect never redirects again: the login page always
      passes. */
  lemma RedirectTargetPasses(origin: string, pathname: string, cookies: map<string, string>, later: map<string, string>)
    requires Gate(origin, pathname, cookies).Redirect?
    ensures Gate(origin, Gate(origin, pathname, cookies).location.pathname, later) == Next
  {
  }

  /** The prefix test is on characters, not path segments, and the login
      page is matched exactly. */
  lemma PrefixIsTextual()
    ensures Gate("https://blog.example", "/administrator", map[]).Redirect?
    ensures Gate("https://blog.example", "/admin/login/", map[]).Redirect?
    ensures Gate("https://blog.example", "/blog/admin", map[]) == Next
  {
    assert "/administrator"[..6] == "/admin";
    assert "/admin/login/"[..6] == "/admin";
    assert "/blog/admin"[1] != "/admin"[1];
    assert |"/admin/login/"| != |"/admin/login"|;
  }
}
