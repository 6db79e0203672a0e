/** The route gate (middleware.ts): an app route without an access token is sent to
    the sign-in page; every other request goes on. */
module Middleware {
  import opened Base

  const APP_PREFIX := "/app"
  const SIGNIN := "/signin"
  const TOKEN_COOKIE := "sb-access-token"

  /** The request URL; only the path is read, everything else is carried along. */
  datatype Url = Url(origin: string, pathname: string, search: string)

  datatype Request = Request(nextUrl: Url, cookies: map<string, string>)

  datatype Decision = Redirect(location: Url) | Next

  predicate StartsWith(s: string, prefix: string) {
    |prefix| <= |s| && s[..|prefix|] == prefix
  }

  /** `req.cookies.get("sb-access-token")?.value`. */
  function Token(req: Request): Option<string> {
    if TOKEN_COOKIE in req.cookies then Some(req.cookies[TOKEN_COOKIE]) else None
  }

  function Gate(req: Request): (d: Decision)
    ensures d.Redirect? <==> StartsWith(req.nextUrl.pathname, APP_PREFIX) && !Truthy(Token(req))
    ensures d.Redirect? ==> d.location == req.nextUrl.(pathname := SIGNIN)
  {
    if StartsWith(req.nextUrl.pathname, APP_PREFIX) && !Truthy(Token(req)) then
      Redirect(req.nextUrl.(pathname := SIGNIN))
    else Next
  }

  /** The prefix test is literal: "/apple" is gated like "/app/home". */
  lemma PrefixIsLiteral(cookies: map<string, string>, origin: string, search: string)
    requires TOKEN_COOKIE !in cookies
    ensures Gate(Request(Url(origin, "/apple", search), cookies)).Redirect?
    ensures Gate(Request(Url(origin, "/app/home", search), cookies)).Redirect?
    ensures Gate(Request(Url(origin, "/ap", search), cookies)) == Next
  {
    assert "/apple"[..4] == APP_PREFIX;
    assert "/app/home"[..4] == APP_PREFIX;
  }

  /** A present, non-empty token always passes; an empty one does not. */
  lemma TokenDecides(req: Request)
    requires StartsWith(req.nextUrl.pathname, APP_PREFIX)
    ensures TOKEN_COOKIE in req.cookies && req.cookies[TOKEN_COOKIE] != "" ==> Gate(req) == Next
    ensures TOKEN_COOKIE in req.cookies && req.cookies[TOKEN_COOKIE] == "" ==> Gate(req).Redirect?
  {
  }

  /** Following the redirect is never redirected again: "/signin" is not an app route. */
  lemma RedirectTargetPasses(req: Request)
    requires Gate(req).Redirect?
    ensures Gate(Request(Gate(req).location, req.cookies)) == Next
  {
    assert SIGNIN[..4][1] != APP_PREFIX[1];
  }
}
