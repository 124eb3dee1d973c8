/**
 * The session gate of src/middleware.ts: a decision, taken before a page
 * renders, from the `token` cookie and the requested pathname to either
 * "let the request through" or "redirect to another pathname".
 */
module Middleware {
  import opened Wrappers

  /** The components of a request URL; `nextUrl.clone()` copies every one of them. */
  datatype Url = Url(protocol: string, host: string, pathname: string, search: string, hash: string)

  /** What the gate looks at: the value of the `token` cookie, if sent, and the request URL. */
  datatype Request = Request(tokenCookie: Option<string>, nextUrl: Url)

  /** `NextResponse.next()` or `NextResponse.redirect(url)`. */
  datatype Decision = Next | Redirect(url: Url)

  const SignInPath := "/sign-in"
  const SignUpPath := "/sign-up"
  const MoviesPath := "/movies"

  // The protected set, tested with exact membership: the edit entry is a literal string, not a pattern.
  const ProtectedPaths: set<string> := {"/", "/add", "/edit/*"}

  /** JavaScript truthiness of the cookie value: a missing cookie and an empty value both count as no token. */
  predicate HasToken(cookie: Option<string>)
  {
    cookie.Some? && cookie.value != ""
  }

  predicate IsAuthPage(path: string)
  {
    path == SignInPath || path == SignUpPath
  }

  /** The gate as written. */
  function Gate(req: Request): (d: Decision)
    // the decision table: which requests are redirected
    ensures d.Redirect? <==>
              if HasToken(req.tokenCookie) then IsAuthPage(req.nextUrl.pathname)
              else req.nextUrl.pathname in ProtectedPaths
    // where they are sent
    ensures d.Redirect? ==>
              d.url.pathname == if HasToken(req.tokenCookie) then MoviesPath else SignInPath
    // a redirect changes the pathname and no other component of the URL
    ensures d.Redirect? ==> d.url == req.nextUrl.(pathname := d.url.pathname)
  {
    var url := req.nextUrl;
    if !HasToken(req.tokenCookie) then
      if url.pathname in ProtectedPaths then Redirect(url.(pathname := SignInPath)) else Next
    else
      if url.pathname == SignInPath || url.pathname == SignUpPath then Redirect(url.(pathname := MoviesPath))
      else Next
  }

  lemma NoTokenProtectedRedirectsToSignIn(cookie: Option<string>, url: Url)
    requires !HasToken(cookie)
    requires url.pathname == "/" || url.pathname == "/add" || url.pathname == "/edit/*"
    ensures Gate(Request(cookie, url)) == Redirect(url.(pathname := "/sign-in"))
  {
  }

  lemma NoTokenElsewherePasses(cookie: Option<string>, url: Url)
    requires !HasToken(cookie)
    requires url.pathname !in ProtectedPaths
    ensures Gate(Request(cookie, url)) == Next
  {
  }

  /** The concrete paths an unauthenticated user reaches without a redirect, an edit page among them. */
  lemma NoTokenUnprotectedExamples(cookie: Option<string>, url: Url)
    requires !HasToken(cookie)
    requires url.pathname in {"/edit/42", "/sign-in", "/movies"}
    ensures Gate(Request(cookie, url)) == Next
  {
  }

  /** An empty cookie value is treated exactly as a missing cookie. */
  lemma EmptyTokenIsNoToken(url: Url)
    ensures Gate(Request(Some(""), url)) == Gate(Request(None, url))
  {
  }

  lemma TokenOnAuthPageRedirectsToMovies(cookie: Option<string>, url: Url)
    requires HasToken(cookie)
    requires url.pathname == "/sign-in" || url.pathname == "/sign-up"
    ensures Gate(Request(cookie, url)) == Redirect(url.(pathname := "/movies"))
  {
  }

  /** With a token every other path passes, the protected ones included. */
  lemma TokenElsewherePasses(cookie: Option<string>, url: Url)
    requires HasToken(cookie)
    requires url.pathname != "/sign-in" && url.pathname != "/sign-up"
    ensures Gate(Request(cookie, url)) == Next
  {
  }

  /** Following a redirect with the same cookie is let through: the gate never loops. */
  lemma NoRedirectLoop(req: Request)
    requires Gate(req).Redirect?
    ensures Gate(Request(req.tokenCookie, Gate(req).url)) == Next
  {
  }

  // ----- the gate with the edit pattern as evidently intended -----

  const EditPrefix := "/edit/"

  /** A path of the edit page, `/edit/<id>` for a non-empty id. */
  predicate IsEditPath(path: string)
  {
    |path| > |EditPrefix| && path[..|EditPrefix|] == EditPrefix
  }

  predicate IsProtectedIntended(path: string)
  {
    path == "/" || path == "/add" || IsEditPath(path)
  }

  // The gate with the edit entry read as a pattern over edit-page paths.
  function GateIntended(req: Request): (d: Decision)
    ensures d.Redirect? <==>
              if HasToken(req.tokenCookie) then IsAuthPage(req.nextUrl.pathname)
              else IsProtectedIntended(req.nextUrl.pathname)
    ensures d.Redirect? ==>
              d.url.pathname == if HasToken(req.tokenCookie) then MoviesPath else SignInPath
    ensures d.Redirect? ==> d.url == req.nextUrl.(pathname := d.url.pathname)
  {
    var url := req.nextUrl;
    if !HasToken(req.tokenCookie) then
      if IsProtectedIntended(url.pathname) then Redirect(url.(pathname := SignInPath)) else Next
    else
      if IsAuthPage(url.pathname) then Redirect(url.(pathname := MoviesPath)) else Next
  }

  /** As written, an edit page is reachable without a token. */
  lemma EditPageUnprotected(url: Url)
    requires url.pathname == "/edit/42"
    ensures Gate(Request(None, url)) == Next
    ensures GateIntended(Request(None, url)) == Redirect(url.(pathname := SignInPath))
  {
  }

  /** The intended gate sends every edit-page request without a token to sign-in. */
  lemma IntendedGuardsEditPages(cookie: Option<string>, url: Url, id: string)
    requires !HasToken(cookie)
    requires id != [] && url.pathname == EditPrefix + id
    ensures GateIntended(Request(cookie, url)) == Redirect(url.(pathname := SignInPath))
  {
  }

  /** The intended gate never loops either. */
  lemma IntendedNoRedirectLoop(req: Request)
    requires GateIntended(req).Redirect?
    ensures GateIntended(Request(req.tokenCookie, GateIntended(req).url)) == Next
  {
    var target := GateIntended(req).url.pathname;
    if !HasToken(req.tokenCookie) {
      assert target == SignInPath;
      assert !IsEditPath(target) by {
        assert target[..|EditPrefix|] != EditPrefix by {
          assert target[1] != EditPrefix[1];
        }
      }
    }
  }

  /** Off the edit pages both gates decide alike. */
  lemma IntendedAgreesOffEditPages(req: Request)
    requires !IsEditPath(req.nextUrl.pathname)
    ensures GateIntended(req) == Gate(req)
  {
  }
}
