/**
 * The Next.js middleware: pages under "/profile" and "/register" need a
 * NextAuth token; without one the visitor is sent to the login page.
 */
module Middleware {
  import opened Text

  /** `pathname.startsWith("/profile") || pathname.startsWith("/register")` */
  predicate IsProtectedPath(pathname: string) {
    StartsWith(pathname, "/profile") || StartsWith(pathname, "/register")
  }

  /** What the middleware answers. */
  datatype Decision =
    | Next
    | Redirect(path: string, callbackUrl: string)

  /**
   * `middleware`: a protected path without a token is redirected to
   * "/login" with `callbackUrl` set to the encoded request URL; everything
   * else passes. `encodeUri` stands for `encodeURI`.
   */
  function Decide(pathname: string, requestUrl: string, hasToken: bool, encodeUri: string -> string)
    : (d: Decision)
    ensures d.Redirect? <==> IsProtectedPath(pathname) && !hasToken
    ensures d.Redirect? ==> d == Redirect("/login", encodeUri(requestUrl))
  {
    if IsProtectedPath(pathname) && !hasToken then Redirect("/login", encodeUri(requestUrl)) else Next
  }

  /** The protected area is every path with one of the two prefixes, sub-pages included. */
  lemma ProtectedPrefixes(suffix: string)
    ensures IsProtectedPath("/profile" + suffix) && IsProtectedPath("/register" + suffix)
  {
    assert ("/profile" + suffix)[..|"/profile"|] == "/profile";
    assert ("/register" + suffix)[..|"/register"|] == "/register";
  }

  /**
   * `config.matcher`: "/profile/:path*" and "/register/:path*" select each
   * page itself and every path below it; Next.js runs the middleware on
   * those paths only.
   */
  predicate Matched(pathname: string) {
    pathname == "/profile" || StartsWith(pathname, "/profile/")
    || pathname == "/register" || StartsWith(pathname, "/register/")
  }

  /** Every path the matcher selects passes the middleware's own prefix test. */
  lemma MatchedIsProtected(pathname: string)
    requires Matched(pathname)
    ensures IsProtectedPath(pathname)
  {
    if StartsWith(pathname, "/profile/") {
      assert pathname[..|"/profile"|] == pathname[..|"/profile/"|][..|"/profile"|];
    } else if StartsWith(pathname, "/register/") {
      assert pathname[..|"/register"|] == pathname[..|"/register/"|][..|"/register"|];
    }
  }

  /**
   * What a request receives: paths the matcher does not select pass
   * untouched; the others get `middleware`'s decision. So a redirect
   * happens iff the path is matched and there is no token.
   */
  function Respond(pathname: string, requestUrl: string, hasToken: bool, encodeUri: string -> string)
    : (d: Decision)
    ensures d.Redirect? <==> Matched(pathname) && !hasToken
    ensures d.Redirect? ==> d == Redirect("/login", encodeUri(requestUrl))
  {
    if Matched(pathname) then
      MatchedIsProtected(pathname);
      Decide(pathname, requestUrl, hasToken, encodeUri)
    else
      Next
  }

  /** Both pages and everything below them are guarded. */
  lemma MatcherCoversSubPages(suffix: string)
    ensures Matched("/profile") && Matched("/register")
    ensures Matched("/profile/" + suffix) && Matched("/register/" + suffix)
  {
    assert ("/profile/" + suffix)[..|"/profile/"|] == "/profile/";
    assert ("/register/" + suffix)[..|"/register/"|] == "/register/";
  }

  /**
   * The prefix test alone would guard "/profiles", but the matcher does not
   * select it, so it passes without a token.
   */
  lemma SimilarPathPasses(requestUrl: string, encodeUri: string -> string)
    ensures IsProtectedPath("/profiles")
    ensures Respond("/profiles", requestUrl, false, encodeUri) == Next
  {
    ProtectedPrefixes("s");
    assert "/profiles"[8] != "/profile/"[8];
    assert "/profiles"[1] != "/register"[1];
  }

  /** Public pages pass without a token. */
  lemma PublicPagesPass(requestUrl: string, encodeUri: string -> string)
    ensures Respond("/", requestUrl, false, encodeUri) == Next
    ensures Respond("/search", requestUrl, false, encodeUri) == Next
    ensures Respond("/login", requestUrl, false, encodeUri) == Next
  {
    assert "/search"[1] != "/register"[1] && "/search"[1] != "/profile"[1];
    assert "/login"[1] != "/profile"[1] && "/login"[1] != "/register"[1];
  }
}
