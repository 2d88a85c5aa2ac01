/** The request middleware: it records the session's user for the handlers,
    lets API routes through, keeps signed-in users off the sign-in pages and
    sends anonymous users to the sign-in page with the page they asked for
    as a `redirect` query parameter. */
module RouteGuard {
  import opened Wrappers
  import opened Text

  const ApiPrefix := "/api/"
  const LoginPath := "/auth/login"
  const PublicRoutes: seq<string> :=
    [LoginPath, "/auth/register", "/auth/reset-password", "/auth/update-password"]
  const RedirectQuery := "?redirect="

  /** The signed-in user, as the session lookup returns it. */
  datatype User = User(id: string)

  /** Hand the request on to the page or route, or answer with a redirect. */
  datatype Decision = Next | Redirect(location: string)

  /** A URL's path is ASCII: the URL parser percent-encodes everything
      else. */
  predicate IsAscii(s: string) {
    forall i :: 0 <= i < |s| ==> s[i] as int < 128
  }

  /** The characters `encodeURIComponent` leaves as they are. */
  predicate Unreserved(c: char) {
    'A' <= c <= 'Z' || 'a' <= c <= 'z' || '0' <= c <= '9'
    || c == '-' || c == '_' || c == '.' || c == '!' || c == '~' || c == '*' || c == '\'' || c == '(' || c == ')'
  }

  /** An upper-case hexadecimal digit. */
  function HexDigit(n: nat): (c: char)
    requires n < 16
    ensures HexValue(c) == Some(n)
  {
    if n < 10 then ('0' as int + n) as char else ('A' as int + n - 10) as char
  }

  /** The value of a hexadecimal digit of either case. */
  function HexValue(c: char): (r: Option<nat>)
    ensures r.Some? ==> r.value < 16
  {
    if '0' <= c <= '9' then Some(c as int - '0' as int)
    else if 'A' <= c <= 'F' then Some(c as int - 'A' as int + 10)
    else if 'a' <= c <= 'f' then Some(c as int - 'a' as int + 10)
    else None
  }

  /** One ASCII character, escaped as `%XX` unless it is unreserved. */
  function EncodeChar(c: char): (r: string)
    requires c as int < 128
    ensures Unreserved(c) ==> r == [c]
    ensures !Unreserved(c) ==> |r| == 3 && r[0] == '%'
  {
    if Unreserved(c) then [c]
    else ['%', HexDigit(c as int / 16), HexDigit(c as int % 16)]
  }

  /** `encodeURIComponent` on an ASCII string. */
  function EncodeURIComponent(s: string): (r: string)
    requires IsAscii(s)
    ensures forall i :: 0 <= i < |r| ==> r[i] != '?' && r[i] != '&' && r[i] != '+' && r[i] != '#'
  {
    if s == [] then [] else EncodeChar(s[0]) + EncodeURIComponent(s[1..])
  }

  /** How a query parameter's value is read back: `+` is a space, `%XX` the
      character with that code and a `%` without two hex digits stays as it
      is. `None` is a `%XX` above 0x7F, the start of a multi-byte UTF-8
      sequence, which this model does not decode. */
  function DecodeQueryValue(s: string): Option<string>
    decreases |s|
  {
    if s == [] then Some([])
    else if s[0] == '%' && |s| >= 3 && HexValue(s[1]).Some? && HexValue(s[2]).Some? then
      var code := 16 * HexValue(s[1]).value + HexValue(s[2]).value;
      if code >= 128 then None
      else match DecodeQueryValue(s[3..])
        case None => None
        case Some(rest) => Some([code as char] + rest)
    else
      var c := if s[0] == '+' then ' ' else s[0];
      match DecodeQueryValue(s[1..])
      case None => None
      case Some(rest) => Some([c] + rest)
  }

  /** Decoding one encoded character, then the rest. */
  lemma DecodeEncodedChar(c: char, rest: string)
    requires c as int < 128
    ensures DecodeQueryValue(EncodeChar(c) + rest) ==
              match DecodeQueryValue(rest) case None => None case Some(r) => Some([c] + r)
  {
    var e := EncodeChar(c) + rest;
    if Unreserved(c) {
      assert e[1..] == rest;
    } else {
      assert e[3..] == rest;
      assert (c as int / 16) * 16 + c as int % 16 == c as int;
    }
  }

  /** Reading the parameter back gives exactly the encoded text. */
  lemma {:induction false} DecodeEncode(s: string)
    requires IsAscii(s)
    ensures DecodeQueryValue(EncodeURIComponent(s)) == Some(s)
    decreases |s|
  {
    if s != [] {
      DecodeEncode(s[1..]);
      DecodeEncodedChar(s[0], EncodeURIComponent(s[1..]));
      assert [s[0]] + s[1..] == s;
    }
  }

  /** Where an anonymous visitor of `pathname` is sent. */
  function LoginRedirect(pathname: string): string
    requires IsAscii(pathname)
  {
    LoginPath + RedirectQuery + EncodeURIComponent(pathname)
  }

  /** The routing decision for a request to `pathname` by `user`, where
      `redirectParam` is the decoded `redirect` query parameter. */
  function Route(pathname: string, user: Option<User>, redirectParam: Option<string>): (d: Decision)
    requires IsAscii(pathname)
    ensures StartsWith(pathname, ApiPrefix) ==> d == Next
    ensures d.Redirect? && user.Some? ==> pathname in PublicRoutes
    ensures d.Redirect? && user.None? ==> d.location == LoginRedirect(pathname)
    ensures !StartsWith(pathname, ApiPrefix) && pathname in PublicRoutes && user.Some? ==>
              d == Redirect(if redirectParam.Some? && redirectParam.value != [] then redirectParam.value else "/")
    ensures d == Next <==>
              StartsWith(pathname, ApiPrefix) || (pathname in PublicRoutes <==> user.None?)
  {
    if StartsWith(pathname, ApiPrefix) then Next
    else if pathname in PublicRoutes then
      if user.Some? then
        Redirect(if redirectParam.Some? && redirectParam.value != [] then redirectParam.value else "/")
      else Next
    else if user.None? then Redirect(LoginRedirect(pathname))
    else Next
  }

  /** The sign-in page is not an API route. */
  lemma LoginPathNotApi()
    ensures !StartsWith(LoginPath, ApiPrefix)
  {
    assert LoginPath[..|ApiPrefix|][2] != ApiPrefix[2];
  }

  /** After signing in, the visitor comes back to the page that sent them to
      the sign-in page: an anonymous visit to a protected page redirects to
      the sign-in page, and the sign-in page, reached with the parameter
      that redirect carried, sends a signed-in user to exactly that page. */
  lemma ReturnsToRequestedPage(pathname: string, user: User)
    requires IsAscii(pathname) && pathname != []
    requires !StartsWith(pathname, ApiPrefix) && pathname !in PublicRoutes
    ensures Route(pathname, None, None) == Redirect(LoginRedirect(pathname))
    ensures Route(LoginPath, Some(user), DecodeQueryValue(EncodeURIComponent(pathname))) == Redirect(pathname)
  {
    DecodeEncode(pathname);
    LoginPathNotApi();
  }

  /** Anonymous visitors are never redirected twice: the sign-in page they
      are sent to lets them through. */
  lemma NoRedirectLoop(param: Option<string>)
    ensures Route(LoginPath, None, param) == Next
  {
    LoginPathNotApi();
  }

  /** The `redirect` parameter is followed as given, also to another site. */
  lemma RedirectParamUnchecked(user: User)
    ensures Route(LoginPath, Some(user), Some("https://example.com/")) == Redirect("https://example.com/")
  {
    LoginPathNotApi();
  }

  /** What the middleware leaves for the handlers. */
  class Locals {
    var user: Option<User>

    constructor()
      ensures user.None?
    {
      user := None;
    }
  }

  /** The middleware: stores the session's user (for every path, API routes
      included) and then decides. */
  method OnRequest(locals: Locals, session: Option<User>, pathname: string, redirectParam: Option<string>)
    returns (d: Decision)
    requires IsAscii(pathname)
    modifies locals
    ensures locals.user == session
    ensures d == Route(pathname, session, redirectParam)
  {
    locals.user := session;
    if StartsWith(pathname, ApiPrefix) {
      return Next;
    }
    if pathname in PublicRoutes {
      if session.Some? {
        var target := if redirectParam.Some? && redirectParam.value != [] then redirectParam.value else "/";
        return Redirect(target);
      }
      return Next;
    }
    if session.None? {
      return Redirect(LoginPath + RedirectQuery + EncodeURIComponent(pathname));
    }
    return Next;
  }
}
