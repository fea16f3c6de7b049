/** The route guard run before every page request: protected paths need a
    token; the login and register pages are skipped when one is present.
    Matching is by plain string prefix. */
module Middleware {
  import opened Common
  import opened Query

  datatype Decision = Next | Redirect(target: Url)

  const ProtectedPaths: seq<string> := ["/dashboard", "/profile"]

  /** `protectedPaths.some(path => pathname.startsWith(path))`. */
  predicate IsProtected(pathname: string) {
    exists i :: 0 <= i < |ProtectedPaths| && ProtectedPaths[i] <= pathname
  }

  predicate IsAuthPage(pathname: string) {
    "/login" <= pathname || "/register" <= pathname
  }

  /** The login page, told where to come back to. */
  function LoginRedirect(pathname: string): Url {
    Url("/login", [("redirect", pathname)])
  }

  /** `middleware(request)`, given the request's path and its `authToken`
      cookie (absent or empty means no token). */
  function Guard(pathname: string, authToken: Option<string>): (d: Decision)
    ensures d == Redirect(LoginRedirect(pathname)) <==> IsProtected(pathname) && !Present(authToken)
    ensures d == Redirect(Url("/", [])) <==> IsAuthPage(pathname) && Present(authToken)
    ensures d == Next <==> !(IsProtected(pathname) && !Present(authToken)) && !(IsAuthPage(pathname) && Present(authToken))
  {
    LoginIsNotHome(pathname);
    if IsProtected(pathname) && !Present(authToken) then Redirect(LoginRedirect(pathname))
    else if IsAuthPage(pathname) && Present(authToken) then Redirect(Url("/", []))
    else Next
  }

  lemma LoginIsNotHome(pathname: string)
    ensures LoginRedirect(pathname) != Url("/", [])
  {
    assert LoginRedirect(pathname).path[1] == 'l';
  }

  /** No path is both protected and a login/register page, so the two
      redirect rules never compete. */
  lemma RulesAreExclusive(pathname: string)
    ensures !(IsProtected(pathname) && IsAuthPage(pathname))
  {
    if IsProtected(pathname) {
      var i :| 0 <= i < |ProtectedPaths| && ProtectedPaths[i] <= pathname;
      assert pathname[1] == ProtectedPaths[i][1];
    }
  }

  /** Prefix matching also catches longer paths. */
  lemma PrefixMatching()
    ensures Guard("/dashboards", None) == Redirect(LoginRedirect("/dashboards"))
    ensures Guard("/loginx", Some("t")) == Redirect(Url("/", []))
    ensures Guard("/dashboard/orders", Some("t")) == Next
  {
    assert ProtectedPaths[0] <= "/dashboards";
    assert "/login" <= "/loginx";
    assert ProtectedPaths[0] <= "/dashboard/orders";
    RulesAreExclusive("/dashboard/orders");
  }

  /** Following a redirect with the same cookie is let through: the guard
      never redirects twice in a row. */
  lemma NoRedirectLoop(pathname: string, authToken: Option<string>)
    ensures Guard(pathname, authToken).Redirect? ==> Guard(Guard(pathname, authToken).target.path, authToken) == Next
  {
    var d := Guard(pathname, authToken);
    if d.Redirect? {
      var p := d.target.path;
      if p == "/" {
        assert !IsAuthPage(p) by {
          assert !("/login" <= p) && !("/register" <= p);
        }
        assert !IsProtected(p) by {
          assert forall i :: 0 <= i < |ProtectedPaths| ==> !(ProtectedPaths[i] <= p);
        }
      } else {
        assert p == "/login";
        assert !IsProtected(p) by {
          assert !(ProtectedPaths[0] <= p) by { assert ProtectedPaths[0][1] != p[1]; }
          assert !(ProtectedPaths[1] <= p) by { assert ProtectedPaths[1][1] != p[1]; }
        }
      }
    }
  }
}
