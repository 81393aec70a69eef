// lib/sqlite/middleware.ts, `updateSession`: the route guard run before every page. The
// decision depends only on the path and on the access_token cookie; the log line is left out.

module Middleware {
  import opened Wrappers
  import opened Text

  const ProtectedRoutes: seq<string> := ["/admin", "/protected"]
  const AuthRoutes: seq<string> := ["/auth/login", "/auth/sign-up"]

  /** Continue with the request, or redirect to a path on the same origin. */
  datatype Decision = Next | Redirect(path: string)

  /** `routes.some(route => pathname.startsWith(route))`. */
  predicate StartsWithAny(pathname: string, routes: seq<string>)
  {
    exists k :: 0 <= k < |routes| && StartsWith(pathname, routes[k])
  }

  predicate IsProtectedRoute(pathname: string)
  {
    StartsWithAny(pathname, ProtectedRoutes)
  }

  predicate IsAuthRoute(pathname: string)
  {
    StartsWithAny(pathname, AuthRoutes)
  }

  /** `!!accessToken`: the cookie is present and not empty. */
  predicate IsAuthenticated(accessToken: Option<string>)
  {
    Truthy(accessToken)
  }

  /**
   * `updateSession`: "/test-login" always passes; a protected path without a token goes to the
   * login page; an auth page with a token goes to the lead list; anything else passes.
   */
  function UpdateSession(pathname: string, accessToken: Option<string>): (d: Decision)
    ensures pathname == "/test-login" ==> d == Next
    ensures pathname != "/test-login" && IsProtectedRoute(pathname) && !IsAuthenticated(accessToken) ==>
      d == Redirect("/auth/login")
    ensures pathname != "/test-login" && IsAuthRoute(pathname) && IsAuthenticated(accessToken) ==>
      d == Redirect("/admin/leads")
    ensures d.Redirect? <==>
      pathname != "/test-login"
      && ((IsProtectedRoute(pathname) && !IsAuthenticated(accessToken))
          || (IsAuthRoute(pathname) && IsAuthenticated(accessToken)))
  {
    if pathname == "/test-login" then Next
    else if IsProtectedRoute(pathname) && !IsAuthenticated(accessToken) then Redirect("/auth/login")
    else if IsAuthRoute(pathname) && IsAuthenticated(accessToken) then Redirect("/admin/leads")
    else Next
  }

  /** The path starts with exactly the given prefix, read character by character. */
  lemma StartsWithChars(pathname: string, prefix: string, k: nat)
    requires StartsWith(pathname, prefix) && k < |prefix|
    ensures pathname[k] == prefix[k]
  {
    assert pathname[..|prefix|][k] == pathname[k];
  }

  /** Protected paths begin "/a" or "/p"; auth paths begin "/auth/"; so no path is both. */
  lemma ProtectedAndAuthDisjoint(pathname: string)
    ensures !(IsProtectedRoute(pathname) && IsAuthRoute(pathname))
  {
    if IsAuthRoute(pathname) {
      var k :| 0 <= k < |AuthRoutes| && StartsWith(pathname, AuthRoutes[k]);
      StartsWithChars(pathname, AuthRoutes[k], 2);
      assert pathname[2] == 'u';
      forall j | 0 <= j < |ProtectedRoutes|
        ensures !StartsWith(pathname, ProtectedRoutes[j])
      {
        if StartsWith(pathname, ProtectedRoutes[j]) {
          StartsWithChars(pathname, ProtectedRoutes[j], 2);
        }
      }
    }
  }

  /** Every path under "/admin" is guarded: without a token the visitor is sent to log in. */
  lemma AdminNeedsToken(rest: string, accessToken: Option<string>)
    requires !IsAuthenticated(accessToken)
    ensures UpdateSession("/admin" + rest, accessToken) == Redirect("/auth/login")
  {
    var p := "/admin" + rest;
    assert StartsWith(p, ProtectedRoutes[0]) by {
      assert p[..6] == "/admin";
    }
    assert p != "/test-login" by {
      assert p[1] == 'a';
    }
  }

  /**
   * No redirect loop: the target of a redirect, requested with the same cookie, is served.
   * Being logged in decides which of the two targets is used.
   */
  lemma RedirectTargetPasses(pathname: string, accessToken: Option<string>)
    requires UpdateSession(pathname, accessToken).Redirect?
    ensures UpdateSession(UpdateSession(pathname, accessToken).path, accessToken) == Next
    ensures UpdateSession(pathname, accessToken).path == (if IsAuthenticated(accessToken) then "/admin/leads" else "/auth/login")
  {
    var target := UpdateSession(pathname, accessToken).path;
    if IsAuthenticated(accessToken) {
      ProtectedAndAuthDisjoint(target);
      assert StartsWith(target, ProtectedRoutes[0]) by {
        assert target[..6] == "/admin";
      }
      assert target != "/test-login" by {
        assert target[1] == 'a';
      }
    } else {
      ProtectedAndAuthDisjoint(target);
      assert StartsWith(target, AuthRoutes[0]) by {
        assert target[..11] == "/auth/login";
      }
    }
  }
}
