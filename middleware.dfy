/**
 * The route guard of src/middleware.ts. It runs only on the paths its matcher
 * lists. It sends a signed-out visitor of a dashboard page to the
 * login page, and a signed-in visitor of an auth page to the dashboard. Every
 * other request passes through.
 */
module Middleware {
  import opened Wrappers
  import opened Strings
  import Auth

  const LOGIN_PAGE := "/auth/login"
  const DASHBOARD := "/dashboard"
  const AUTH_SECTION := "/auth"

  /** The sections the matcher lists, each as `/<section>/:path*`. */
  const MATCHED_SECTIONS := ["/dashboard", "/resumes", "/portfolio", "/settings", "/auth"]

  /**
   * `<base>/:path*` matches the base itself and every path below it: a path
   * that starts with the base and either ends there or goes on with `/`.
   */
  function MatchesSection(pathname: string, base: string): (b: bool)
    ensures b <==> StartsWith(pathname, base) && (|pathname| == |base| || pathname[|base|] == '/')
  {
    pathname == base || StartsWith(pathname, base + "/")
  }

  /** The matcher: the middleware runs for this path, which lies in one of the five sections. */
  function Matched(pathname: string): (b: bool)
    ensures b <==> MatchesSection(pathname, "/dashboard") || MatchesSection(pathname, "/resumes")
                   || MatchesSection(pathname, "/portfolio") || MatchesSection(pathname, "/settings")
                   || MatchesSection(pathname, "/auth")
  {
    assert MATCHED_SECTIONS[0] == "/dashboard" && MATCHED_SECTIONS[1] == "/resumes" && MATCHED_SECTIONS[2] == "/portfolio"
        && MATCHED_SECTIONS[3] == "/settings" && MATCHED_SECTIONS[4] == "/auth";
    exists i :: 0 <= i < |MATCHED_SECTIONS| && MatchesSection(pathname, MATCHED_SECTIONS[i])
  }

  /**
   * `!!req.auth`: a visitor is signed in exactly when the request carries a
   * session, whatever the session holds, even no access token.
   */
  function IsLoggedIn(auth: Option<Auth.SessionValue>): (b: bool)
    ensures b <==> auth.Some?
    ensures auth.Some? && auth.value.accessToken.None? ==> b
  {
    auth.Some?
  }

  /** The two guarded prefix tests: the redirect target, or `None` to pass the request through. */
  function Decide(pathname: string, isLoggedIn: bool): (r: Option<string>)
    ensures r.Some? ==> r.value == LOGIN_PAGE || r.value == DASHBOARD
  {
    if StartsWith(pathname, DASHBOARD) && !isLoggedIn then Some(LOGIN_PAGE)
    else if StartsWith(pathname, AUTH_SECTION) && isLoggedIn then Some(DASHBOARD)
    else None
  }

  /** What a request meets: nothing on an unmatched path, otherwise the decision for its login state. */
  function Guard(pathname: string, auth: Option<Auth.SessionValue>): (r: Option<string>)
    ensures !Matched(pathname) ==> r.None?
    ensures Matched(pathname) ==> r == Decide(pathname, IsLoggedIn(auth))
  {
    if Matched(pathname) then Decide(pathname, IsLoggedIn(auth)) else None
  }

  /** The guard reads nothing of the session but whether there is one. */
  lemma GuardSeesOnlyPresence(pathname: string, a: Option<Auth.SessionValue>, b: Option<Auth.SessionValue>)
    requires a.Some? == b.Some?
    ensures Guard(pathname, a) == Guard(pathname, b)
  {
  }

  /** The decision, rule by rule: each redirect happens exactly under its own condition. */
  lemma DecideRules(pathname: string, isLoggedIn: bool)
    ensures Decide(pathname, isLoggedIn) == Some(LOGIN_PAGE) <==> StartsWith(pathname, DASHBOARD) && !isLoggedIn
    ensures Decide(pathname, isLoggedIn) == Some(DASHBOARD) <==> StartsWith(pathname, AUTH_SECTION) && isLoggedIn
    ensures Decide(pathname, isLoggedIn).None?
        <==> !(StartsWith(pathname, DASHBOARD) && !isLoggedIn) && !(StartsWith(pathname, AUTH_SECTION) && isLoggedIn)
  {
    assert LOGIN_PAGE != DASHBOARD by { assert LOGIN_PAGE[1] != DASHBOARD[1]; }
  }

  /** At most one rule applies to a request: the two need opposite login states, and no path has both prefixes. */
  lemma AtMostOneRule(pathname: string, isLoggedIn: bool)
    ensures !(StartsWith(pathname, DASHBOARD) && !isLoggedIn && StartsWith(pathname, AUTH_SECTION) && isLoggedIn)
    ensures StartsWith(pathname, DASHBOARD) ==> !StartsWith(pathname, AUTH_SECTION)
  {
    if StartsWith(pathname, DASHBOARD) {
      assert pathname[1] == DASHBOARD[1];
    }
  }

  /** A redirect target is matched and passes through under the same login state, so there is no redirect loop. */
  lemma NoRedirectLoop(pathname: string, auth: Option<Auth.SessionValue>)
    ensures var r := Guard(pathname, auth);
      r.Some? ==> Matched(r.value) && Guard(r.value, auth).None?
  {
    assert MatchesSection(LOGIN_PAGE, MATCHED_SECTIONS[4]) by {
      assert LOGIN_PAGE[..|"/auth/"|] == "/auth/";
    }
    assert MatchesSection(DASHBOARD, MATCHED_SECTIONS[0]);
    assert StartsWith(LOGIN_PAGE, AUTH_SECTION) by { assert LOGIN_PAGE[..|AUTH_SECTION|] == AUTH_SECTION; }
    assert !StartsWith(LOGIN_PAGE, DASHBOARD) by { assert LOGIN_PAGE[1] != DASHBOARD[1]; }
    assert !StartsWith(DASHBOARD, AUTH_SECTION) by { assert DASHBOARD[1] != AUTH_SECTION[1]; }
  }

  /** A signed-out visitor of the matched resumes, portfolio and settings sections passes through. */
  lemma SignedOutElsewherePasses(pathname: string, auth: Option<Auth.SessionValue>)
    requires MatchesSection(pathname, "/resumes") || MatchesSection(pathname, "/portfolio") || MatchesSection(pathname, "/settings")
    ensures Guard(pathname, auth).None?
  {
    assert pathname[1] != DASHBOARD[1] && pathname[1] != AUTH_SECTION[1];
  }

  /** A signed-out visitor of any dashboard page goes to the login page. */
  lemma SignedOutDashboard(pathname: string)
    requires MatchesSection(pathname, DASHBOARD)
    ensures Guard(pathname, None) == Some(LOGIN_PAGE)
  {
    assert Matched(pathname) by { assert MatchesSection(pathname, MATCHED_SECTIONS[0]); }
    assert StartsWith(pathname, DASHBOARD) by {
      if pathname != DASHBOARD { assert pathname[..|DASHBOARD|] == (DASHBOARD + "/")[..|DASHBOARD|]; }
    }
  }

  /**
   * The prefix tests are wider than the matcher: `/dashboards` starts with
   * `/dashboard` but is not matched, so a signed-out visitor reaches it.
   */
  lemma PrefixWiderThanMatcher()
    ensures Decide("/dashboards", false) == Some(LOGIN_PAGE)
    ensures Guard("/dashboards", None).None?
  {
    var p := "/dashboards";
    assert p[..|DASHBOARD|] == DASHBOARD;
    forall i | 0 <= i < |MATCHED_SECTIONS| ensures !MatchesSection(p, MATCHED_SECTIONS[i]) {
      var b := MATCHED_SECTIONS[i];
      if i == 0 {
        assert p[10] != (b + "/")[10];
      } else {
        assert p[1] != b[1];
      }
    }
  }
}
