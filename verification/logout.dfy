/** The two ways to log out: the server action of
    src/services/auth/logoutUser.ts and the POST handler of
    src/app/api/logout/route.ts. Both delete the two session cookies; they
    differ only in where they send the browser. */
module Logout {
  import opened Wrappers
  import opened Cookies
  import Proxy

  const LoggedOutTarget: string := "/login?loggedOut=true"
  const LoginTarget: string := "/login"

  /** The cookie jar afterwards and the redirect target. */
  datatype LogoutResult = LogoutResult(jar: Jar, redirectTo: string)

  /** `logoutUser()`: delete the access cookie, then the refresh cookie,
      then redirect with the logged-out marker. */
  function LogoutUser(jar: Jar): (r: LogoutResult)
    ensures AccessCookie !in r.jar && RefreshCookie !in r.jar
    ensures forall k :: k in jar && k != AccessCookie && k != RefreshCookie ==> k in r.jar && r.jar[k] == jar[k]
    ensures r.jar.Keys <= jar.Keys
    ensures r.redirectTo == LoggedOutTarget
  {
    LogoutResult(DeleteAll(DeleteAll(jar, [AccessCookie]), [RefreshCookie]), LoggedOutTarget)
  }

  /** The response `POST /api/logout` builds: a redirect to the login page
      that deletes both session cookies. */
  function LogoutRoute(): Proxy.Response
  {
    Proxy.Response(Proxy.Redirect(LoginTarget), [AccessCookie, RefreshCookie])
  }

  /** What the browser's jar holds once it has processed a response. */
  function ApplyResponse(jar: Jar, resp: Proxy.Response): (r: Jar)
    ensures r.Keys == jar.Keys - set n | n in resp.deleted
    ensures forall k :: k in r ==> r[k] == jar[k]
  {
    DeleteAll(jar, resp.deleted)
  }

  // ---------------------------------------------------------------------
  // Properties
  // ---------------------------------------------------------------------

  /** The route removes both session cookies and touches no other. */
  lemma RouteClearsSession(jar: Jar)
    ensures AccessCookie !in ApplyResponse(jar, LogoutRoute())
    ensures RefreshCookie !in ApplyResponse(jar, LogoutRoute())
    ensures forall k :: k in jar && k != AccessCookie && k != RefreshCookie
                        ==> k in ApplyResponse(jar, LogoutRoute()) && ApplyResponse(jar, LogoutRoute())[k] == jar[k]
  {
  }

  /** Logging out of a jar without session cookies changes nothing, and
      logging out twice is logging out once. */
  lemma LogoutIdempotent(jar: Jar)
    ensures AccessCookie !in jar && RefreshCookie !in jar ==> LogoutUser(jar).jar == jar
    ensures LogoutUser(LogoutUser(jar).jar) == LogoutUser(jar)
  {
    var once := LogoutUser(jar).jar;
    var twice := LogoutUser(once).jar;
    SameEntries(twice, once);
    if AccessCookie !in jar && RefreshCookie !in jar {
      SameEntries(once, jar);
    }
  }

  /** The same for the route's response. */
  lemma RouteIdempotent(jar: Jar)
    ensures AccessCookie !in jar && RefreshCookie !in jar ==> ApplyResponse(jar, LogoutRoute()) == jar
    ensures ApplyResponse(ApplyResponse(jar, LogoutRoute()), LogoutRoute()) == ApplyResponse(jar, LogoutRoute())
  {
    var once := ApplyResponse(jar, LogoutRoute());
    var twice := ApplyResponse(once, LogoutRoute());
    assert (set n | n in SessionCookies) == {AccessCookie, RefreshCookie};
    assert twice.Keys == once.Keys;
    if AccessCookie !in jar && RefreshCookie !in jar {
      assert once.Keys == jar.Keys;
    }
  }

  /** Either way the browser lands on the login page, and the guard serves
      it: no session cookie is left to send it elsewhere. */
  lemma LogoutLandsOnLogin(jar: Jar, decoded: Proxy.Decoded, refresh: Proxy.RefreshOutcome)
    ensures var after := LogoutUser(jar);
            && Proxy.PathnameOf(after.redirectTo) == LoginTarget
            && Proxy.Middleware(Proxy.Request(after.jar, Proxy.PathnameOf(after.redirectTo)), decoded, refresh)
               == Proxy.Response(Proxy.Next, [])
    ensures Proxy.Middleware(Proxy.Request(ApplyResponse(jar, LogoutRoute()), LogoutRoute().action.location),
                             decoded, refresh)
            == Proxy.Response(Proxy.Next, [])
  {
    assert LoggedOutTarget == LoginTarget + "?" + "loggedOut=true";
    Proxy.PathnameBeforeQuery(LoginTarget, "loggedOut=true");
    assert LoginTarget in Proxy.AuthRoutes;
    Proxy.NoCookiesAuthRoute(Proxy.Request(LogoutUser(jar).jar, LoginTarget), decoded, refresh);
    RouteClearsSession(jar);
    Proxy.NoCookiesAuthRoute(Proxy.Request(ApplyResponse(jar, LogoutRoute()), LoginTarget), decoded, refresh);
  }

  /** Both paths leave the same jar, and so does the guard's forced logout
      after a failed refresh; only the targets differ, and only the server
      action marks the logout. */
  lemma SameJarDifferentTargets(jar: Jar, req: Proxy.Request, decoded: Proxy.Decoded, refresh: Proxy.RefreshOutcome)
    requires req.cookies == jar
    requires Proxy.RefreshAttempted(req, decoded) && refresh != Proxy.RefreshOk
    ensures ApplyResponse(jar, LogoutRoute()) == LogoutUser(jar).jar
    ensures ApplyResponse(jar, Proxy.Decide(req, decoded, refresh)) == LogoutUser(jar).jar
    ensures LogoutRoute().action.location != LogoutUser(jar).redirectTo
  {
    assert (set n | n in SessionCookies) == {AccessCookie, RefreshCookie};
    Proxy.RefreshFailureLogsOut(req, decoded, refresh);
    assert ApplyResponse(jar, LogoutRoute()).Keys == LogoutUser(jar).jar.Keys;
  }
}
