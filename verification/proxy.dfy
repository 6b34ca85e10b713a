/** The request guard of src/proxy.ts: one decision per incoming request,
    computed from the two session cookies, the requested pathname, what
    `jwtDecode` made of the access cookie and how the refresh call went.
    Neither the decoding nor the refresh call is interpreted here: their
    outcomes are inputs. */
module Proxy {
  import opened Wrappers
  import opened Strings
  import opened Roles
  import opened Cookies

  /** Routes served to visitors without a session (`authRoutes`). */
  const AuthRoutes: seq<string> := ["/login", "/register", "/forgot-password"]

  const AdminPrefix: string := "/dashboard/admin"
  const DoctorPrefix: string := "/dashboard/doctor"
  const PatientPrefix: string := "/dashboard/patient"

  const HomePath: string := "/"
  const UnauthorizedPath: string := "/unauthorized"

  /** The payload `jwtDecode` returns; nothing about it is verified. */
  datatype Claims = Claims(id: string, email: string, role: string, iat: int, exp: int)

  /** What `jwtDecode` did with the access cookie: it threw, or it returned a
      payload, which is `None` when that payload is a falsy JSON value such
      as `null` (the guard then holds no user). */
  datatype Decoded = DecodeThrew | Payload(user: Option<Claims>)

  /** How the POST to the refresh endpoint ended. */
  datatype RefreshOutcome = RefreshOk | RefreshNotOk | RefreshThrew

  datatype Request = Request(cookies: Jar, pathname: string)

  datatype Action = Next | Redirect(location: string)

  /** The guard's response: what to do, and which cookies it deletes. */
  datatype Response = Response(action: Action, deleted: seq<string>)

  /** `roleBasedRoutes[role]`: the prefixes of a role, undefined for any
      string that is not one of the three declared roles. */
  function RoleRoutes(role: string): (r: Option<seq<string>>)
    ensures r.Some? <==> RoleOf(role) != Other
    ensures r.Some? ==> |r.value| == 1
  {
    match RoleOf(role)
    case Admin => Some([AdminPrefix])
    case Doctor => Some([DoctorPrefix])
    case Patient => Some([PatientPrefix])
    case Other => None
  }

  /** `routes.some(route => path.startsWith(route))`. */
  function AnyPrefix(routes: seq<string>, path: string): (r: bool)
    ensures r <==> exists i :: 0 <= i < |routes| && StartsWith(path, routes[i])
    decreases |routes|
  {
    if routes == [] then false
    else StartsWith(path, routes[0]) || AnyPrefix(routes[1..], path)
  }

  /** `allowedRoutes?.some(...)`: false when the role has no entry. A role
      is admitted exactly under its own dashboard prefix, so never on a
      login/register page. */
  function RoleAdmits(role: string, path: string): (b: bool)
    ensures b <==> RoleOf(role) != Other && StartsWith(path, PrefixOf(RoleOf(role)))
    ensures b ==> StartsWith(path, "/dashboard/") && path !in AuthRoutes
  {
    var routes := RoleRoutes(role);
    if routes.Some? && AnyPrefix(routes.value, path) then
      StartsWithTransitive(path, PrefixOf(RoleOf(role)), "/dashboard/");
      DashboardPathShape(path);
      true
    else
      false
  }

  /** The login URL that carries the requested path back, unencoded. */
  function LoginRedirect(path: string): (url: string)
    ensures StartsWith(url, "/login?redirect=")
    ensures url[|"/login?redirect="|..] == path
  {
    "/login?redirect=" + path
  }

  /** Whether the guard holds no decoded user once the access cookie has been
      looked at without throwing. */
  predicate NoUser(access: Option<string>, decoded: Decoded) {
    !Truthy(access) || decoded == Payload(None)
  }

  /** The `proxy` function. */
  function Decide(req: Request, decoded: Decoded, refresh: RefreshOutcome): (r: Response)
    ensures r.deleted == [] || r.deleted == SessionCookies
    ensures r.deleted != [] ==> r.action == Redirect(LoginRedirect(req.pathname))
    ensures r.action.Redirect? ==>
              r.action.location in {LoginRedirect(req.pathname), HomePath, UnauthorizedPath}
  {
    var access := Lookup(req.cookies, AccessCookie);
    var refreshToken := Lookup(req.cookies, RefreshCookie);
    var path := req.pathname;
    if !Truthy(access) && !Truthy(refreshToken) && path !in AuthRoutes then
      Response(Redirect(LoginRedirect(path)), [])
    else if Truthy(access) && decoded.DecodeThrew? then
      Response(Redirect(LoginRedirect(path)), [])
    else
      var user := if Truthy(access) then decoded.user else None;
      if user.None? && Truthy(refreshToken) then
        match refresh
        case RefreshOk => Response(Next, [])
        case _ => Response(Redirect(LoginRedirect(path)), SessionCookies)
      else if user.Some? && path in AuthRoutes then
        Response(Redirect(HomePath), [])
      else if user.Some? then
        if RoleAdmits(user.value.role, path) then Response(Next, [])
        else Response(Redirect(UnauthorizedPath), [])
      else
        Response(Next, [])
  }

  /** `config.matcher`: `/dashboard/:path*` and the three auth routes. It
      covers every path the role table admits and every auth route, and
      leaves out the two pages the guard sends signed-in users to. */
  function Matched(path: string): (m: bool)
    ensures forall role :: RoleAdmits(role, path) ==> m
    ensures path in AuthRoutes ==> m
    ensures path == HomePath || path == UnauthorizedPath ==> !m
  {
    if StartsWith(path, "/dashboard/") then
      DashboardPathShape(path);
      true
    else
      path == "/dashboard" || path in AuthRoutes
  }

  /** A path under `/dashboard/` has `d` as its second character, which no
      auth route, home page or unauthorized page has. */
  lemma DashboardPathShape(path: string)
    requires StartsWith(path, "/dashboard/")
    ensures |path| >= 11 && path[1] == 'd'
    ensures path !in AuthRoutes && path != HomePath && path != UnauthorizedPath
  {
    assert path[1] == path[..11][1];
  }

  /** The framework runs the guard only on matched paths; every other
      request passes untouched. */
  function Middleware(req: Request, decoded: Decoded, refresh: RefreshOutcome): Response
  {
    if Matched(req.pathname) then Decide(req, decoded, refresh) else Response(Next, [])
  }

  // ---------------------------------------------------------------------
  // Properties of the decision
  // ---------------------------------------------------------------------

  /** With neither cookie, a path outside the auth routes is sent to login
      with the path carried back, and nothing is deleted. */
  lemma NoCookiesProtectedPath(req: Request, decoded: Decoded, refresh: RefreshOutcome)
    requires !Truthy(Lookup(req.cookies, AccessCookie)) && !Truthy(Lookup(req.cookies, RefreshCookie))
    requires req.pathname !in AuthRoutes
    ensures Decide(req, decoded, refresh) == Response(Redirect(LoginRedirect(req.pathname)), [])
  {
  }

  /** With neither cookie, an auth route is served. */
  lemma NoCookiesAuthRoute(req: Request, decoded: Decoded, refresh: RefreshOutcome)
    requires !Truthy(Lookup(req.cookies, AccessCookie)) && !Truthy(Lookup(req.cookies, RefreshCookie))
    requires req.pathname in AuthRoutes
    ensures Decide(req, decoded, refresh) == Response(Next, [])
  {
  }

  /** An access cookie that does not decode sends the visitor to login even
      when a refresh cookie exists: the refresh outcome has no influence and
      no cookie is deleted. */
  lemma UndecodableAccessSkipsRefresh(req: Request, refresh1: RefreshOutcome, refresh2: RefreshOutcome)
    requires Truthy(Lookup(req.cookies, AccessCookie))
    ensures Decide(req, DecodeThrew, refresh1) == Response(Redirect(LoginRedirect(req.pathname)), [])
    ensures Decide(req, DecodeThrew, refresh1) == Decide(req, DecodeThrew, refresh2)
  {
  }

  /** The request is the refresh path exactly when no user was decoded, a
      refresh cookie is present, and the first check let the request on. */
  predicate RefreshAttempted(req: Request, decoded: Decoded) {
    var access := Lookup(req.cookies, AccessCookie);
    && Truthy(Lookup(req.cookies, RefreshCookie))
    && !(Truthy(access) && decoded.DecodeThrew?)
    && NoUser(access, decoded)
  }

  /** Outside the refresh path the refresh outcome changes nothing. */
  lemma RefreshOnlyWhenNoUser(req: Request, decoded: Decoded, refresh1: RefreshOutcome, refresh2: RefreshOutcome)
    requires !RefreshAttempted(req, decoded)
    ensures Decide(req, decoded, refresh1) == Decide(req, decoded, refresh2)
  {
  }

  /** A successful refresh lets the request through on any path, with no
      role check and no auth-route check. */
  lemma RefreshOkPasses(req: Request, decoded: Decoded)
    requires RefreshAttempted(req, decoded)
    ensures Decide(req, decoded, RefreshOk) == Response(Next, [])
  {
  }

  /** A refresh that answers non-ok or throws is a forced logout: both
      session cookies are deleted and the visitor goes to login. */
  lemma RefreshFailureLogsOut(req: Request, decoded: Decoded, refresh: RefreshOutcome)
    requires RefreshAttempted(req, decoded)
    requires refresh != RefreshOk
    ensures Decide(req, decoded, refresh)
            == Response(Redirect(LoginRedirect(req.pathname)), [AccessCookie, RefreshCookie])
  {
  }

  /** Cookies are deleted exactly on a failed refresh. */
  lemma DeletesOnlyOnFailedRefresh(req: Request, decoded: Decoded, refresh: RefreshOutcome)
    ensures Decide(req, decoded, refresh).deleted != []
            <==> RefreshAttempted(req, decoded) && refresh != RefreshOk
  {
  }

  /** A decoded user asking for an auth route is sent home. */
  lemma DecodedUserOnAuthRoute(req: Request, c: Claims, refresh: RefreshOutcome)
    requires Truthy(Lookup(req.cookies, AccessCookie))
    requires req.pathname in AuthRoutes
    ensures Decide(req, Payload(Some(c)), refresh) == Response(Redirect(HomePath), [])
  {
  }

  /** A decoded user elsewhere passes exactly when the path starts with a
      prefix listed for the role; otherwise, an unmapped role included, the
      answer is the unauthorized page. */
  lemma DecodedUserRoleCheck(req: Request, c: Claims, refresh: RefreshOutcome)
    requires Truthy(Lookup(req.cookies, AccessCookie))
    requires req.pathname !in AuthRoutes
    ensures Decide(req, Payload(Some(c)), refresh).action == Next
            <==> RoleOf(c.role) != Other && StartsWith(req.pathname, PrefixOf(RoleOf(c.role)))
    ensures Decide(req, Payload(Some(c)), refresh).action != Next
            ==> Decide(req, Payload(Some(c)), refresh) == Response(Redirect(UnauthorizedPath), [])
    ensures RoleOf(c.role) == Other
            ==> Decide(req, Payload(Some(c)), refresh) == Response(Redirect(UnauthorizedPath), [])
  {
  }

  /** Every request the guard lets through falls in one of four cases. */
  lemma NextCases(req: Request, decoded: Decoded, refresh: RefreshOutcome)
    ensures Decide(req, decoded, refresh).action == Next <==>
      var access := Lookup(req.cookies, AccessCookie);
      var refreshToken := Lookup(req.cookies, RefreshCookie);
      // no session at all, on a login/register page
      || (!Truthy(access) && !Truthy(refreshToken) && req.pathname in AuthRoutes)
      // a decoded user on a path the role table admits
      || (Truthy(access) && decoded.Payload? && decoded.user.Some?
          && req.pathname !in AuthRoutes && RoleAdmits(decoded.user.value.role, req.pathname))
      // a successful refresh
      || (RefreshAttempted(req, decoded) && refresh == RefreshOk)
      // an access cookie whose payload is falsy, and no refresh cookie
      || (Truthy(access) && decoded == Payload(None) && !Truthy(refreshToken))
  {
  }

  /** The pathname of a URL: everything before the first `?`. */
  function PathnameOf(url: string): (p: string)
    ensures |p| <= |url| && '?' !in p
    decreases |url|
  {
    if url == [] || url[0] == '?' then [] else [url[0]] + PathnameOf(url[1..])
  }

  lemma {:induction false} PathnameBeforeQuery(a: string, b: string)
    requires '?' !in a
    ensures PathnameOf(a + "?" + b) == a
    decreases |a|
  {
    if a == [] {
      assert (a + "?" + b)[0] == '?';
    } else {
      assert (a + "?" + b)[1..] == a[1..] + "?" + b;
      PathnameBeforeQuery(a[1..], b);
    }
  }

  /** An access cookie that does not decode, on the login page itself, is
      answered with a redirect to login that deletes nothing; the target's
      pathname is `/login` again, so the next request, carrying the same
      cookie, gets the same answer, and so on without end. */
  lemma UndecodableAccessLoopsOnLogin(jar: Jar, refresh1: RefreshOutcome, refresh2: RefreshOutcome)
    requires Truthy(Lookup(jar, AccessCookie))
    ensures var r := Middleware(Request(jar, "/login"), DecodeThrew, refresh1);
            && r == Response(Redirect(LoginRedirect("/login")), [])
            && PathnameOf(r.action.location) == "/login"
            && Middleware(Request(jar, PathnameOf(r.action.location)), DecodeThrew, refresh2) == r
  {
    assert LoginRedirect("/login") == "/login" + "?" + "redirect=/login";
    PathnameBeforeQuery("/login", "redirect=/login");
  }

  // ---------------------------------------------------------------------
  // Properties of the role table
  // ---------------------------------------------------------------------

  /** Each declared role has exactly one prefix, and it is its dashboard. */
  lemma OnePrefixPerRole(role: string)
    ensures RoleOf(role) == Admin ==> RoleRoutes(role) == Some([AdminPrefix])
    ensures RoleOf(role) == Doctor ==> RoleRoutes(role) == Some([DoctorPrefix])
    ensures RoleOf(role) == Patient ==> RoleRoutes(role) == Some([PatientPrefix])
    ensures RoleOf(role) == Other ==> RoleRoutes(role) == None
  {
  }

  /** The prefix of a role, for the three declared roles. */
  function PrefixOf(r: Role): (p: string)
    requires r != Other
    ensures RoleRoutes(Name(r)) == Some([p])
    ensures StartsWith(p, "/dashboard/")
  {
    match r
    case Admin => AdminPrefix
    case Doctor => DoctorPrefix
    case Patient => PatientPrefix
  }

  /** No declared role's prefix is a prefix of another's. */
  lemma PrefixesIncomparable(r1: Role, r2: Role)
    requires r1 != Other && r2 != Other && r1 != r2
    ensures !StartsWith(PrefixOf(r1), PrefixOf(r2))
  {
    var p1, p2 := PrefixOf(r1), PrefixOf(r2);
    // the three prefixes part at the character after "/dashboard/"
    assert p1[11] != p2[11];
  }

  /** So no path is admitted for two different roles. */
  lemma {:induction false} NoPathForTwoRoles(role1: string, role2: string, path: string)
    requires RoleAdmits(role1, path) && RoleAdmits(role2, path)
    ensures RoleOf(role1) == RoleOf(role2)
  {
    var r1, r2 := RoleOf(role1), RoleOf(role2);
    if r1 != r2 {
      var p1, p2 := PrefixOf(r1), PrefixOf(r2);
      assert StartsWith(path, p1) by { assert RoleRoutes(role1).value == [p1]; }
      assert StartsWith(path, p2) by { assert RoleRoutes(role2).value == [p2]; }
      if |p2| <= |p1| {
        PrefixesOfOneString(path, p2, p1);
        PrefixesIncomparable(r1, r2);
      } else {
        PrefixesOfOneString(path, p1, p2);
        PrefixesIncomparable(r2, r1);
      }
    }
  }

  /** A declared role is admitted on every path under its prefix. */
  lemma RoleAdmitsUnderPrefix(r: Role, rest: string)
    requires r != Other
    ensures RoleAdmits(Name(r), PrefixOf(r) + rest)
  {
    assert StartsWith(PrefixOf(r) + rest, [PrefixOf(r)][0]) by {
      assert (PrefixOf(r) + rest)[..|PrefixOf(r)|] == PrefixOf(r);
    }
  }

  /** The test is a raw `startsWith`: a longer sibling name such as
      `/dashboard/administrator` is admitted for ADMIN too. */
  lemma RawPrefixAdmitsSibling()
    ensures RoleAdmits("ADMIN", "/dashboard/administrator")
  {
    RoleAdmitsUnderPrefix(Admin, "istrator");
  }
}
