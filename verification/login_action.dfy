/** The login server action of src/services/auth/loginUser.ts: validate the
    form, post the credentials, pick the two token cookies out of the
    reply's Set-Cookie list, install them, verify the access token and
    choose where to go next.

    The network reply is an input (`LoginReply`). Each Set-Cookie entry is
    taken as the name -> value record `cookie.parse` makes of it (attribute
    pairs such as `Max-Age=...` become entries too). Email-format checking,
    `jwt.verify`, `isValidRedirectForRole` and `getDefaultDashboardRoute`
    are not visible here and are the parameters in `Helpers`. */
module LoginAction {
  import opened Wrappers
  import opened Strings
  import opened Roles
  import opened Cookies
  import opened JsNumber
  import opened Validation
  import Proxy

  /** Submitted form fields, `formData.get(name)`. */
  type Form = map<string, string>

  const EmailMessage: string := "Email is required"
  const PasswordTypeMessage: string := "Password is required"
  const PasswordMinMessage: string := "Password is required and must be at least 6 characters long"
  const PasswordMaxMessage: string := "Password must be at most 100 characters long"
  const MinPassword: nat := 6
  const MaxPassword: nat := 100

  const LoginFailedMessage: string := "Login failed. Please check your credentials."
  const UnexpectedMessage: string := "An unexpected error occurred. Please try again."
  const SuccessMessage: string := "Login successful!"

  /** Lifetimes used when the reply gives none (or zero). */
  const AccessMaxAgeFallback: int := 1000 * 60 * 60
  const RefreshMaxAgeFallback: int := 1000 * 60 * 60 * 24 * 90

  /** What `jwt.verify` gave for the access token: it threw, it returned a
      bare string, or it returned a payload carrying a role claim. */
  datatype Verification = VerifyThrew | StringPayload | ObjectPayload(role: string)

  /** The collaborators this action calls but that are not modelled. */
  datatype Helpers = Helpers(
    isEmail: string -> bool,
    isValidRedirectForRole: (string, string) -> bool,
    defaultDashboardRoute: string -> string,
    verify: string -> Verification)

  /** One parsed Set-Cookie entry. */
  type ParsedCookie = map<string, string>

  /** How the POST to the login endpoint ended. `message` is the `message`
      field of an error body (absent also when the body is not JSON). An
      error body that is JSON `null` makes reading its message throw, which
      ends like `FetchThrew`, and is written so. */
  datatype LoginReply =
    | FetchThrew
    | Replied(ok: bool, message: Option<string>, setCookie: seq<ParsedCookie>)

  /** The request body sent to the backend. */
  datatype Credentials = Credentials(email: string, password: string)

  datatype LoginResult =
    | Rejected(errors: seq<FieldError>)             // success: false, errors
    | Failed(error: string)                         // success: false, error
    | Succeeded(message: string, redirectTo: string) // success: true

  /** The result, the request sent (if any) and the cookies written. */
  datatype LoginOutput = LoginOutput(result: LoginResult, sent: Option<Credentials>, writes: seq<CookieWrite>)

  // ---------------------------------------------------------------------
  // Validation
  // ---------------------------------------------------------------------

  /** The declarative rule: an email address and a password of 6 to 100
      characters. */
  predicate LoginFieldsValid(email: Option<string>, password: Option<string>, isEmail: string -> bool) {
    && email.Some? && isEmail(email.value)
    && password.Some? && MinPassword <= |password.value| <= MaxPassword
  }

  /** `loginValidationZodSchema.safeParse`: the issues, email first. */
  function LoginIssues(email: Option<string>, password: Option<string>, isEmail: string -> bool): (r: seq<Issue>)
    ensures r == [] <==> LoginFieldsValid(email, password, isEmail)
    ensures |r| <= 2
    ensures forall i :: 0 <= i < |r| ==> r[i].field in {"email", "password"}
    ensures email.Some? && !isEmail(email.value) ==> r[0] == Issue("email", EmailMessage, false)
    ensures email.Some? && isEmail(email.value) && password.Some? && |password.value| < MinPassword
            ==> r == [Issue("password", PasswordMinMessage, false)]
    ensures email.Some? && isEmail(email.value) && password.Some? && |password.value| > MaxPassword
            ==> r == [Issue("password", PasswordMaxMessage, false)]
    ensures email.None? ==> r[0] == Issue("email", EmailMessage, true)
    ensures password.None? ==> r[|r| - 1] == Issue("password", PasswordTypeMessage, true)
    ensures email.Some? && !isEmail(email.value) && password.Some? && |password.value| < MinPassword
            ==> r == [Issue("email", EmailMessage, false), Issue("password", PasswordMinMessage, false)]
  {
    EmailIssues("email", email, isEmail, EmailMessage)
    + StringIssues("password", password, PasswordTypeMessage, MinPassword, PasswordMinMessage,
                   Some(MaxPassword), PasswordMaxMessage)
  }

  // ---------------------------------------------------------------------
  // Picking the token cookies out of the Set-Cookie list
  // ---------------------------------------------------------------------

  /** `if (cookies[name])`: the entry holds a non-empty value for `name`. */
  predicate Carries(entry: ParsedCookie, name: string) {
    Truthy(Lookup(entry, name))
  }

  /** The position of the last entry carrying `name`. */
  function LastCarrying(entries: seq<ParsedCookie>, name: string): (r: Option<nat>)
    ensures r.Some? ==> r.value < |entries| && Carries(entries[r.value], name)
    ensures r.Some? ==> forall j :: r.value < j < |entries| ==> !Carries(entries[j], name)
    ensures r.None? ==> forall j :: 0 <= j < |entries| ==> !Carries(entries[j], name)
    decreases |entries|
  {
    if entries == [] then None
    else if Carries(entries[|entries| - 1], name) then Some(|entries| - 1)
    else LastCarrying(entries[..|entries| - 1], name)
  }

  /** The entry the `forEach` loop leaves in `accessTokenObject` (or
      `refreshTokenObject`). */
  function Pick(entries: seq<ParsedCookie>, name: string): (r: Option<ParsedCookie>)
    ensures r.Some? ==> Carries(r.value, name)
    ensures r.None? <==> forall j :: 0 <= j < |entries| ==> !Carries(entries[j], name)
  {
    match LastCarrying(entries, name)
    case None => None
    case Some(i) => Some(entries[i])
  }

  /** The `forEach` over the Set-Cookie list: each entry carrying a token
      replaces what was found before, so the last one stays. */
  method CollectTokens(entries: seq<ParsedCookie>) returns (access: Option<ParsedCookie>, refresh: Option<ParsedCookie>)
    ensures access == Pick(entries, AccessCookie)
    ensures refresh == Pick(entries, RefreshCookie)
  {
    access, refresh := None, None;
    var k := 0;
    while k < |entries|
      invariant 0 <= k <= |entries|
      invariant access == Pick(entries[..k], AccessCookie)
      invariant refresh == Pick(entries[..k], RefreshCookie)
    {
      assert entries[..k + 1][..k] == entries[..k];
      if Carries(entries[k], AccessCookie) {
        access := Some(entries[k]);
      }
      if Carries(entries[k], RefreshCookie) {
        refresh := Some(entries[k]);
      }
      k := k + 1;
    }
    assert entries[..k] == entries;
  }

  // ---------------------------------------------------------------------
  // Installing the cookies
  // ---------------------------------------------------------------------

  /** `parseInt(entry["Max-Age"])`; a missing attribute reads as `NaN`. */
  function MaxAgeAttribute(entry: ParsedCookie): Option<int> {
    if "Max-Age" in entry then ParseInt(entry["Max-Age"]) else None
  }

  /** The `setCookie` call for one token. */
  function TokenWrite(name: string, entry: ParsedCookie, fallbackMaxAge: int): CookieWrite
    requires name in entry
  {
    CookieWrite(name, entry[name], CookieOptions(
      secure := true,
      httpOnly := true,
      maxAge := OrFallback(MaxAgeAttribute(entry), fallbackMaxAge),
      path := if Carries(entry, "Path") then entry["Path"] else "/",
      sameSite := if Carries(entry, "SameSite") then entry["SameSite"] else "none"))
  }

  /** A missing Max-Age attribute reads as `NaN`, and one holding the
      decimal text of a number reads as that number. */
  lemma MaxAgeFromHeader(entry: ParsedCookie, n: nat)
    ensures "Max-Age" !in entry ==> MaxAgeAttribute(entry) == None
    ensures "Max-Age" in entry && entry["Max-Age"] == Decimal(n) ==> MaxAgeAttribute(entry) == Some(n)
  {
    ParseDecimal(n);
  }

  // ---------------------------------------------------------------------
  // The action
  // ---------------------------------------------------------------------

  /** The post-login destination: the requested path when there is one and
      the helper accepts it for the role, else the role's default. */
  function SelectRedirect(hint: Option<string>, role: string, h: Helpers): string
  {
    if Truthy(hint) && h.isValidRedirectForRole(hint.value, role) then hint.value
    else h.defaultDashboardRoute(role)
  }

  /** `loginUser(_, formData)`. */
  function LoginUser(form: Form, h: Helpers, reply: LoginReply): (out: LoginOutput)
    ensures out.result.Rejected? <==> !LoginFieldsValid(Lookup(form, "email"), Lookup(form, "password"), h.isEmail)
    ensures out.result.Rejected? ==> out.result.errors != [] && out.writes == []
    ensures out.sent.None? <==> out.result.Rejected?
    ensures out.sent.Some? ==> out.sent.value == Credentials(form["email"], form["password"])
    ensures out.writes == [] || (|out.writes| == 2 && out.writes[0].name == AccessCookie
                                                   && out.writes[1].name == RefreshCookie)
    ensures out.result.Succeeded? ==> out.result.message == SuccessMessage && |out.writes| == 2
    ensures out.result.Failed? && reply.Replied? && !reply.ok ==> out.writes == []
  {
    var hint := Lookup(form, "redirect");
    var email := Lookup(form, "email");
    var password := Lookup(form, "password");
    var issues := LoginIssues(email, password, h.isEmail);
    if issues != [] then
      LoginOutput(Rejected(ToFieldErrors(issues)), None, [])
    else
      var sent := Some(Credentials(email.value, password.value));
      match reply
      case FetchThrew => LoginOutput(Failed(UnexpectedMessage), sent, [])
      case Replied(ok, message, setCookie) =>
        if !ok then
          LoginOutput(Failed(if Truthy(message) then message.value else LoginFailedMessage), sent, [])
        else if setCookie == [] then
          LoginOutput(Failed(UnexpectedMessage), sent, [])
        else
          var access := Pick(setCookie, AccessCookie);
          var refresh := Pick(setCookie, RefreshCookie);
          if access.None? || refresh.None? then
            LoginOutput(Failed(UnexpectedMessage), sent, [])
          else
            var writes := [TokenWrite(AccessCookie, access.value, AccessMaxAgeFallback),
                           TokenWrite(RefreshCookie, refresh.value, RefreshMaxAgeFallback)];
            match h.verify(access.value[AccessCookie])
            case ObjectPayload(role) =>
              LoginOutput(Succeeded(SuccessMessage, SelectRedirect(hint, role, h)), sent, writes)
            case _ =>
              LoginOutput(Failed(UnexpectedMessage), sent, writes)
  }

  // ---------------------------------------------------------------------
  // Properties
  // ---------------------------------------------------------------------

  /** An invalid form is answered with one field-tagged error per issue,
      carrying the issue's message, and nothing is sent, whatever the
      backend would have said. */
  lemma InvalidFormNoCall(form: Form, h: Helpers, reply1: LoginReply, reply2: LoginReply)
    requires !LoginFieldsValid(Lookup(form, "email"), Lookup(form, "password"), h.isEmail)
    ensures LoginUser(form, h, reply1) == LoginUser(form, h, reply2)
    ensures LoginUser(form, h, reply1).sent == None
    ensures var errs := LoginUser(form, h, reply1).result.errors;
            1 <= |errs| <= 2 && forall i :: 0 <= i < |errs| ==> errs[i].field in {"email", "password"}
    ensures var errs := LoginUser(form, h, reply1).result.errors;
            var issues := LoginIssues(Lookup(form, "email"), Lookup(form, "password"), h.isEmail);
            && |errs| == |issues|
            && forall i :: 0 <= i < |errs| ==> errs[i] == FieldError(issues[i].field, issues[i].message)
    ensures "email" in form && !h.isEmail(form["email"])
            ==> LoginUser(form, h, reply1).result.errors[0] == FieldError("email", EmailMessage)
  {
  }

  /** A non-ok reply gives the backend's message, or the fixed default. */
  lemma BackendRejection(form: Form, h: Helpers, message: Option<string>, setCookie: seq<ParsedCookie>)
    requires LoginFieldsValid(Lookup(form, "email"), Lookup(form, "password"), h.isEmail)
    ensures var out := LoginUser(form, h, Replied(false, message, setCookie));
            && out.result == Failed(if Truthy(message) then message.value else LoginFailedMessage)
            && out.writes == []
  {
  }

  /** No Set-Cookie entry, or none carrying one of the two tokens, gives the
      generic error and writes nothing. */
  lemma MissingTokensFail(form: Form, h: Helpers, message: Option<string>, setCookie: seq<ParsedCookie>)
    requires LoginFieldsValid(Lookup(form, "email"), Lookup(form, "password"), h.isEmail)
    requires setCookie == []
             || (forall j :: 0 <= j < |setCookie| ==> !Carries(setCookie[j], AccessCookie))
             || (forall j :: 0 <= j < |setCookie| ==> !Carries(setCookie[j], RefreshCookie))
    ensures LoginUser(form, h, Replied(true, message, setCookie)) ==
            LoginOutput(Failed(UnexpectedMessage),
                        Some(Credentials(form["email"], form["password"])), [])
  {
  }

  /** The attribute rule for an installed token cookie: secure and
      httpOnly; a Max-Age that reads as a non-zero number is the lifetime,
      anything else gives the fallback; Path and SameSite are copied when
      non-empty, else `/` and `none`. */
  ghost predicate FollowsCookieRule(w: CookieWrite, entry: ParsedCookie, fallback: int) {
    && w.options.secure && w.options.httpOnly
    && (MaxAgeAttribute(entry) in {None, Some(0)} ==> w.options.maxAge == fallback)
    && (MaxAgeAttribute(entry) !in {None, Some(0)} ==> w.options.maxAge == MaxAgeAttribute(entry).value)
    && w.options.path == (if Carries(entry, "Path") then entry["Path"] else "/")
    && w.options.sameSite == (if Carries(entry, "SameSite") then entry["SameSite"] else "none")
  }

  lemma TokenWriteFollowsRule(name: string, entry: ParsedCookie, fallback: int)
    requires name in entry
    ensures FollowsCookieRule(TokenWrite(name, entry, fallback), entry, fallback)
  {
  }

  /** An ok reply carrying both tokens writes the access cookie, then the
      refresh cookie, from the picked entries. */
  lemma LoginWrites(form: Form, h: Helpers, message: Option<string>, setCookie: seq<ParsedCookie>)
    requires LoginFieldsValid(Lookup(form, "email"), Lookup(form, "password"), h.isEmail)
    requires Pick(setCookie, AccessCookie).Some? && Pick(setCookie, RefreshCookie).Some?
    ensures LoginUser(form, h, Replied(true, message, setCookie)).writes
            == [TokenWrite(AccessCookie, Pick(setCookie, AccessCookie).value, AccessMaxAgeFallback),
                TokenWrite(RefreshCookie, Pick(setCookie, RefreshCookie).value, RefreshMaxAgeFallback)]
  {
  }

  /** With several entries carrying a token, the installed value is that of
      the last one, and both cookies follow the attribute rule, each with
      its own fallback lifetime. */
  lemma InstalledTokens(form: Form, h: Helpers, message: Option<string>, setCookie: seq<ParsedCookie>, i: nat, j: nat)
    requires LoginFieldsValid(Lookup(form, "email"), Lookup(form, "password"), h.isEmail)
    requires i < |setCookie| && Carries(setCookie[i], AccessCookie)
    requires forall k :: i < k < |setCookie| ==> !Carries(setCookie[k], AccessCookie)
    requires j < |setCookie| && Carries(setCookie[j], RefreshCookie)
    requires forall k :: j < k < |setCookie| ==> !Carries(setCookie[k], RefreshCookie)
    ensures var w := LoginUser(form, h, Replied(true, message, setCookie)).writes;
            && |w| == 2
            && w[0].name == AccessCookie && w[0].value == setCookie[i][AccessCookie]
            && w[1].name == RefreshCookie && w[1].value == setCookie[j][RefreshCookie]
            && FollowsCookieRule(w[0], setCookie[i], 1000 * 60 * 60)
            && FollowsCookieRule(w[1], setCookie[j], 1000 * 60 * 60 * 24 * 90)
  {
    assert LastCarrying(setCookie, AccessCookie) == Some(i) by { LastIsUnique(setCookie, AccessCookie, i); }
    assert LastCarrying(setCookie, RefreshCookie) == Some(j) by { LastIsUnique(setCookie, RefreshCookie, j); }
    LoginWrites(form, h, message, setCookie);
    TokenWriteFollowsRule(AccessCookie, setCookie[i], AccessMaxAgeFallback);
    TokenWriteFollowsRule(RefreshCookie, setCookie[j], RefreshMaxAgeFallback);
  }

  /** The position found by `LastCarrying` is the only one with its
      defining property. */
  lemma LastIsUnique(entries: seq<ParsedCookie>, name: string, i: nat)
    requires i < |entries| && Carries(entries[i], name)
    requires forall k :: i < k < |entries| ==> !Carries(entries[k], name)
    ensures LastCarrying(entries, name) == Some(i)
  {
    var r := LastCarrying(entries, name);
    assert Carries(entries[i], name);
    assert r.Some?;
  }

  /** Both cookies are written before the token is verified: when the
      verification fails the answer is the generic error, yet afterwards the
      cookie jar holds both tokens. */
  lemma VerificationFailureKeepsCookies(form: Form, h: Helpers, message: Option<string>, setCookie: seq<ParsedCookie>, jar: Jar)
    requires LoginFieldsValid(Lookup(form, "email"), Lookup(form, "password"), h.isEmail)
    requires Pick(setCookie, AccessCookie).Some? && Pick(setCookie, RefreshCookie).Some?
    requires !h.verify(Pick(setCookie, AccessCookie).value[AccessCookie]).ObjectPayload?
    ensures var out := LoginUser(form, h, Replied(true, message, setCookie));
            && out.result == Failed(UnexpectedMessage)
            && AccessCookie in ApplyWrites(jar, out.writes)
            && RefreshCookie in ApplyWrites(jar, out.writes)
            && ApplyWrites(jar, out.writes)[AccessCookie] == Pick(setCookie, AccessCookie).value[AccessCookie]
            && ApplyWrites(jar, out.writes)[RefreshCookie] == Pick(setCookie, RefreshCookie).value[RefreshCookie]
  {
    var out := LoginUser(form, h, Replied(true, message, setCookie));
    LastWriteWins(jar, out.writes, 0);
    LastWriteWins(jar, out.writes, 1);
  }

  /** On success the destination is the requested path exactly when one was
      given, is non-empty and is accepted for the verified role; otherwise
      it is the role's default dashboard. */
  lemma SuccessRedirect(form: Form, h: Helpers, message: Option<string>, setCookie: seq<ParsedCookie>, role: string)
    requires LoginFieldsValid(Lookup(form, "email"), Lookup(form, "password"), h.isEmail)
    requires Pick(setCookie, AccessCookie).Some? && Pick(setCookie, RefreshCookie).Some?
    requires h.verify(Pick(setCookie, AccessCookie).value[AccessCookie]) == ObjectPayload(role)
    ensures var out := LoginUser(form, h, Replied(true, message, setCookie));
            var hint := Lookup(form, "redirect");
            && out.result.Succeeded?
            && (Truthy(hint) && h.isValidRedirectForRole(hint.value, role) ==> out.result.redirectTo == hint.value)
            && (!(Truthy(hint) && h.isValidRedirectForRole(hint.value, role))
                ==> out.result.redirectTo == h.defaultDashboardRoute(role))
  {
  }

  // ---------------------------------------------------------------------
  // Agreement with the request guard
  // ---------------------------------------------------------------------

  /** The redirect helpers follow the guard's role table: an accepted path
      is one the guard admits for the role, and a declared role's default is
      its own dashboard prefix. */
  ghost predicate AgreesWithGuard(h: Helpers) {
    && (forall p, role :: h.isValidRedirectForRole(p, role) ==> Proxy.RoleAdmits(role, p))
    && (forall role :: RoleOf(role) != Other
          ==> h.defaultDashboardRoute(role) == Proxy.PrefixOf(RoleOf(role)))
  }

  /** With helpers that agree with the guard, the destination chosen after
      logging in with a declared role is let through by the guard for a
      request carrying that role: no redirect loop. */
  lemma RedirectTargetPassesGuard(hint: Option<string>, role: string, h: Helpers,
                                  req: Proxy.Request, c: Proxy.Claims, refresh: Proxy.RefreshOutcome)
    requires AgreesWithGuard(h)
    requires RoleOf(role) != Other && c.role == role
    requires Truthy(Lookup(req.cookies, AccessCookie))
    requires req.pathname == SelectRedirect(hint, role, h)
    ensures Proxy.Decide(req, Proxy.Payload(Some(c)), refresh) == Proxy.Response(Proxy.Next, [])
  {
    if !(Truthy(hint) && h.isValidRedirectForRole(hint.value, role)) {
      var r := RoleOf(role);
      assert req.pathname == Proxy.PrefixOf(r);
      assert Name(r) == role;
      Proxy.RoleAdmitsUnderPrefix(r, "");
      assert Proxy.PrefixOf(r) + "" == Proxy.PrefixOf(r);
    }
  }
}
