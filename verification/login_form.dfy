/** The client login form of src/components/modules/auth/Login.tsx: its
    schema, and what one submission does to the form state and where it
    navigates. The login call and the auth-status check it makes are not
    visible here; their outcomes are inputs. */
module LoginForm {
  import opened Wrappers
  import opened Strings
  import opened Roles
  import opened Cookies
  import LoginAction
  import Proxy

  const NoUserMessage: string := "Failed to retrieve user information after login."
  const DefaultErrorMessage: string := "Login failed. Please check your credentials and try again."
  const ClientMinPassword: nat := 6

  /** `loginSchema`: an email address and at least six password characters,
      with no upper bound. It admits what the server's schema admits, and
      beyond that only passwords longer than the server's maximum. */
  function ClientSchemaValid(email: string, password: string, isEmail: string -> bool): (v: bool)
    ensures v <==> LoginAction.LoginFieldsValid(Some(email), Some(password), isEmail)
                   || (isEmail(email) && |password| > LoginAction.MaxPassword)
  {
    isEmail(email) && |password| >= ClientMinPassword
  }

  /** The `switch` on the role after a successful login. */
  function DashboardFor(role: string): (target: string)
    ensures RoleOf(role) != Other ==> target == Proxy.PrefixOf(RoleOf(role))
    ensures RoleOf(role) == Other ==> target == Proxy.HomePath
  {
    match role
    case "ADMIN" => "/dashboard/admin"
    case "DOCTOR" => "/dashboard/doctor"
    case "PATIENT" => "/dashboard/patient"
    case _ => "/"
  }

  /** The user record the auth-status check reports. */
  datatype SessionUser = SessionUser(role: string)

  /** How the login call ended: it threw (with its message, empty when it
      has none) or it returned a reply with a `success` flag. */
  datatype LoginCall = CallThrew(message: string) | CallReturned(success: bool)

  /** How the auth-status check ended. */
  datatype AuthCheck = AuthThrew(message: string) | AuthStatus(isAuthenticated: bool, user: Option<SessionUser>)

  /** The component state a submission touches, and the user context. */
  datatype FormState = FormState(isLoading: bool, error: Option<string>, user: Option<SessionUser>)

  /** The state after a submission, and the navigation it started. */
  datatype Submission = Submission(state: FormState, navigatedTo: Option<string>)

  /** `err.message || default`. */
  function ErrorText(message: string): string {
    if message != "" then message else DefaultErrorMessage
  }

  /** What the two setters at the start of `onSubmit` leave. */
  function Started(s: FormState): FormState
  {
    s.(isLoading := true, error := None)
  }

  /** `onSubmit`: the try block from the started state, then the `finally`. */
  function OnSubmit(s: FormState, call: LoginCall, auth: AuthCheck): (r: Submission)
    ensures !r.state.isLoading
    ensures r.navigatedTo.Some? <==>
              call == CallReturned(true) && auth.AuthStatus? && auth.isAuthenticated && auth.user.Some?
    ensures r.navigatedTo.Some? ==> r.navigatedTo.value == DashboardFor(auth.user.value.role) && r.state.error.None?
    ensures call == CallReturned(true) && auth.AuthStatus? && !(auth.isAuthenticated && auth.user.Some?)
            ==> r.state.error == Some(NoUserMessage)
    ensures call == CallReturned(false) ==> r.state.error.None? && r.state.user == s.user
    ensures call.CallThrew? ==> r.state.error == Some(ErrorText(call.message)) && r.state.user == s.user
    ensures call == CallReturned(true) && auth.AuthThrew?
            ==> r.state.error == Some(ErrorText(auth.message)) && r.state.user == s.user
    ensures call == CallReturned(true) && auth.AuthStatus? ==> r.state.user == auth.user
  {
    var started := Started(s);
    var tried :=
      match call
      case CallThrew(m) => Submission(started.(error := Some(ErrorText(m))), None)
      case CallReturned(success) =>
        if !success then Submission(started, None)
        else
          match auth
          case AuthThrew(m) => Submission(started.(error := Some(ErrorText(m))), None)
          case AuthStatus(isAuthenticated, user) =>
            var withUser := started.(user := user);
            if isAuthenticated && user.Some? then Submission(withUser, Some(DashboardFor(user.value.role)))
            else Submission(withUser.(error := Some(NoUserMessage)), None);
    tried.(state := tried.state.(isLoading := false))
  }

  /** A form the zod resolver rejects never reaches `onSubmit`. */
  function Submit(s: FormState, email: string, password: string, isEmail: string -> bool,
                  call: LoginCall, auth: AuthCheck): (r: Submission)
    ensures !ClientSchemaValid(email, password, isEmail) ==> r == Submission(s, None)
    ensures ClientSchemaValid(email, password, isEmail) ==> !r.state.isLoading
  {
    if ClientSchemaValid(email, password, isEmail) then OnSubmit(s, call, auth) else Submission(s, None)
  }

  // ---------------------------------------------------------------------
  // Properties
  // ---------------------------------------------------------------------

  /** The role switch, spelled out. */
  lemma DashboardTargets()
    ensures DashboardFor("ADMIN") == "/dashboard/admin"
    ensures DashboardFor("DOCTOR") == "/dashboard/doctor"
    ensures DashboardFor("PATIENT") == "/dashboard/patient"
    ensures forall role :: RoleOf(role) == Other ==> DashboardFor(role) == "/"
  {
  }

  /** For each declared role the client navigates to a path the guard lets
      through for a request carrying that role. */
  lemma {:induction false} DashboardPassesGuard(req: Proxy.Request, c: Proxy.Claims, refresh: Proxy.RefreshOutcome)
    requires RoleOf(c.role) != Other
    requires Truthy(Lookup(req.cookies, AccessCookie))
    requires req.pathname == DashboardFor(c.role)
    ensures Proxy.Matched(req.pathname)
    ensures Proxy.Middleware(req, Proxy.Payload(Some(c)), refresh) == Proxy.Response(Proxy.Next, [])
  {
    var r := RoleOf(c.role);
    Proxy.RoleAdmitsUnderPrefix(r, "");
    assert Proxy.PrefixOf(r) + "" == Proxy.PrefixOf(r);
    assert StartsWith(req.pathname, "/dashboard/");
  }

  /** Any other role goes home, a path the guard is not run on. */
  lemma OtherRoleGoesHome(req: Proxy.Request, decoded: Proxy.Decoded, refresh: Proxy.RefreshOutcome)
    requires req.pathname == "/"
    ensures !Proxy.Matched(req.pathname)
    ensures Proxy.Middleware(req, decoded, refresh) == Proxy.Response(Proxy.Next, [])
  {
  }

  /** Every password the server accepts the client accepts too. */
  lemma ServerValidIsClientValid(email: string, password: string, isEmail: string -> bool)
    requires LoginAction.LoginFieldsValid(Some(email), Some(password), isEmail)
    ensures ClientSchemaValid(email, password, isEmail)
  {
  }

  /** The converse fails: the client has no upper bound, so a 101-character
      password passes the client and is refused by the server. */
  lemma ClientAdmitsOverlongPassword(email: string, isEmail: string -> bool)
    requires isEmail(email)
    ensures var p := seq(101, _ => 'a');
            ClientSchemaValid(email, p, isEmail)
            && !LoginAction.LoginFieldsValid(Some(email), Some(p), isEmail)
  {
  }

  /** A failed login leaves the error cleared and loading off, whatever the
      state before. */
  lemma FailedLoginClearsError(s: FormState, auth: AuthCheck)
    ensures OnSubmit(s, CallReturned(false), auth) == Submission(s.(isLoading := false, error := None), None)
  {
  }
}
