# Session and route authorisation of the health-care front end

This project models the session layer of a patient-facing health-care web
front end and proves properties of the model in Dafny. Everything outside
that layer is presentational and is not modelled. The layer has these parts:

- **Request guard** (`Proxy`, `src/proxy.ts`). It reads the access cookie
  `accessTokenHealthCare` and the refresh cookie `refreshTokenHealthCare`.
  It decodes the access token, without checking the signature, and tries a
  refresh when there is no user. The outcome is one decision: let the
  request through, send it to `/login?redirect=<path>`, to `/` or to
  `/unauthorized`. A failed refresh also deletes both cookies. Two static
  tables drive the guard: the auth routes and the role → prefix table.
  `Middleware` adds the route matcher: the guard runs only on
  `/dashboard`, `/dashboard/...` and the three auth routes.
- **Login server action** (`LoginAction`, `src/services/auth/loginUser.ts`).
  It validates the form and posts the credentials. It sorts the backend
  reply into a result and picks the two token cookies from the Set-Cookie
  list, where the last carrier of each token wins. It installs both cookies
  with computed attributes, then verifies the access token and chooses the
  post-login destination.
- **Registration server action** (`RegisterAction`,
  `src/services/auth/registerPatient.ts`). It checks each field and then
  that the two passwords match. It sends the create-patient request. On
  success it hands over to the login action. Otherwise it passes the reply
  through or maps an exception to a result.
- **Client login form** (`LoginForm`, `src/components/modules/auth/Login.tsx`).
  The client schema, the state changes of one submission, and the role →
  dashboard switch.
- **Public navbar** (`Navbar`, `src/components/shared/PublicNavbar.tsx`). The
  role it keeps, its menu items and the Login/Logout choice.
- **Logout** (`Logout`). The server action `src/services/auth/logoutUser.ts`
  and the route `src/app/api/logout/route.ts`, modelled as changes to the
  cookie map plus a redirect target.

Shared pieces:

- `Roles` classifies an untrusted role string as ADMIN, DOCTOR, PATIENT or
  `Other`.
- `Cookies` is the cookie jar, a name → value map.
- `JsNumber` models JavaScript's `parseInt` and the `x || fallback` idiom.
- `Validation` models the schema library's string, length and email checks,
  with field-tagged issues.

The model leaves several collaborators as parameters:

- the outcomes of network calls;
- what `jwtDecode` and `jwt.verify` return;
- the email-format test;
- the redirect helpers `isValidRedirectForRole` and
  `getDefaultDashboardRoute`.

Proved properties that span more than one file:

- After a client login with a declared role, the chosen dashboard is one the
  guard lets through for that role.
- The server login's destination passes the guard whenever the redirect
  helpers agree with the guard's table.
- No path is admitted for two different roles.
- Every form the registration accepts also passes the login schema.
- Both logout paths and the guard's forced logout leave the same cookie jar.

### Behaviour of the code worth knowing

- **Undecodable access token.** The guard goes straight to login and does
  not try the refresh cookie (`src/proxy.ts:43-51`). It deletes nothing.
- **Login loop.** On `/login` itself, that redirect goes to
  `/login?redirect=/login`, whose pathname is `/login` again. The cookie is
  never cleared, so every following request gets the same redirect
  (`Proxy.UndecodableAccessLoopsOnLogin`).
- **No verification in the guard.** The guard's `jwtDecode` checks neither
  signature nor expiry.
- **Falsy payload.** A token whose payload decodes to a falsy value leaves
  the guard with no user. Without a refresh cookie, such a request is let
  through on any matched path (`NextCases`).
- **Successful refresh.** The request passes with no role check and no
  auth-route check (`src/proxy.ts:72-80`).
- **Raw prefix test.** The role check is a plain `startsWith`, so
  `/dashboard/administrator` is admitted for ADMIN.
- **Cookie lifetime fallbacks.** The fallbacks `1000*60*60` and
  `1000*60*60*24*90` are passed as `maxAge` as they stand. A Max-Age
  attribute from the reply is passed on as its parsed number.
- **Missing address field.** A missing address field is rejected. The
  schema's `optional()` admits an absent value but not the `null` that
  `formData.get` returns, so to give no address the form must send an empty
  string.
- **Register-then-login.** The login call uses the same form data, so a
  `redirect` field in the registration form is honoured too.
- **Client and server schemas differ.** The client form has no upper bound
  on the password. A password longer than 100 characters passes the client
  and is refused by the server.

### Schema-library behaviour the model assumes

- Each field yields at most one issue.
- A missing value gives a type issue. Its message is the schema's own
  message where it has one, otherwise `Invalid input: expected string,
  received null`.
- The object-level password-match refinement runs whenever every field is a
  string. Failed length or format checks do not stop it; a type issue does.

## Model

| member | source | states |
|---|---|---|
| Roles.RoleOf | src/types/userTypes.ts:4 | a role string is one of the three declared roles exactly when it spells one; anything else is `Other` |
| Roles.RoleOfName | src/types/userTypes.ts:4 | classifying the spelling of a declared role gives that role back |
| Cookies.DeleteAll | src/services/auth/logoutUser.ts:7-8 | deleting cookies removes exactly the named ones and keeps every other value; deleting an absent cookie is a no-op |
| Cookies.ApplyWrites | src/services/auth/loginUser.ts:99-122 | installing cookies adds exactly the written names and keeps untouched cookies |
| Cookies.LastWriteWins | src/services/auth/loginUser.ts:99-122 | the last write of a name decides its value in the jar |
| Proxy.RoleRoutes | src/proxy.ts:14-18 | the table has an entry exactly for the three declared roles, one prefix each |
| Proxy.AnyPrefix | src/proxy.ts:115 | `some(startsWith)` holds exactly when some listed prefix starts the path |
| Proxy.RoleAdmits | src/proxy.ts:112-115 | a role string is admitted on a path exactly when it is a declared role and the path starts with that role's prefix; an admitted path lies under `/dashboard/` and is no auth route |
| Proxy.LoginRedirect | src/proxy.ts:33-35 | the login URL starts with `/login?redirect=` and carries the path back unchanged after it |
| Proxy.Decide | src/proxy.ts:23-124 | cookies are deleted only as the pair of session cookies and only with a login redirect; every redirect goes to login-with-path, `/` or `/unauthorized` |
| Proxy.Matched | src/proxy.ts:129-131 | the matcher covers every path the role table admits and every auth route, and neither `/` nor `/unauthorized` |
| Proxy.NoCookiesProtectedPath | src/proxy.ts:32-36 | no cookies and a path outside the auth routes: redirect to `/login?redirect=<path>`, nothing deleted |
| Proxy.NoCookiesAuthRoute | src/proxy.ts:32-123 | no cookies on an auth route: the request passes |
| Proxy.UndecodableAccessSkipsRefresh | src/proxy.ts:43-51 | an access cookie that fails to decode gives the login redirect whatever the refresh would do, and deletes nothing |
| Proxy.UndecodableAccessLoopsOnLogin | src/proxy.ts:43-51 | with an undecodable access cookie, `/login` is redirected to `/login?redirect=/login` with nothing deleted; that target's pathname is `/login`, so the next request gets the same answer |
| Proxy.RefreshOnlyWhenNoUser | src/proxy.ts:61-99 | outside the refresh path (no user, refresh cookie present) the refresh outcome cannot change the decision |
| Proxy.RefreshOkPasses | src/proxy.ts:72-80 | a successful refresh passes the request on any path, with no role or auth-route check |
| Proxy.RefreshFailureLogsOut | src/proxy.ts:81-97 | a non-ok or throwing refresh redirects to login with the path and deletes the access then the refresh cookie |
| Proxy.DeletesOnlyOnFailedRefresh | src/proxy.ts:81-98 | cookies are deleted if and only if a refresh was attempted and failed |
| Proxy.DecodedUserOnAuthRoute | src/proxy.ts:104-106 | a decoded user on an auth route is redirected to `/` |
| Proxy.DecodedUserRoleCheck | src/proxy.ts:111-121 | a decoded user elsewhere passes if and only if the role is declared and the path starts with its prefix; otherwise, unmapped roles included, the answer is `/unauthorized` |
| Proxy.NextCases | src/proxy.ts:23-124 | the request passes exactly in four cases: no session on an auth route, an admitted decoded user, a successful refresh, a falsy payload with no refresh cookie |
| Proxy.OnePrefixPerRole | src/proxy.ts:14-18 | ADMIN, DOCTOR and PATIENT each map to their single dashboard prefix; other roles have no entry |
| Proxy.PrefixOf | src/proxy.ts:14-18 | each declared role's one prefix lies under `/dashboard/` |
| Proxy.PrefixesIncomparable | src/proxy.ts:14-18 | no declared role's prefix is a prefix of another's |
| Proxy.NoPathForTwoRoles | src/proxy.ts:112-115 | a path admitted for two role strings is admitted for one role only: their classes are equal |
| Proxy.RoleAdmitsUnderPrefix | src/proxy.ts:115 | every path that extends a declared role's prefix is admitted for that role |
| Proxy.RawPrefixAdmitsSibling | src/proxy.ts:115 | the raw prefix test admits `/dashboard/administrator` for ADMIN |
| JsNumber.ParseDecimal | src/services/auth/loginUser.ts:105 | `parseInt` reads back the decimal text of every natural number |
| JsNumber.PositiveLifetimeKept | src/services/auth/loginUser.ts:105 | a positive Max-Age is used as given |
| JsNumber.ZeroOrGarbageFallsBack | src/services/auth/loginUser.ts:105 | for every text, `parseInt(x) \|\| fallback` takes the fallback exactly when `parseInt` finds no digit other than `0` (none at all, or `0`, `-0`, `0x0`, ...); otherwise the parsed number is kept |
| JsNumber.TrailingTextIgnored | src/services/auth/loginUser.ts:105 | for every non-empty run of decimal digits followed by text that does not start with a digit, `parseInt` reads the digits' value and ignores the text; the one exception is `0` followed by `x` or `X`, which starts a hexadecimal number |
| JsNumber.HexPrefixRead | src/services/auth/loginUser.ts:105 | the exception above: `0x1f` reads as 31, not 0 |
| JsNumber.ParseInt | src/services/auth/loginUser.ts:105 | `parseInt` is `NaN` exactly when no digit of the base follows the white space, sign and `0x` prefix; a negative result comes only after a minus sign |
| Validation.StringIssues | src/services/auth/loginUser.ts:17-24 | a string field has no issue exactly when it is present and within its length bounds; a missing value gives one type issue |
| Validation.EmailIssues | src/services/auth/loginUser.ts:14-16 | an email field has no issue exactly when present and email-shaped, else one issue with the schema's message |
| LoginAction.LoginIssues | src/services/auth/loginUser.ts:13-25 | no issue exactly when the email is valid and the password has 6 to 100 characters; issues are tagged email or password, email first; a missing email gives a type issue with `Email is required`, an invalid one the same message; a missing password gives `Password is required` last; a short or long password gives its length message; an invalid email and a short password give exactly both issues |
| LoginAction.LastCarrying | src/services/auth/loginUser.ts:77-86 | finds the last Set-Cookie entry carrying a non-empty token, or reports that none does |
| LoginAction.Pick | src/services/auth/loginUser.ts:77-86 | the chosen entry carries the token; nothing is chosen exactly when no entry carries it |
| LoginAction.CollectTokens | src/services/auth/loginUser.ts:76-86 | the `forEach` leaves the last carrier of each token |
| LoginAction.LastIsUnique | src/services/auth/loginUser.ts:77-86 | the last carrier is the only entry that carries the token with no later carrier |
| LoginAction.LoginUser | src/services/auth/loginUser.ts:27-162 | rejected with field errors exactly when validation fails; nothing is sent exactly then; cookies are written as the access/refresh pair or not at all; success carries the fixed message |
| LoginAction.InvalidFormNoCall | src/services/auth/loginUser.ts:42-54 | an invalid form gets exactly the schema's issues as errors, in order, each with its field and message; an email that is not a valid address gives `Email is required` first; no request is sent, and the backend cannot affect the answer |
| LoginAction.BackendRejection | src/services/auth/loginUser.ts:65-72 | a non-ok reply with an object body gives that body's message, or the fixed default when it has none, and writes no cookie |
| LoginAction.MissingTokensFail | src/services/auth/loginUser.ts:76-97 | an empty Set-Cookie list, or one with no access or no refresh token, gives the generic error and writes no cookie |
| LoginAction.TokenWriteFollowsRule | src/services/auth/loginUser.ts:99-109 | a token write is secure and httpOnly; its lifetime is the Max-Age read by `parseInt` when that is non-zero, else the fallback; Path and SameSite are copied when non-empty, else `/` and `none` |
| LoginAction.LoginWrites | src/services/auth/loginUser.ts:76-122 | an ok reply in which both tokens are found writes exactly two cookies, the access token first and then the refresh token, each from the entry picked for it |
| LoginAction.InstalledTokens | src/services/auth/loginUser.ts:77-122 | the installed values come from the last carriers; both cookies are secure and httpOnly; a Max-Age that parses to a non-zero number is the lifetime, otherwise `1000*60*60` for access and `1000*60*60*24*90` for refresh; Path and SameSite are copied when non-empty, else `/` and `none` (the rule `FollowsCookieRule`, stated for each of the two writes) |
| LoginAction.MaxAgeFromHeader | src/services/auth/loginUser.ts:105 | a missing Max-Age attribute reads as `NaN`, and the decimal text of a number reads as that number |
| LoginAction.VerificationFailureKeepsCookies | src/services/auth/loginUser.ts:99-133 | when verification fails the result is the generic error, yet the jar afterwards holds both tokens |
| LoginAction.SuccessRedirect | src/services/auth/loginUser.ts:135-154 | on success the destination is the requested path exactly when present, non-empty and accepted for the verified role, else the role's default |
| LoginAction.RedirectTargetPassesGuard | src/services/auth/loginUser.ts:138-148 | with redirect helpers that follow the guard's table, the guard lets the chosen destination through for that role |
| RegisterAction.FieldIssues | src/services/auth/registerPatient.ts:8-22 | no type issue exactly when all five fields are present; no issue exactly when every field rule holds; with a good name, an invalid email gives `Valid email is required` first; when only the confirmation is too short, the one issue is the confirmation's length message |
| RegisterAction.RegisterIssues | src/services/auth/registerPatient.ts:6-27 | no issue exactly when the declarative registration rule holds; with only the match failing, the single issue is "Passwords do not match" on confirmPassword |
| RegisterAction.RegisterPatient | src/services/auth/registerPatient.ts:29-99 | invalid exactly when the rule fails, and then nothing is sent and the errors are the schema's issues one for one, in order, each with its field and message; a sent request carries only password, name, address and email |
| RegisterAction.EmptyNameRejected | src/services/auth/registerPatient.ts:8 | an empty name is rejected with "Name is required" first |
| RegisterAction.EmptyAddressAccepted | src/services/auth/registerPatient.ts:9 | an empty address does not make a valid form invalid |
| RegisterAction.MissingAddressRejected | src/services/auth/registerPatient.ts:9 | a missing address field is rejected with a type issue, and the match rule is then skipped |
| RegisterAction.LengthRulesReject | src/services/auth/registerPatient.ts:11-22 | a password outside 6..100 or a confirmation under 6 characters is rejected |
| RegisterAction.MismatchOnly | src/services/auth/registerPatient.ts:24-27 | otherwise-valid fields with differing passwords give exactly one error on confirmPassword and send nothing |
| RegisterAction.RegisteredFormPassesLogin | src/services/auth/registerPatient.ts:84 | a form valid for registration passes the login schema |
| RegisterAction.CreatedThenLogin | src/services/auth/registerPatient.ts:81-87 | `success === true` gives exactly login's result on the same form, and login sends the submitted credentials |
| RegisterAction.OtherReplyPassedThrough | src/services/auth/registerPatient.ts:90 | any other reply is returned unchanged |
| RegisterAction.ExceptionHandling | src/services/auth/registerPatient.ts:91-98 | an exception is rethrown exactly when its digest starts with `NEXT_REDIRECT`, else it gives "Registration failed" |
| LoginForm.DashboardFor | src/components/modules/auth/Login.tsx:75-88 | a declared role goes to the guard's prefix for it; any other role goes to `/` |
| LoginForm.OnSubmit | src/components/modules/auth/Login.tsx:61-101 | a submission always ends with loading off; it navigates exactly after a successful login whose status check reports an authenticated user, to that role's dashboard; authenticated without a user sets the no-user message; a throw from the login call or from the status check sets its message or the default and leaves the user as it was |
| LoginForm.Submit | src/components/modules/auth/Login.tsx:32-37 | a form failing the client schema leaves the state alone; otherwise the submission ends not loading |
| LoginForm.ClientSchemaValid | src/components/modules/auth/Login.tsx:32-37 | the client schema admits exactly what the server's schema admits, plus passwords longer than the server's maximum |
| LoginForm.DashboardTargets | src/components/modules/auth/Login.tsx:75-88 | ADMIN, DOCTOR and PATIENT go to their dashboards, every other role to `/` |
| LoginForm.DashboardPassesGuard | src/components/modules/auth/Login.tsx:75-84 | for each declared role the target is matched by the guard and let through for that role |
| LoginForm.OtherRoleGoesHome | src/components/modules/auth/Login.tsx:85-87 | `/` is outside the guard's matcher, so it always passes |
| LoginForm.ServerValidIsClientValid | src/components/modules/auth/Login.tsx:32-37 | every email/password the server schema accepts the client schema accepts |
| LoginForm.ClientAdmitsOverlongPassword | src/components/modules/auth/Login.tsx:34-36 | a 101-character password passes the client and fails the server |
| LoginForm.FailedLoginClearsError | src/components/modules/auth/Login.tsx:63-100 | an unsuccessful login leaves the error cleared and loading off |
| Navbar.Render | src/components/shared/PublicNavbar.tsx:41-92 | desktop and mobile menus show the same items and the same control |
| Navbar.AdminItemOnlyForAdmin | src/components/shared/PublicNavbar.tsx:29-31 | the admin item is present exactly for ADMIN, and then once |
| Navbar.GuestView | src/components/shared/PublicNavbar.tsx:11-16 | with no user or no role the bar looks as it does initially: static items and the Login link |
| Navbar.ReportedRoleShown | src/components/shared/PublicNavbar.tsx:13-92 | once a role is reported, Logout is shown unless the role is literally `guest`; the admin item appears exactly for ADMIN; the static items stay first in both menus |
| Navbar.AdminItemAdmitted | src/components/shared/PublicNavbar.tsx:30 | the admin item's target is admitted by the guard for ADMIN |
| Logout.LogoutUser | src/services/auth/logoutUser.ts:6-11 | both session cookies are gone, all others keep their values, and the target is `/login?loggedOut=true` |
| Logout.LogoutIdempotent | src/services/auth/logoutUser.ts:7-8 | logout leaves a jar without session cookies unchanged, and twice is once |
| Logout.ApplyResponse | src/app/api/logout/route.ts:5-6 | a response removes exactly its deleted cookies from the jar and keeps the rest |
| Logout.RouteClearsSession | src/app/api/logout/route.ts:5-6 | after the route both session cookies are gone and no other cookie changed |
| Logout.RouteIdempotent | src/app/api/logout/route.ts:5-6 | the route leaves a jar without session cookies unchanged, and twice is once |
| Logout.LogoutLandsOnLogin | src/app/api/logout/route.ts:4-6 | after either logout the browser lands on `/login` (the action's target, without its query), and the guard serves it |
| Logout.SameJarDifferentTargets | src/app/api/logout/route.ts:4-6 | the route, the server action and the guard's forced logout leave the same jar; only the server action's target carries `loggedOut=true` |

## Left out

- Decoding and verifying tokens (`jwtDecode`, `jwt.verify`) are inputs.
  Their signature and expiry checks are not modelled.
- Network calls are inputs: their outcomes stand for the login, refresh and
  create-patient requests. The refresh endpoint's own cookie handling is not
  modelled.
- Email-format checking is a parameter `isEmail`. The server and client
  schemas are assumed to use the same test.
- `isValidRedirectForRole` and `getDefaultDashboardRoute` are parameters.
  `src/lib/auth-utils` is not part of this model. The guard-agreement lemma
  states as a hypothesis what those helpers must satisfy.
- `setCookie` and `deleteCookie` are modelled as plain map updates.
  `tokenHandlers` is not part of this model. So is the unit of `maxAge`
  (seconds or milliseconds).
- `cookie.parse` is not modelled. Each Set-Cookie entry arrives already
  parsed into a name → value map.
- The second `jwtDecode` after a successful refresh (`src/proxy.ts:78`) is
  left out. It decodes the same cookie again and cannot change the
  decision.
- Proxy.RoleRoutes: a role string that names an inherited object property,
  such as `constructor`, makes the source's lookup return a function. The
  `some` call then throws. The model treats such a role as having no entry.
- Proxy.Decide: a truthy payload that is not an object, and a role claim
  that is not a string, are folded into `Claims` with a string role.
- JsNumber.ParseInt: only the common white-space code points are skipped.
  Values beyond 2^53 are exact here but rounded in JavaScript.
- Validation.StringIssues: lengths count Unicode scalar values. JavaScript
  counts UTF-16 code units, so characters outside the Basic Multilingual
  Plane count once here and twice in the source.
- Form values that are files rather than strings are not modelled.
- LoginAction.LoginUser: a non-ok reply whose JSON body is `null` makes
  `errorData.message` throw, and the catch answers with the generic
  unexpected-error text. The model has no reply for that case; it is
  written as `FetchThrew`, which gives the same output.
- LoginAction.BackendRejection: covers non-ok replies with an object body
  only (or a body that is not JSON). The `null` body is the case above. The
  body's `message` is a string or absent: a truthy message of another type
  (a number or an object) cannot be represented, so the model does not say
  what text the code would pass on for it.
- RegisterAction.RegisterPatient: a `null` JSON body makes `result.success`
  throw. That case counts as a create exception without a digest.
- The client form's show-password toggle, mounted flag and markup are not
  modelled. The login call and `checkAuthStatus` it uses come from
  `src/utility`, which is not part of this model; their outcomes are
  inputs.
- Navbar: if the auth-status check throws, the role stays at its initial
  `guest`, which `InitialRole` covers. The markup is not modelled.
- Several simultaneous refreshes from one session are not modelled, nor are
  redirect mechanics beyond the target string or logging.
- Presentational components, the user-context provider, the logout button
  and `getUserInfo` are not modelled: they hold no session logic beyond
  calls to the modelled functions.
