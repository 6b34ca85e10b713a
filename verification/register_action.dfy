/** The registration server action of src/services/auth/registerPatient.ts:
    validate the form, post the new patient, then either log in with the
    same form or pass the backend's answer through. Both network calls are
    inputs: the create call's outcome and the login call's reply. */
module RegisterAction {
  import opened Wrappers
  import opened Strings
  import opened Validation
  import opened LoginAction

  const NameMessage: string := "Name is required"
  const ValidEmailMessage: string := "Valid email is required"
  const ConfirmMinMessage: string := "Confirm Password is required and must be at least 6 characters long"
  const MismatchMessage: string := "Passwords do not match"
  const RegistrationFailedMessage: string := "Registration failed"
  const RedirectDigestPrefix: string := "NEXT_REDIRECT"

  /** `{ name, address, email }` of the create request. */
  datatype PatientData = PatientData(name: string, address: string, email: string)

  /** The JSON placed in the `data` field of the create request. */
  datatype CreatePatientPayload = CreatePatientPayload(password: string, patient: PatientData)

  /** The create endpoint's JSON answer: whether `success === true` holds,
      and the rest of the body, which is handed back as it is. */
  datatype CreateReply = CreateReply(successTrue: bool, body: string)

  /** How the create call ended: with a parsed answer, or with an exception
      (a failed fetch, a body that is not JSON) and that exception's
      `digest`, if it has one. */
  datatype CreateOutcome = CreateThrew(digest: Option<string>) | CreateReplied(reply: CreateReply)

  datatype RegisterResult =
    | Invalid(errors: seq<FieldError>)        // success: false, errors
    | ViaLogin(login: LoginOutput)            // whatever loginUser returned
    | PassedThrough(reply: CreateReply)       // the backend's answer
    | RegistrationFailed                      // { error: "Registration failed" }
    | Rethrown(digest: string)                // a framework redirect, thrown on

  datatype RegisterOutput = RegisterOutput(result: RegisterResult, sent: Option<CreatePatientPayload>)

  // ---------------------------------------------------------------------
  // Validation
  // ---------------------------------------------------------------------

  /** The five fields are all present as strings. */
  predicate AllStrings(form: Form) {
    && "name" in form && "address" in form && "email" in form
    && "password" in form && "confirmPassword" in form
  }

  /** The declarative rule: a non-empty name, an address (possibly empty),
      an email address, a password of 6 to 100 characters and an equal
      confirmation. */
  predicate RegisterFieldsValid(form: Form, isEmail: string -> bool) {
    && AllStrings(form)
    && |form["name"]| >= 1
    && isEmail(form["email"])
    && MinPassword <= |form["password"]| <= MaxPassword
    && |form["confirmPassword"]| >= MinPassword
    && form["password"] == form["confirmPassword"]
  }

  /** The per-field issues, in the schema's field order. */
  function FieldIssues(form: Form, isEmail: string -> bool): (r: seq<Issue>)
    ensures !HasTypeIssue(r) <==> AllStrings(form)
    ensures r == [] <==> AllStrings(form) && |form["name"]| >= 1 && isEmail(form["email"])
                         && MinPassword <= |form["password"]| <= MaxPassword
                         && |form["confirmPassword"]| >= MinPassword
    ensures AllStrings(form) && |form["name"]| >= 1 && !isEmail(form["email"])
            ==> r[0] == Issue("email", ValidEmailMessage, false)
    ensures AllStrings(form) && |form["name"]| >= 1 && isEmail(form["email"])
            && MinPassword <= |form["password"]| <= MaxPassword
            && |form["confirmPassword"]| < MinPassword
            ==> r == [Issue("confirmPassword", ConfirmMinMessage, false)]
  {
    var name := StringIssues("name", Lookup(form, "name"), NotAString, 1, NameMessage, None, "");
    // `z.string().optional()` admits `undefined` only, not the `null` a
    // missing form field gives
    var address := if "address" in form then [] else [Issue("address", NotAString, true)];
    var email := EmailIssues("email", Lookup(form, "email"), isEmail, ValidEmailMessage);
    var password := StringIssues("password", Lookup(form, "password"), NotAString,
                                 MinPassword, PasswordMinMessage, Some(MaxPassword), PasswordMaxMessage);
    var confirm := StringIssues("confirmPassword", Lookup(form, "confirmPassword"), NotAString,
                                MinPassword, ConfirmMinMessage, None, "");
    var r := name + address + email + password + confirm;
    FieldTypeIssue(name, "name" in form);
    FieldTypeIssue(address, "address" in form);
    FieldTypeIssue(email, "email" in form);
    FieldTypeIssue(password, "password" in form);
    FieldTypeIssue(confirm, "confirmPassword" in form);
    assert HasTypeIssue(r) <==> HasTypeIssue(name) || HasTypeIssue(address) || HasTypeIssue(email)
                                || HasTypeIssue(password) || HasTypeIssue(confirm) by {
      TypeIssueOfConcat(name, address);
      TypeIssueOfConcat(name + address, email);
      TypeIssueOfConcat(name + address + email, password);
      TypeIssueOfConcat(name + address + email + password, confirm);
    }
    r
  }

  /** A field's issues hold a type issue exactly when the field is missing. */
  lemma FieldTypeIssue(r: seq<Issue>, present: bool)
    requires present ==> forall i :: 0 <= i < |r| ==> !r[i].typeIssue
    requires !present ==> r != [] && r[0].typeIssue
    ensures HasTypeIssue(r) <==> !present
  {
  }

  lemma TypeIssueOfConcat(a: seq<Issue>, b: seq<Issue>)
    ensures HasTypeIssue(a + b) <==> HasTypeIssue(a) || HasTypeIssue(b)
  {
    if HasTypeIssue(a) {
      var i :| 0 <= i < |a| && a[i].typeIssue;
      assert (a + b)[i] == a[i];
    }
    if HasTypeIssue(b) {
      var i :| 0 <= i < |b| && b[i].typeIssue;
      assert (a + b)[|a| + i] == b[i];
    }
    if HasTypeIssue(a + b) {
      var i :| 0 <= i < |a + b| && (a + b)[i].typeIssue;
      if i >= |a| {
        assert b[i - |a|] == (a + b)[i];
      } else {
        assert a[i] == (a + b)[i];
      }
    }
  }

  /** `registerValidationZodSchema.safeParse`: the field issues, then the
      password-match refinement, which runs whenever every field is a string
      (a failed length or format check does not stop it). */
  function RegisterIssues(form: Form, isEmail: string -> bool): (r: seq<Issue>)
    ensures r == [] <==> RegisterFieldsValid(form, isEmail)
    ensures FieldIssues(form, isEmail) == [] && !RegisterFieldsValid(form, isEmail)
            ==> r == [Issue("confirmPassword", MismatchMessage, false)]
  {
    var fields := FieldIssues(form, isEmail);
    if !HasTypeIssue(fields) && form["password"] != form["confirmPassword"] then
      fields + [Issue("confirmPassword", MismatchMessage, false)]
    else
      fields
  }

  // ---------------------------------------------------------------------
  // The action
  // ---------------------------------------------------------------------

  /** The create request built from a validated form. */
  function Payload(form: Form): CreatePatientPayload
    requires AllStrings(form)
  {
    CreatePatientPayload(form["password"], PatientData(form["name"], form["address"], form["email"]))
  }

  /** `registerPatient(_, formData)`. */
  function RegisterPatient(form: Form, h: Helpers, create: CreateOutcome, loginReply: LoginReply): (out: RegisterOutput)
    ensures out.result.Invalid? <==> !RegisterFieldsValid(form, h.isEmail)
    ensures out.result.Invalid? ==> out.result.errors != []
    ensures out.result.Invalid? ==>
              var issues := RegisterIssues(form, h.isEmail);
              && |out.result.errors| == |issues|
              && forall i :: 0 <= i < |issues| ==> out.result.errors[i] == FieldError(issues[i].field, issues[i].message)
    ensures out.sent.None? <==> out.result.Invalid?
    ensures out.sent.Some? ==>
              && out.sent.value.password == form["password"]
              && out.sent.value.patient == PatientData(form["name"], form["address"], form["email"])
  {
    var issues := RegisterIssues(form, h.isEmail);
    if issues != [] then
      RegisterOutput(Invalid(ToFieldErrors(issues)), None)
    else
      var sent := Some(Payload(form));
      match create
      case CreateReplied(reply) =>
        if reply.successTrue then RegisterOutput(ViaLogin(LoginUser(form, h, loginReply)), sent)
        else RegisterOutput(PassedThrough(reply), sent)
      case CreateThrew(digest) =>
        if digest.Some? && StartsWith(digest.value, RedirectDigestPrefix) then
          RegisterOutput(Rethrown(digest.value), sent)
        else
          RegisterOutput(RegistrationFailed, sent)
  }

  // ---------------------------------------------------------------------
  // Properties
  // ---------------------------------------------------------------------

  /** An empty name is rejected, with the name's own message first. */
  lemma EmptyNameRejected(form: Form, isEmail: string -> bool)
    requires "name" in form && form["name"] == ""
    ensures RegisterIssues(form, isEmail) != []
    ensures RegisterIssues(form, isEmail)[0] == Issue("name", NameMessage, false)
  {
  }

  /** An empty address is fine. */
  lemma EmptyAddressAccepted(form: Form, isEmail: string -> bool)
    requires RegisterFieldsValid(form, isEmail)
    ensures RegisterFieldsValid(form["address" := ""], isEmail)
  {
  }

  /** A missing address field is rejected with a type issue tagged
      `address`, and the password-match rule is then not applied. */
  lemma MissingAddressRejected(form: Form, isEmail: string -> bool)
    requires "address" !in form
    ensures var r := RegisterIssues(form, isEmail);
            && r != []
            && (exists i :: 0 <= i < |r| && r[i] == Issue("address", NotAString, true))
            && (forall i :: 0 <= i < |r| ==> r[i].message != MismatchMessage)
  {
    var fields := FieldIssues(form, isEmail);
    assert RegisterIssues(form, isEmail) == fields;
    var name := StringIssues("name", Lookup(form, "name"), NotAString, 1, NameMessage, None, "");
    assert fields[|name|] == Issue("address", NotAString, true);
  }

  /** A password outside 6..100 characters or a confirmation shorter than 6
      characters is rejected. */
  lemma LengthRulesReject(form: Form, isEmail: string -> bool)
    requires AllStrings(form)
    requires !(MinPassword <= |form["password"]| <= MaxPassword) || |form["confirmPassword"]| < MinPassword
    ensures RegisterIssues(form, isEmail) != []
  {
  }

  /** With every field otherwise valid, differing passwords give exactly one
      error, "Passwords do not match", tagged `confirmPassword`. */
  lemma MismatchOnly(form: Form, h: Helpers, create: CreateOutcome, loginReply: LoginReply)
    requires AllStrings(form) && |form["name"]| >= 1 && h.isEmail(form["email"])
    requires MinPassword <= |form["password"]| <= MaxPassword && |form["confirmPassword"]| >= MinPassword
    requires form["password"] != form["confirmPassword"]
    ensures RegisterPatient(form, h, create, loginReply)
            == RegisterOutput(Invalid([FieldError("confirmPassword", MismatchMessage)]), None)
  {
  }

  /** A form the registration accepts also passes the login schema, so the
      login that follows a successful create is never refused on its
      fields. */
  lemma RegisteredFormPassesLogin(form: Form, isEmail: string -> bool)
    requires RegisterFieldsValid(form, isEmail)
    ensures LoginFieldsValid(Lookup(form, "email"), Lookup(form, "password"), isEmail)
  {
  }

  /** A successful create hands over to login on the same form: the result
      is exactly login's, and login sends the submitted credentials. */
  lemma CreatedThenLogin(form: Form, h: Helpers, body: string, loginReply: LoginReply)
    requires RegisterFieldsValid(form, h.isEmail)
    ensures var out := RegisterPatient(form, h, CreateReplied(CreateReply(true, body)), loginReply);
            && out.result == ViaLogin(LoginUser(form, h, loginReply))
            && !out.result.login.result.Rejected?
            && out.result.login.sent == Some(Credentials(form["email"], form["password"]))
  {
    RegisteredFormPassesLogin(form, h.isEmail);
  }

  /** Any other answer from the create call is returned unchanged, and
      nothing logs in. */
  lemma OtherReplyPassedThrough(form: Form, h: Helpers, reply: CreateReply, loginReply: LoginReply)
    requires RegisterFieldsValid(form, h.isEmail)
    requires !reply.successTrue
    ensures RegisterPatient(form, h, CreateReplied(reply), loginReply).result == PassedThrough(reply)
  {
  }

  /** An exception becomes "Registration failed" unless its digest marks a
      framework redirect, which is thrown on. */
  lemma ExceptionHandling(form: Form, h: Helpers, digest: Option<string>, loginReply: LoginReply)
    requires RegisterFieldsValid(form, h.isEmail)
    ensures var r := RegisterPatient(form, h, CreateThrew(digest), loginReply).result;
            && (r.Rethrown? <==> digest.Some? && StartsWith(digest.value, "NEXT_REDIRECT"))
            && (r.Rethrown? ==> r.digest == digest.value)
            && (!r.Rethrown? ==> r == RegistrationFailed)
  {
  }
}
