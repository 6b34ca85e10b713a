/** The part of schema validation the auth forms rely on: string fields
    with length bounds and an email-format check, each failing field giving
    one issue tagged with the field name. The email-format test itself is a
    parameter (`isEmail`), not modelled.

    Issues come in two kinds. A value that is not a string at all (a form
    field that is missing, so `formData.get` gave `null`) raises a type
    issue that stops the value's own checks and also stops any refinement on
    the enclosing object; a failed length or format check does neither. */
module Validation {
  import opened Wrappers

  /** `{ field, message }` as the actions return them. */
  datatype FieldError = FieldError(field: string, message: string)

  datatype Issue = Issue(field: string, message: string, typeIssue: bool)

  /** The library's own message for a missing string, used where a schema
      gives no message of its own. */
  const NotAString: string := "Invalid input: expected string, received null"

  /** A string field with a minimum length and, optionally, a maximum. */
  function StringIssues(field: string, v: Option<string>, typeMessage: string,
                        min: nat, minMessage: string,
                        max: Option<nat>, maxMessage: string): (r: seq<Issue>)
    ensures v.None? ==> r == [Issue(field, typeMessage, true)]
    ensures r == [] <==> v.Some? && min <= |v.value| && (max.Some? ==> |v.value| <= max.value)
    ensures forall i :: 0 <= i < |r| ==> r[i].field == field
    ensures v.Some? ==> forall i :: 0 <= i < |r| ==> !r[i].typeIssue
  {
    match v
    case None => [Issue(field, typeMessage, true)]
    case Some(s) =>
      (if |s| < min then [Issue(field, minMessage, false)] else [])
      + (if max.Some? && |s| > max.value then [Issue(field, maxMessage, false)] else [])
  }

  /** An email field whose one message covers both a missing value and a
      value that is not an email address. */
  function EmailIssues(field: string, v: Option<string>, isEmail: string -> bool, message: string): (r: seq<Issue>)
    ensures r == [] <==> v.Some? && isEmail(v.value)
    ensures r != [] ==> r == [Issue(field, message, v.None?)]
  {
    match v
    case None => [Issue(field, message, true)]
    case Some(s) => if isEmail(s) then [] else [Issue(field, message, false)]
  }

  /** Whether any issue stops refinements. */
  predicate HasTypeIssue(issues: seq<Issue>) {
    exists i :: 0 <= i < |issues| && issues[i].typeIssue
  }

  /** `issues.map(issue => ({ field: issue.path[0], message: issue.message }))`. */
  function ToFieldErrors(issues: seq<Issue>): seq<FieldError>
  {
    seq(|issues|, i requires 0 <= i < |issues| => FieldError(issues[i].field, issues[i].message))
  }
}
