/** The user role of src/types/userTypes.ts. A role arriving in a token
    claim or an auth-status reply is an untrusted string, so beside the three
    declared roles there is an `Other` class for everything else. */
module Roles {

  datatype Role = Admin | Doctor | Patient | Other

  /** The wire spelling of the three declared roles. */
  function Name(r: Role): (s: string)
    requires r != Other
  {
    match r
    case Admin => "ADMIN"
    case Doctor => "DOCTOR"
    case Patient => "PATIENT"
  }

  /** Classifies a role string the way a string-keyed lookup or a `switch`
      on the string does: exact, case-sensitive comparison. */
  function RoleOf(s: string): (r: Role)
    ensures r != Other ==> Name(r) == s
    ensures r == Other <==> s !in {"ADMIN", "DOCTOR", "PATIENT"}
  {
    if s == "ADMIN" then Admin
    else if s == "DOCTOR" then Doctor
    else if s == "PATIENT" then Patient
    else Other
  }

  /** Naming a declared role and classifying the name gives it back. */
  lemma RoleOfName(r: Role)
    requires r != Other
    ensures RoleOf(Name(r)) == r
  {
  }
}
