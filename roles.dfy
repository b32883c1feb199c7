/**
 * The closed set of user roles (internal/role/role.go). In the Go code a role is
 * a plain string type, so any string can reach the code as a role; `IsValid`
 * decides membership in the set {"admin", "user"}.
 */
module Roles {
  import opened Outcomes

  /** The two predefined roles. */
  datatype Role = Admin | User

  /** The string value of each predefined role. */
  function Name(r: Role): string
  {
    match r
    case Admin => "admin"
    case User => "user"
  }

  /** Reads a role string back into the closed set; `None` for every other string. */
  function Parse(s: string): (r: Option<Role>)
    ensures r.Some? ==> Name(r.value) == s
  {
    match s
    case "admin" => Some(Admin)
    case "user" => Some(User)
    case _ => None
  }

  /** The switch of `Role.IsValid`: true for the two predefined roles only. */
  predicate IsValid(s: string)
    ensures IsValid(s) <==> s == Name(Admin) || s == Name(User)
  {
    match s
    case "admin" => true
    case "user" => true
    case _ => false
  }

  /** Every predefined role is read back to itself, and the two names differ. */
  lemma ParseName(r: Role)
    ensures Parse(Name(r)) == Some(r)
    ensures IsValid(Name(r))
    ensures Name(Admin) != Name(User)
  {
  }

  /** A string is a valid role exactly when it parses into the closed set. */
  lemma IsValidParse(s: string)
    ensures IsValid(s) <==> Parse(s).Some?
  {
  }

  /** "admin" and "user" are valid; the empty string and every other string are not. */
  lemma IsValidCases(s: string)
    ensures IsValid("admin") && IsValid("user")
    ensures !IsValid("")
    ensures s != "admin" && s != "user" ==> !IsValid(s)
  {
  }
}
