/** The role strings that the guards in middleware/auth.middleware.js compare
    `req.user.role` against, as a closed enumeration plus everything else. */
module Roles {

  datatype Role =
    | Admin
    | Member
    | President
    | VicePresident
    | Secretary
    | AssistantSecretary
    | Treasurer
    | AssistantTreasurer
    | SuperAdmin
    | Other(name: string)

  /** The nine role strings the guards know. */
  const KnownNames: set<string> :=
    {"admin", "member", "president", "vice_president", "secretary",
     "assistant_secretary", "treasurer", "assistant_treasurer", "super_admin"}

  /** The string stored in a user document for a role. */
  function RoleName(r: Role): string
  {
    match r
    case Admin => "admin"
    case Member => "member"
    case President => "president"
    case VicePresident => "vice_president"
    case Secretary => "secretary"
    case AssistantSecretary => "assistant_secretary"
    case Treasurer => "treasurer"
    case AssistantTreasurer => "assistant_treasurer"
    case SuperAdmin => "super_admin"
    case Other(n) => n
  }

  /** An `Other` role never spells one of the known names. */
  predicate Canonical(r: Role)
  {
    r.Other? ==> r.name !in KnownNames
  }

  /** Reads a stored role string; comparison is exact (no case folding). */
  function ParseRole(s: string): (r: Role)
    ensures RoleName(r) == s
    ensures Canonical(r)
    ensures r.Other? <==> s !in KnownNames
  {
    if s == "admin" then Admin
    else if s == "member" then Member
    else if s == "president" then President
    else if s == "vice_president" then VicePresident
    else if s == "secretary" then Secretary
    else if s == "assistant_secretary" then AssistantSecretary
    else if s == "treasurer" then Treasurer
    else if s == "assistant_treasurer" then AssistantTreasurer
    else if s == "super_admin" then SuperAdmin
    else Other(s)
  }

  /** A stored role string denotes a known role exactly when it spells that role's name. */
  lemma ParseRoleEq(s: string, r: Role)
    requires !r.Other?
    ensures ParseRole(s) == r <==> s == RoleName(r)
  {
    if s == RoleName(r) {
      assert RoleName(r) in KnownNames;
    }
  }

  /** Reading back the name of a role gives the role, exactly for canonical roles. */
  lemma ParseRoleName(r: Role)
    ensures ParseRole(RoleName(r)) == r <==> Canonical(r)
  {
  }
}
