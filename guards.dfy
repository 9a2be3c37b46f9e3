/** The role guards of middleware/auth.middleware.js: each inspects `req.user`
    and either calls `next()` or answers 403. */
module Guards {
  import opened Wrappers
  import opened Roles

  /** The part of a member document the guards read: its id and role string. */
  datatype User = User(id: string, role: string)

  datatype Guard =
    | IsAdmin
    | IsAdminOrMember
    | IsPresidentOrVicePresident
    | IsSecretaryOrAssistantSecretary
    | IsTreasurerOrAssistantTreasurer
    | IsSuperAdmin

  datatype GuardOutcome = Next | Deny(status: int, message: string)

  /** The three guards of the elected offices. */
  predicate IsOfficeGuard(g: Guard)
  {
    g.IsPresidentOrVicePresident? || g.IsSecretaryOrAssistantSecretary? || g.IsTreasurerOrAssistantTreasurer?
  }

  /** The static table of roles each guard admits. */
  function AllowedRoles(g: Guard): set<Role>
  {
    match g
    case IsAdmin => {Admin}
    case IsAdminOrMember => {Admin, Member}
    case IsPresidentOrVicePresident => {President, VicePresident, SuperAdmin}
    case IsSecretaryOrAssistantSecretary => {Secretary, AssistantSecretary, SuperAdmin}
    case IsTreasurerOrAssistantTreasurer => {Treasurer, AssistantTreasurer, SuperAdmin}
    case IsSuperAdmin => {SuperAdmin}
  }

  /** The guard's own test: `req.user && req.user.role === ...`. */
  predicate Passes(g: Guard, user: Option<User>)
  {
    user.Some? &&
    var role := user.value.role;
    match g
    case IsAdmin => role == "admin"
    case IsAdminOrMember => role == "admin" || role == "member"
    case IsPresidentOrVicePresident => role == "president" || role == "vice_president" || role == "super_admin"
    case IsSecretaryOrAssistantSecretary => role == "secretary" || role == "assistant_secretary" || role == "super_admin"
    case IsTreasurerOrAssistantTreasurer => role == "treasurer" || role == "assistant_treasurer" || role == "super_admin"
    case IsSuperAdmin => role == "super_admin"
  }

  function DenyMessage(g: Guard): string
  {
    match g
    case IsAdmin => "Not authorized as an admin"
    case IsAdminOrMember => "Not authorized as an admin or member"
    case IsPresidentOrVicePresident => "Not authorized as a President, Vice President or Super Admin"
    case IsSecretaryOrAssistantSecretary => "Not authorized as a Secretary, Assistant Secretary or Super Admin"
    case IsTreasurerOrAssistantTreasurer => "Not authorized as a Treasurer, Assistant Treasurer or Super Admin"
    case IsSuperAdmin => "Access denied. Super Admins only."
  }

  /** Running a guard: it calls `next()` exactly when a user is attached whose
      role is in the guard's table, and otherwise answers 403 (never 401). */
  function RunGuard(g: Guard, user: Option<User>): (o: GuardOutcome)
    ensures o.Next? <==> user.Some? && ParseRole(user.value.role) in AllowedRoles(g)
    ensures o.Deny? ==> o.status == 403
  {
    if user.Some? then
      PassesMatchesTable(g, user.value);
      if Passes(g, user) then Next else Deny(403, DenyMessage(g))
    else
      Deny(403, DenyMessage(g))
  }

  /** The string comparisons of each guard agree with its role table. */
  lemma PassesMatchesTable(g: Guard, u: User)
    ensures Passes(g, Some(u)) <==> ParseRole(u.role) in AllowedRoles(g)
  {
    var s := u.role;
    match g
    case IsAdmin =>
      ParseRoleEq(s, Admin);
    case IsAdminOrMember =>
      ParseRoleEq(s, Admin); ParseRoleEq(s, Member);
    case IsPresidentOrVicePresident =>
      ParseRoleEq(s, President); ParseRoleEq(s, VicePresident); ParseRoleEq(s, SuperAdmin);
    case IsSecretaryOrAssistantSecretary =>
      ParseRoleEq(s, Secretary); ParseRoleEq(s, AssistantSecretary); ParseRoleEq(s, SuperAdmin);
    case IsTreasurerOrAssistantTreasurer =>
      ParseRoleEq(s, Treasurer); ParseRoleEq(s, AssistantTreasurer); ParseRoleEq(s, SuperAdmin);
    case IsSuperAdmin =>
      ParseRoleEq(s, SuperAdmin);
  }

  /** A missing user (null or undefined `req.user`) is refused by every guard with 403. */
  lemma NoUserForbidden(g: Guard)
    ensures RunGuard(g, None) == Deny(403, DenyMessage(g))
  {
  }

  /** A role string outside the nine known names is refused by every guard. */
  lemma UnknownRoleForbidden(g: Guard, u: User)
    requires u.role !in KnownNames
    ensures RunGuard(g, Some(u)).Deny?
  {
    assert ParseRole(u.role).Other?;
  }

  /** `isAdmin` admits only "admin", so "super_admin" is refused;
      `isAdminOrMember` admits exactly "admin" and "member". */
  lemma AdminGuardsExact(u: User)
    ensures RunGuard(IsAdmin, Some(u)).Next? <==> u.role == "admin"
    ensures RunGuard(IsAdminOrMember, Some(u)).Next? <==> u.role == "admin" || u.role == "member"
    ensures RunGuard(IsAdmin, Some(User(u.id, "super_admin"))).Deny?
  {
  }

  /** The office guards admit exactly the office pair and "super_admin";
      `isSuperAdmin` admits exactly "super_admin". */
  lemma OfficeGuardsExact(u: User)
    ensures RunGuard(IsPresidentOrVicePresident, Some(u)).Next? <==>
      u.role == "president" || u.role == "vice_president" || u.role == "super_admin"
    ensures RunGuard(IsSecretaryOrAssistantSecretary, Some(u)).Next? <==>
      u.role == "secretary" || u.role == "assistant_secretary" || u.role == "super_admin"
    ensures RunGuard(IsTreasurerOrAssistantTreasurer, Some(u)).Next? <==>
      u.role == "treasurer" || u.role == "assistant_treasurer" || u.role == "super_admin"
    ensures RunGuard(IsSuperAdmin, Some(u)).Next? <==> u.role == "super_admin"
  {
    PresidentGuardExact(u);
    SecretaryGuardExact(u);
    TreasurerGuardExact(u);
    SuperAdminGuardExact(u);
  }

  lemma PresidentGuardExact(u: User)
    ensures RunGuard(IsPresidentOrVicePresident, Some(u)).Next? <==>
      u.role == "president" || u.role == "vice_president" || u.role == "super_admin"
  {
    RunGuardPasses(IsPresidentOrVicePresident, u);
  }

  lemma SecretaryGuardExact(u: User)
    ensures RunGuard(IsSecretaryOrAssistantSecretary, Some(u)).Next? <==>
      u.role == "secretary" || u.role == "assistant_secretary" || u.role == "super_admin"
  {
    RunGuardPasses(IsSecretaryOrAssistantSecretary, u);
  }

  lemma TreasurerGuardExact(u: User)
    ensures RunGuard(IsTreasurerOrAssistantTreasurer, Some(u)).Next? <==>
      u.role == "treasurer" || u.role == "assistant_treasurer" || u.role == "super_admin"
  {
    RunGuardPasses(IsTreasurerOrAssistantTreasurer, u);
  }

  lemma SuperAdminGuardExact(u: User)
    ensures RunGuard(IsSuperAdmin, Some(u)).Next? <==> u.role == "super_admin"
  {
    RunGuardPasses(IsSuperAdmin, u);
  }

  /** With a user attached, a guard lets the request on exactly when its own test passes. */
  lemma RunGuardPasses(g: Guard, u: User)
    ensures RunGuard(g, Some(u)).Next? <==> Passes(g, Some(u))
  {
  }

  /** "super_admin" passes every office guard (and `isSuperAdmin`) but not `isAdmin`,
      and whatever passes `isSuperAdmin` passes every office guard. */
  lemma SuperAdminHierarchy(g: Guard, u: User)
    requires IsOfficeGuard(g) || g == IsSuperAdmin
    ensures u.role == "super_admin" ==> RunGuard(g, Some(u)).Next? && RunGuard(IsAdmin, Some(u)).Deny?
    ensures RunGuard(IsSuperAdmin, Some(u)).Next? ==> RunGuard(g, Some(u)).Next?
    ensures AllowedRoles(IsSuperAdmin) <= AllowedRoles(g)
  {
  }

  /** Neither baseline role passes an office guard or `isSuperAdmin`. */
  lemma BaselineRolesBelowOffices(g: Guard, u: User)
    requires IsOfficeGuard(g) || g == IsSuperAdmin
    requires u.role == "admin" || u.role == "member"
    ensures RunGuard(g, Some(u)).Deny?
  {
  }
}
