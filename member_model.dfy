/** The member document of models/member.model.js as a validity predicate:
    its required fields, its two-value role enumeration and the sparse
    unique index on `email`. */
module MemberModel {
  import opened Wrappers
  import opened Roles
  import opened Guards

  /** The ObjectId of a loan document. */
  type LoanRef = string

  /** The fields the schema constrains; the optional profile fields it
      declares without constraints are not carried. */
  datatype Member = Member(
    name: Option<string>,
    email: Option<string>,
    password: Option<string>,
    epf: Option<string>,
    welfareNo: Option<string>,
    role: Option<string>,
    payroll: Option<string>,
    memberFee: Option<int>,
    loans: seq<LoanRef>)

  /** Mongoose validation: `name`, `epf`, `welfareNo` and `payroll` are
      required strings (an empty string is refused), `role` is required and
      must be "admin" or "member", and `memberFee` is a required number.
      `email` and `password` may be absent. */
  predicate SchemaValid(m: Member)
  {
    && Given(m.name)
    && Given(m.epf)
    && Given(m.welfareNo)
    && m.role.Some? && (m.role.value == "admin" || m.role.value == "member")
    && Given(m.payroll)
    && m.memberFee.Some?
  }

  /** The sparse unique index: two documents that both have an email differ
      in it; documents without one are not constrained. */
  predicate EmailsUnique(ms: seq<Member>)
  {
    forall i, j :: 0 <= i < j < |ms| && ms[i].email.Some? && ms[j].email.Some? ==> ms[i].email != ms[j].email
  }

  datatype InsertError = ValidationFailed | DuplicateEmail

  /** Saving a new member into a collection whose index holds: it is stored
      exactly when it is valid and its email, if it has one, is not taken,
      and the index still holds afterwards. */
  function Insert(ms: seq<Member>, m: Member): (r: Result<seq<Member>, InsertError>)
    requires EmailsUnique(ms)
    ensures r.Success? <==> SchemaValid(m) && (m.email.None? || forall k :: 0 <= k < |ms| ==> ms[k].email != m.email)
    ensures r.Success? ==> r.value == ms + [m] && EmailsUnique(r.value)
  {
    if !SchemaValid(m) then Failure(ValidationFailed)
    else if m.email.Some? && exists k :: 0 <= k < |ms| && ms[k].email == m.email then Failure(DuplicateEmail)
    else Success(ms + [m])
  }

  /** The user a member document becomes once loaded by `protect`. */
  function AsUser(id: string, m: Member): (u: User)
    requires m.role.Some?
    ensures u.id == id && u.role == m.role.value
  {
    User(id, m.role.value)
  }

  /** No role the schema accepts passes an office guard or `isSuperAdmin`:
      a schema-valid member is only ever "admin" or "member". */
  lemma SchemaRolesPassNoOffice(id: string, m: Member, g: Guard)
    requires SchemaValid(m)
    requires IsOfficeGuard(g) || g == IsSuperAdmin
    ensures ParseRole(m.role.value) == Role.Admin || ParseRole(m.role.value) == Role.Member
    ensures RunGuard(g, Some(AsUser(id, m))).Deny?
  {
    BaselineRolesBelowOffices(g, AsUser(id, m));
  }

  /** Members without an email never collide: any number of them can be stored. */
  lemma WithoutEmailAlwaysStored(ms: seq<Member>, m: Member)
    requires EmailsUnique(ms) && SchemaValid(m) && m.email.None?
    ensures Insert(ms, m).Success?
  {
  }
}
