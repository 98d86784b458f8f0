/** The permission classes of the cases app (cases/permissions.py): decision
    tables over the closed set of roles. The request-level checks take
    `request.user`, which may be anonymous; the others read `user.role`
    first and are stated for a signed-in user. */
module CasePermissions {
  import opened Wrappers
  import opened UserModels
  import opened CaseModels

  /** The roles listed at cases/permissions.py:13 and :36. */
  predicate IsCreatorRole(r: Role) {
    r == SuperAdmin || r == Admin || r == ExternalLawyer
  }

  /** The user a case's `lawyer` foreign key points at, if any. */
  function LawyerOf(c: CaseRecord): (r: Option<UserId>)
    ensures r.Some? <==> "lawyer" in c.fields && c.fields["lawyer"].Ref?
    ensures r.Some? ==> c.fields["lawyer"] == Ref(r.value)
  {
    if "lawyer" in c.fields && c.fields["lawyer"].Ref? then Some(c.fields["lawyer"].id) else None
  }

  /** `CanViewCasePermission.has_object_permission`. */
  function CanViewCaseObject(u: Principal, c: CaseRecord): (granted: bool)
    ensures IsCreatorRole(u.role) ==> granted
    ensures u.role == Customer ==> granted
    ensures u.role == InternalLawyer ==> (granted <==> LawyerOf(c) == Some(u.id))
  {
    if IsCreatorRole(u.role) then true
    else if u.role == Customer then true
    else LawyerOf(c) == Some(u.id)
  }

  /** `CanViewCasePermission.has_permission`: the request-level check never
      reads the user, so it blocks nobody, not even an anonymous request. */
  function CanViewCaseRequest(u: RequestUser): (granted: bool)
    ensures granted
  {
    true
  }

  /** What reading `user.role` raises on Django's `AnonymousUser`. */
  datatype PermissionError = NoRole

  /** `CanCreateCasePermission.has_permission`. Only a POST reads the role,
      so only an anonymous POST raises. */
  function CanCreateCase(u: RequestUser, httpMethod: string): (r: Result<bool, PermissionError>)
    ensures httpMethod != "POST" ==> r == Ok(true)
    ensures httpMethod == "POST" && u.Anonymous? ==> r == Err(NoRole)
    ensures httpMethod == "POST" && u.SignedIn? ==> (r == Ok(true) <==> IsCreatorRole(u.principal.role))
    ensures r.Err? <==> httpMethod == "POST" && u.Anonymous?
  {
    if httpMethod != "POST" then Ok(true)
    else match u
      case Anonymous => Err(NoRole)
      case SignedIn(p) => Ok(IsCreatorRole(p.role))
  }

  /** `RevisionCasePermission.has_object_permission`. */
  function CanReviseCaseObject(u: Principal, c: CaseRecord): (granted: bool)
    ensures granted <==> u.role == SuperAdmin || u.role == Admin
  {
    u.role in {SuperAdmin, Admin}
  }

  /** `RevisionCasePermission.has_permission`. */
  function CanReviseCaseRequest(u: Principal): (granted: bool)
    ensures granted <==> u.role == SuperAdmin || u.role == Admin
  {
    u.role in {SuperAdmin, Admin}
  }

  /** The object-level view rule as one table: only an internal lawyer can be
      refused, and only on a case that is not assigned to them. */
  lemma ViewDeniedOnlyToUnassignedInternalLawyer(u: Principal, c: CaseRecord)
    ensures !CanViewCaseObject(u, c) <==> u.role == InternalLawyer && LawyerOf(c) != Some(u.id)
  {
  }

  /** Customers may view any case object, even one whose lawyer is someone
      else, yet may not create a case. */
  lemma CustomerViewsButCannotCreate(u: Principal, c: CaseRecord)
    requires u.role == Customer
    ensures CanViewCaseObject(u, c)
    ensures CanCreateCase(SignedIn(u), "POST") == Ok(false)
  {
  }

  /** Every role that may create a case may view every case object. */
  lemma CreatorsViewEverything(u: Principal, c: CaseRecord)
    requires CanCreateCase(SignedIn(u), "POST") == Ok(true)
    ensures CanViewCaseObject(u, c)
  {
  }

  /** The revision checks at request level and at object level agree. */
  lemma RevisionLevelsAgree(u: Principal, c: CaseRecord)
    ensures CanReviseCaseRequest(u) == CanReviseCaseObject(u, c)
  {
  }

  /** Revising is stricter than creating: an external lawyer may create a
      case but not revise one. */
  lemma RevisersAreCreators(u: Principal, c: CaseRecord)
    ensures CanReviseCaseObject(u, c) ==> CanCreateCase(SignedIn(u), "POST") == Ok(true)
    ensures u.role == ExternalLawyer ==> CanCreateCase(SignedIn(u), "POST") == Ok(true) && !CanReviseCaseObject(u, c)
  {
  }
}
