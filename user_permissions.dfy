/** `IsSuperAdmin` (users/permissions.py): who may create users. */
module UserPermissions {
  import opened UserModels

  /** `IsSuperAdmin.has_permission`: the create action needs an authenticated
      super admin; every other action passes. The anonymous user's role is
      never looked at. */
  function IsSuperAdmin(action: string, user: RequestUser): (granted: bool)
    ensures action != "create" ==> granted
    ensures action == "create" ==> (granted <==> user.SignedIn? && user.principal.role == SuperAdmin)
  {
    if action == "create" then user.SignedIn? && user.principal.role == SuperAdmin else true
  }

  /** Neither an anonymous user nor an admin below super admin may create users. */
  lemma OnlySuperAdminCreates(id: UserId, role: Role)
    ensures !IsSuperAdmin("create", Anonymous)
    ensures role != SuperAdmin ==> !IsSuperAdmin("create", SignedIn(Principal(id, role)))
  {
  }
}
