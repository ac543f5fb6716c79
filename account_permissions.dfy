/** The account permissions (e_ride/apps/Accounts/permissions.py). */
module AccountPermissions {
  import opened Wrappers
  import opened Py

  /** `request.user`: the anonymous user, or a stored user with its pk and the name of its role, if any. */
  datatype User = Anonymous | Member(id: string, role: Option<string>) {
    predicate IsAuthenticated() { Member? }
    /** `user.pk`: None for the anonymous user. */
    function Pk(): Option<string> { if Member? then Some(id) else None }
  }

  /** `request.user.is_authenticated and request.user.role and request.user.role.name in names`. */
  predicate HasRole(u: User, names: set<string>)
  {
    u.IsAuthenticated() && u.role.Some? && u.role.value in names
  }

  /** `IsDriver.has_permission`. */
  predicate IsDriver(u: User)
    ensures IsDriver(u) <==> u.Member? && u.role == Some("DRIVER")
  {
    HasRole(u, {"DRIVER"})
  }

  /** `IsClient.has_permission`. */
  predicate IsClient(u: User)
    ensures IsClient(u) <==> u.Member? && u.role == Some("CLIENT")
  {
    HasRole(u, {"CLIENT"})
  }

  /** `IsAdmin.has_permission`. */
  predicate IsAdmin(u: User)
    ensures IsAdmin(u) <==> u.Member? && (u.role == Some("ADMIN") || u.role == Some("SUPERADMIN"))
  {
    HasRole(u, {"ADMIN", "SUPERADMIN"})
  }

  /** No role check passes for an anonymous or role-less user. */
  lemma NoRoleNoAccess(u: User)
    requires !u.IsAuthenticated() || u.role.None?
    ensures !IsDriver(u) && !IsClient(u) && !IsAdmin(u)
  {
  }

  /** A user's single role passes at most one of the three checks. */
  lemma RolesExclusive(u: User)
    ensures !(IsDriver(u) && IsClient(u)) && !(IsDriver(u) && IsAdmin(u)) && !(IsClient(u) && IsAdmin(u))
  {
  }

  /** Model equality of users: two stored users with the same pk; the anonymous user or a null equals no stored user. */
  predicate SameUser(a: Option<string>, u: User)
  {
    a.Some? && u.Member? && a.value == u.id
  }

  /**
   * The object `IsOwner` receives: maybe a `user` attribute (the pk of a user, None for null) and
   * maybe a `profile` attribute (the pk of the profile's user, None for a null profile).
   */
  datatype Owned = Owned(user: Attr<Option<string>>, profile: Attr<Option<string>>)

  /** `IsOwner.has_object_permission`: `obj.user`, else `obj.profile.user` (AttributeError for a null profile), else denied. */
  function IsOwner(obj: Owned, u: User): (r: Result<bool, Error>)
    ensures obj.user.Present? ==> r == Ok(SameUser(obj.user.value, u))
    ensures obj.user.Missing? && obj.profile.Missing? ==> r == Ok(false)
    ensures r.Err? <==> obj.user.Missing? && obj.profile == Present(None)
    ensures r == Ok(true) ==> u.IsAuthenticated()
  {
    if obj.user.Present? then Ok(SameUser(obj.user.value, u))
    else if obj.profile.Present? then
      if obj.profile.value.None? then Err(AttributeError) else Ok(SameUser(obj.profile.value, u))
    else Ok(false)
  }

  /** `IsSameUser.has_permission`. */
  predicate SameUserAllowed(u: User)
    ensures SameUserAllowed(u) <==> u.Pk().Some?
  {
    u.IsAuthenticated()
  }

  /** `IsSameUser.has_object_permission`: `obj.pk == request.user.pk`, denied without a `pk`. */
  predicate SameUserObjectAllowed(objPk: Attr<Option<string>>, u: User)
    ensures SameUserObjectAllowed(objPk, u) ==> objPk.Present?
    ensures u.Member? ==> (SameUserObjectAllowed(objPk, u) <==> objPk == Present(Some(u.id)))
  {
    objPk.Present? && objPk.value == u.Pk()
  }

  /** Both checks together admit exactly an authenticated user looking at the object with its own pk. */
  lemma SameUserChecks(objPk: Attr<Option<string>>, u: User)
    ensures SameUserAllowed(u) && SameUserObjectAllowed(objPk, u) <==>
      u.Member? && objPk == Present(Some(u.id))
    ensures objPk.Missing? ==> !SameUserObjectAllowed(objPk, u)
  {
  }

  /** The object check alone compares raw pks: an unsaved object (pk None) matches the anonymous user. */
  lemma ObjectCheckAloneAdmitsAnonymous()
    ensures SameUserObjectAllowed(Present(None), Anonymous)
    ensures !SameUserAllowed(Anonymous)
  {
  }
}
