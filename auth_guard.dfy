/** The guard on signed-in pages, optionally restricted to one role. */
module AuthGuard {
  import opened Wrappers
  import opened UserJson
  import opened AuthService

  /** `route.data['role']` is truthy. */
  predicate RequiresRole(routeRole: Option<string>) {
    routeRole.Some? && routeRole.value != ""
  }

  /** `getCurrentUser()?.role` */
  function UserRole(auth: AuthService): (r: Option<string>)
    reads auth
    ensures r.Some? <==> auth.currentUser.Some?
    ensures r.Some? ==> r.value == auth.currentUser.value.role
    ensures auth.Valid() ==> r == StoredRole(auth.storage)
  {
    match auth.GetCurrentUser()
    case None => None
    case Some(u) => Some(u.role)
  }

  /**
   * `canActivate`: the sign-in check comes first and sends the router to
   * `/login`; then a route that names a role is refused, with a redirect to
   * `/unauthorized`, unless the current user has that role.
   */
  function CanActivate(auth: AuthService, routeRole: Option<string>): (r: Decision)
    reads auth
    ensures !auth.IsAuthenticated() ==> r == Decision(false, Some("/login"))
    ensures auth.IsAuthenticated() && RequiresRole(routeRole) && UserRole(auth) != routeRole ==>
      r == Decision(false, Some("/unauthorized"))
    ensures auth.IsAuthenticated() && !RequiresRole(routeRole) ==> r == Decision(true, None)
    ensures r.allow <==> auth.IsAuthenticated() && (!RequiresRole(routeRole) || UserRole(auth) == routeRole)
    ensures r.allow <==> r.redirect.None?
  {
    if !auth.IsAuthenticated() then Decision(false, Some("/login"))
    else if RequiresRole(routeRole) && UserRole(auth) != routeRole then Decision(false, Some("/unauthorized"))
    else Decision(true, None)
  }
}
