/** The guard on admin pages. */
module AdminGuard {
  import opened Wrappers
  import opened AuthService

  /**
   * `canActivate`: the sign-in check comes first and sends the router to
   * `/login`, so an admin role without a token does not get in; a signed-in
   * user whose role is not `'admin'` is sent to `/dashboard`.
   */
  function CanActivate(auth: AuthService): (r: Decision)
    reads auth
    ensures !auth.IsAuthenticated() ==> r == Decision(false, Some("/login"))
    ensures auth.IsAuthenticated() && !auth.IsAdmin() ==> r == Decision(false, Some("/dashboard"))
    ensures r.allow <==> auth.IsAuthenticated() && auth.IsAdmin()
    ensures r.allow <==> r.redirect.None?
  {
    if !auth.IsAuthenticated() then Decision(false, Some("/login"))
    else if !auth.IsAdmin() then Decision(false, Some("/dashboard"))
    else Decision(true, None)
  }
}
