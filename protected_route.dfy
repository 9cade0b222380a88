/** The guard in front of the administration pages
    (src/components/ProtectedRoute.tsx): while the session is being restored
    it waits, then it sends visitors without a session to the login page,
    users of another role to the store, and renders the administration for
    the required role. */
module ProtectedRoute {
  import opened Common
  import opened GlobalContext

  datatype Outcome = Verifying | RedirectToLogin | RedirectToStore | RenderAdmin

  /** The cascade of the guard. */
  function RouteDecision(authLoading: bool, user: Option<User>, requiredRole: Role): (r: Outcome)
    ensures r == Verifying <==> authLoading
    ensures r == RedirectToLogin <==> !authLoading && user.None?
    ensures r == RedirectToStore <==> !authLoading && user.Some? && user.value.role != requiredRole
    ensures r == RenderAdmin <==> !authLoading && user.Some? && user.value.role == requiredRole
  {
    if authLoading then Verifying
    else if user.None? then RedirectToLogin
    else if user.value.role != requiredRole then RedirectToStore
    else RenderAdmin
  }

  /** Only the administrator session opened by the hard-coded credentials
      reaches the administration pages through the guard. */
  lemma OnlyAdminLoginPasses(db: seq<StoredAccount>, email: string, pass: string)
    ensures RouteDecision(false, LoginSession(db, email, pass), AdminRole) == RenderAdmin
      <==> email == AdminEmail && pass == AdminPassword
  {
  }
}
