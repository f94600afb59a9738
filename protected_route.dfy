/** The route guard (src/components/auth/ProtectedRoute.tsx): a page is
    drawn only for a signed-in user whose role it allows. */
module ProtectedRoute {
  import opened Wrappers
  import opened Types

  /** What the guard does with the page. */
  datatype RouteDecision = Render | Redirect(path: string)

  /** The dashboard path of a role, `/${role}/dashboard`. */
  function Dashboard(r: Role): string {
    "/" + RoleName(r) + "/dashboard"
  }

  /** Nobody signed in goes to the home page; a signed-in user with a role
      the page does not allow goes to the dashboard of that role. */
  function Guard(currentUser: Option<User>, allowedRoles: seq<Role>): (d: RouteDecision)
    ensures d == Render <==> currentUser.Some? && currentUser.value.role in allowedRoles
    ensures currentUser.None? ==> d == Redirect("/")
    ensures currentUser.Some? && currentUser.value.role !in allowedRoles ==>
              d == Redirect(Dashboard(currentUser.value.role))
  {
    if currentUser.None? then Redirect("/")
    else if currentUser.value.role !in allowedRoles then Redirect(Dashboard(currentUser.value.role))
    else Render
  }

  /** The guard looks at the role only: a pending or rejected account with
      the right role is let through like an active one. */
  lemma GuardIgnoresStatus(u: User, s: UserStatus, allowedRoles: seq<Role>)
    ensures Guard(Some(u), allowedRoles) == Guard(Some(u.(status := s)), allowedRoles)
  {
  }

  /** A redirected user is never sent back to the page: the dashboard of
      the user's own role is guarded by that role. */
  lemma RedirectLandsOnOwnDashboard(u: User, allowedRoles: seq<Role>)
    requires Guard(Some(u), allowedRoles).Redirect?
    ensures Guard(Some(u), [u.role]) == Render
    ensures Guard(Some(u), allowedRoles).path == Dashboard(u.role)
  {
  }

  /** The three dashboards are different paths, and none is the home page. */
  lemma DashboardsDistinct(a: Role, b: Role)
    ensures Dashboard(a) == Dashboard(b) <==> a == b
    ensures Dashboard(a) != "/"
  {
    if a != b {
      assert Dashboard(a)[1] != Dashboard(b)[1] || Dashboard(a)[2] != Dashboard(b)[2];
    }
  }
}
