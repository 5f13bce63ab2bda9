/** `DashboardRedirect`: what the dashboard root does once the session is known. */
module DashboardRedirect {
  import opened Wrappers
  import opened Domain
  import Router

  /** A `navigate(to, { replace })` call. */
  datatype Navigation = Navigate(to: string, replace: bool)

  /** What the component renders. */
  datatype View = Spinner | MemberView

  const AdminLanding := Router.UrlOf(["admin", "clubs"])
  const ManagerLanding := Router.UrlOf(["manager"])

  /** The navigation the effect issues for the current `loading` flag and user. */
  function RedirectOf(loading: bool, user: Option<User>): (r: Option<Navigation>)
    ensures loading || user.None? ==> r.None?
    ensures r.Some? ==> r.value.replace
    ensures r == Some(Navigate(AdminLanding, true)) <==> !loading && HasRole(user, Admin)
    ensures r == Some(Navigate(ManagerLanding, true)) <==> !loading && HasRole(user, ClubManager)
    ensures r.None? <==> loading || !(HasRole(user, Admin) || HasRole(user, ClubManager))
  {
    if !loading && user.Some? then
      if user.value.role == Some(Admin) then Some(Navigate(AdminLanding, true))
      else if user.value.role == Some(ClubManager) then Some(Navigate(ManagerLanding, true))
      else None
    else None
  }

  /** The rendered content: a spinner while loading, otherwise the member dashboard for
      every role (admins and managers see it until the redirect lands). */
  function Rendered(loading: bool, user: Option<User>): (v: View)
    ensures v == Spinner <==> loading
  {
    if loading then Spinner else MemberView
  }

  /** Both redirect targets are declared dashboard routes, and each lands on the
      dashboard of the role that caused it. */
  lemma RedirectTargetsDeclared(loading: bool, user: Option<User>)
    ensures var r := RedirectOf(loading, user);
      && (HasRole(user, Admin) && r.Some? ==> Router.AdminDashboard in Router.Resolve(r.value.to))
      && (HasRole(user, ClubManager) && r.Some? ==> Router.ManagerDashboard in Router.Resolve(r.value.to))
  {
    Router.SharedPathsResolve(["admin", "clubs"]);
    Router.SharedPathsResolve(["manager"]);
  }

  /** A member, a user with an unrecognised role, and a user whose role has not arrived
      yet all stay on the root and see the member dashboard. */
  lemma NonElevatedUsersStay(user: User)
    requires user.role.None? || user.role == Some(Member) || user.role.value.OtherRole?
    ensures RedirectOf(false, Some(user)).None?
    ensures Rendered(false, Some(user)) == MemberView
  {
  }
}
