/** `DashboardLayout`: the role-gated sidebar and the logout handler. */
module DashboardLayout {
  import opened Wrappers
  import opened Domain
  import Router
  import AuthProvider

  /** A sidebar entry: its caption and the dashboard child path it links to, as segments. */
  datatype Link = Link(caption: string, path: seq<string>) {
    function To(): string { Router.UrlOf(path) }
  }

  const MemberLinks: seq<Link> := [
    Link("Overview", [""]),
    Link("My Clubs", ["my-clubs"]),
    Link("My Events", ["my-events"]),
    Link("Edit Profile", ["profile"])
  ]

  const ManagerLinks: seq<Link> := [
    Link("Manage Clubs", ["manager", "clubs"]),
    Link("Add Club", ["manager", "add-club"])
  ]

  const AdminLinks: seq<Link> := [
    Link("All Users", ["admin", "users"]),
    Link("All Clubs", ["admin", "clubs"]),
    Link("All Events", ["admin", "events"]),
    Link("All Payments", ["admin", "payments"])
  ]

  predicate SeesManagerSection(user: Option<User>) {
    HasRole(user, ClubManager) || HasRole(user, Admin)
  }

  predicate SeesAdminSection(user: Option<User>) {
    HasRole(user, Admin)
  }

  /** The sidebar for the current user. */
  function SidebarLinks(user: Option<User>): (r: seq<Link>)
    ensures |r| >= |MemberLinks| && r[..|MemberLinks|] == MemberLinks
    ensures forall l :: l in ManagerLinks ==> (l in r <==> SeesManagerSection(user))
    ensures forall l :: l in AdminLinks ==> (l in r <==> SeesAdminSection(user))
    ensures forall l :: l in r ==> l in MemberLinks || l in ManagerLinks || l in AdminLinks
  {
    MemberLinks
      + (if SeesManagerSection(user) then ManagerLinks else [])
      + (if SeesAdminSection(user) then AdminLinks else [])
  }

  /** Whoever sees the admin section also sees the manager section. */
  lemma AdminSeesManagerLinks(user: Option<User>)
    ensures SeesAdminSection(user) ==> forall l :: l in ManagerLinks ==> l in SidebarLinks(user)
  {
  }

  /** The rank the sidebar gives a user: admin above manager above everyone else. */
  function Rank(user: Option<User>): nat {
    if HasRole(user, Admin) then 2 else if HasRole(user, ClubManager) then 1 else 0
  }

  /** A higher rank never loses a link. */
  lemma SidebarMonotone(u: Option<User>, v: Option<User>)
    requires Rank(u) <= Rank(v)
    ensures forall l :: l in SidebarLinks(u) ==> l in SidebarLinks(v)
  {
  }

  /** Without a user, or with a user whose role is missing, a member's or unrecognised,
      only the member links show. */
  lemma UnprivilegedSeeMemberLinks(user: Option<User>)
    requires Rank(user) == 0
    ensures SidebarLinks(user) == MemberLinks
  {
  }

  /** Every link the sidebar can show points at a declared dashboard route. */
  lemma SidebarLinksDeclared(user: Option<User>)
    ensures forall l :: l in SidebarLinks(user) ==> Router.Declared(l.To())
  {
    forall l | l in SidebarLinks(user) ensures Router.Declared(l.To()) {
      LinkDeclared(l);
    }
  }

  lemma LinkDeclared(l: Link)
    requires l in MemberLinks || l in ManagerLinks || l in AdminLinks
    ensures Router.Declared(l.To())
  {
    assert l.path in Router.DashboardChildren;
    Router.ChildUrlResolves(l.path);
  }

  /** `handleLogOut`: the navigation it issues once `logOut()` settles. */
  function LogOutNavigation(signOutSucceeded: bool): (r: Option<string>)
    ensures r.Some? <==> signOutSucceeded
    ensures r.Some? ==> r.value == "/"
  {
    if signOutSucceeded then Some("/") else None
  }

  /** A successful logout raises `loading`, the provider then reports no user, the session
      ends with no user and no token, and only then the layout navigates home. */
  lemma LogOutEndsSession(s: AuthProvider.AuthState)
    ensures var during := AuthProvider.BeginAction(s, AuthProvider.LogOut);
      var after := AuthProvider.Replay(during, AuthProvider.OnAuthStateChanged(None, None, AuthProvider.SyncFailed));
      && during.loading
      && after == AuthProvider.AuthState(None, false, None)
      && LogOutNavigation(true) == Some("/")
  {
    AuthProvider.SignedOutOutcome(AuthProvider.BeginAction(s, AuthProvider.LogOut));
  }
}
