/** `AdminDashboard`: one component serving the admin overview and the four admin tabs. */
module AdminDashboard {
  import opened Wrappers
  import opened Domain
  import opened Text
  import Seqs
  import Router

  /** The four path tests the component makes; the overview is the absence of all four. */
  datatype ViewFlags = ViewFlags(users: bool, clubs: bool, payments: bool, events: bool) {
    predicate Overview() { !users && !clubs && !payments && !events }
  }

  /** `location.pathname.includes(...)` for each tab. */
  function FlagsOf(path: string): (f: ViewFlags)
    ensures f.users <==> Contains(path, "/users")
    ensures f.clubs <==> Contains(path, "/clubs")
    ensures f.payments <==> Contains(path, "/payments")
    ensures f.events <==> Contains(path, "/events")
  {
    ViewFlags(Contains(path, "/users"), Contains(path, "/clubs"),
              Contains(path, "/payments"), Contains(path, "/events"))
  }

  /** The page heading: the first raised flag in the order users, clubs, payments, events. */
  function Title(f: ViewFlags): (t: string)
    ensures f.Overview() <==> t == "Admin Overview"
    ensures f.users ==> t == "All Users"
    ensures !f.users && f.clubs ==> t == "All Clubs"
    ensures !f.users && !f.clubs && f.payments ==> t == "All Payments"
    ensures !f.users && !f.clubs && !f.payments && f.events ==> t == "All Events"
  {
    if f.users then "All Users"
    else if f.clubs then "All Clubs"
    else if f.payments then "All Payments"
    else if f.events then "All Events"
    else "Admin Overview"
  }

  const StatsKey: QueryKey := ["adminStats"]
  const ClubsKey: QueryKey := ["allClubsAdmin"]
  const UsersKey: QueryKey := ["allUsers"]
  const PaymentsKey: QueryKey := ["allPayments"]
  const EventsKey: QueryKey := ["allEvents"]

  /** The queries whose `enabled` option holds for the given flags. */
  function EnabledQueries(f: ViewFlags): (q: set<QueryKey>)
    ensures ClubsKey in q
    ensures StatsKey in q <==> f.Overview()
    ensures UsersKey in q <==> f.users || f.Overview()
    ensures PaymentsKey in q <==> f.payments
    ensures EventsKey in q <==> f.events
    ensures q <= {StatsKey, ClubsKey, UsersKey, PaymentsKey, EventsKey}
  {
    {ClubsKey}
      + (if f.Overview() then {StatsKey} else {})
      + (if f.users || f.Overview() then {UsersKey} else {})
      + (if f.payments then {PaymentsKey} else {})
      + (if f.events then {EventsKey} else {})
  }

  /** The heading says "Admin Overview" exactly when the statistics are fetched. */
  lemma OverviewTitleMeansStats(f: ViewFlags)
    ensures Title(f) == "Admin Overview" <==> StatsKey in EnabledQueries(f)
  {
  }

  /** Each admin route's heading names its own tab. */
  lemma AdminRouteTitles()
    ensures Title(FlagsOf("/dashboard/admin")) == "Admin Overview"
    ensures Title(FlagsOf("/dashboard/admin/users")) == "All Users"
    ensures Title(FlagsOf("/dashboard/admin/clubs")) == "All Clubs"
    ensures Title(FlagsOf("/dashboard/admin/payments")) == "All Payments"
    ensures Title(FlagsOf("/dashboard/admin/events")) == "All Events"
  {
    AdminRouteFlags();
  }

  /** Each admin route raises exactly the flag of its own tab, and the admin root none. */
  lemma AdminRouteFlags()
    ensures FlagsOf("/dashboard/admin") == ViewFlags(false, false, false, false)
    ensures FlagsOf("/dashboard/admin/users") == ViewFlags(true, false, false, false)
    ensures FlagsOf("/dashboard/admin/clubs") == ViewFlags(false, true, false, false)
    ensures FlagsOf("/dashboard/admin/payments") == ViewFlags(false, false, true, false)
    ensures FlagsOf("/dashboard/admin/events") == ViewFlags(false, false, false, true)
  {
    RootFlags();
    UsersFlags();
    ClubsFlags();
    PaymentsFlags();
    EventsFlags();
  }

  // Each negative case is ruled out by a character of the tab name missing from the path.

  lemma RootFlags()
    ensures FlagsOf("/dashboard/admin") == ViewFlags(false, false, false, false)
  {
    assert !Contains("/dashboard/admin", "/users") by { MissingChar("/dashboard/admin", "/users", 'u'); }
    assert !Contains("/dashboard/admin", "/clubs") by { MissingChar("/dashboard/admin", "/clubs", 'c'); }
    assert !Contains("/dashboard/admin", "/payments") by { MissingChar("/dashboard/admin", "/payments", 'y'); }
    assert !Contains("/dashboard/admin", "/events") by { MissingChar("/dashboard/admin", "/events", 'e'); }
  }

  lemma UsersFlags()
    ensures FlagsOf("/dashboard/admin/users") == ViewFlags(true, false, false, false)
  {
    assert OccursAt("/dashboard/admin/users", "/users", 16);
    assert !Contains("/dashboard/admin/users", "/clubs") by { MissingChar("/dashboard/admin/users", "/clubs", 'c'); }
    assert !Contains("/dashboard/admin/users", "/payments") by { MissingChar("/dashboard/admin/users", "/payments", 'y'); }
    assert !Contains("/dashboard/admin/users", "/events") by { MissingChar("/dashboard/admin/users", "/events", 'v'); }
  }

  lemma ClubsFlags()
    ensures FlagsOf("/dashboard/admin/clubs") == ViewFlags(false, true, false, false)
  {
    assert OccursAt("/dashboard/admin/clubs", "/clubs", 16);
    assert !Contains("/dashboard/admin/clubs", "/users") by { MissingChar("/dashboard/admin/clubs", "/users", 'e'); }
    assert !Contains("/dashboard/admin/clubs", "/payments") by { MissingChar("/dashboard/admin/clubs", "/payments", 'y'); }
    assert !Contains("/dashboard/admin/clubs", "/events") by { MissingChar("/dashboard/admin/clubs", "/events", 'e'); }
  }

  lemma PaymentsFlags()
    ensures FlagsOf("/dashboard/admin/payments") == ViewFlags(false, false, true, false)
  {
    assert OccursAt("/dashboard/admin/payments", "/payments", 16);
    assert !Contains("/dashboard/admin/payments", "/users") by { MissingChar("/dashboard/admin/payments", "/users", 'u'); }
    assert !Contains("/dashboard/admin/payments", "/clubs") by { MissingChar("/dashboard/admin/payments", "/clubs", 'c'); }
    assert !Contains("/dashboard/admin/payments", "/events") by { MissingChar("/dashboard/admin/payments", "/events", 'v'); }
  }

  lemma EventsFlags()
    ensures FlagsOf("/dashboard/admin/events") == ViewFlags(false, false, false, true)
  {
    assert OccursAt("/dashboard/admin/events", "/events", 16);
    assert !Contains("/dashboard/admin/events", "/users") by { MissingChar("/dashboard/admin/events", "/users", 'u'); }
    assert !Contains("/dashboard/admin/events", "/clubs") by { MissingChar("/dashboard/admin/events", "/clubs", 'c'); }
    assert !Contains("/dashboard/admin/events", "/payments") by { MissingChar("/dashboard/admin/events", "/payments", 'y'); }
  }

  /** The admin URLs name the tabs the flags look for. */
  lemma AdminUrls()
    ensures Router.UrlOf(["admin"]) == "/dashboard/admin"
    ensures Router.UrlOf(["admin", "users"]) == "/dashboard/admin/users"
    ensures Router.UrlOf(["admin", "clubs"]) == "/dashboard/admin/clubs"
    ensures Router.UrlOf(["admin", "payments"]) == "/dashboard/admin/payments"
    ensures Router.UrlOf(["admin", "events"]) == "/dashboard/admin/events"
  {
  }

  /** Each admin tab's declared route mounts this dashboard and shows that tab's heading. */
  lemma AdminTabRoutes()
    ensures Router.Resolve(Router.UrlOf(["admin", "users"])) == {Router.AdminDashboard}
    ensures Title(FlagsOf(Router.UrlOf(["admin", "users"]))) == "All Users"
    ensures Router.Resolve(Router.UrlOf(["admin", "clubs"])) == {Router.AdminDashboard}
    ensures Title(FlagsOf(Router.UrlOf(["admin", "clubs"]))) == "All Clubs"
    ensures Router.Resolve(Router.UrlOf(["admin", "payments"])) == {Router.AdminDashboard}
    ensures Title(FlagsOf(Router.UrlOf(["admin", "payments"]))) == "All Payments"
    ensures Router.Resolve(Router.UrlOf(["admin", "events"])) == {Router.AdminDashboard}
    ensures Title(FlagsOf(Router.UrlOf(["admin", "events"]))) == "All Events"
  {
    AdminUrls();
    AdminRouteTitles();
    Router.SharedPathsResolve(["admin", "users"]);
    Router.SharedPathsResolve(["admin", "clubs"]);
    Router.SharedPathsResolve(["admin", "payments"]);
    Router.SharedPathsResolve(["admin", "events"]);
  }

  /** The overview is the only place statistics are fetched, and it also fetches users. */
  lemma OverviewQueries()
    ensures EnabledQueries(FlagsOf("/dashboard/admin")) == {ClubsKey, StatsKey, UsersKey}
    ensures EnabledQueries(FlagsOf("/dashboard/admin/payments")) == {ClubsKey, PaymentsKey}
  {
    RootFlags();
    PaymentsFlags();
  }

  predicate IsPending(c: Club) { c.status == Pending }

  predicate IsReviewed(c: Club) { c.status != Pending }

  /** The overview's pending-approval rows: each club as often as the fetched list holds
      it when it is pending, otherwise not at all, in the fetched order. */
  function PendingClubs(clubs: seq<Club>): (r: seq<Club>)
    ensures forall c :: multiset(r)[c] == if c.status == Pending then multiset(clubs)[c] else 0
    ensures forall c :: c in r <==> c in clubs && c.status == Pending
    ensures Seqs.IsSubsequence(r, clubs)
  {
    Seqs.FilterCount(clubs, IsPending);
    Seqs.Filter(clubs, IsPending)
  }

  /** The pending count shown on the overview (`pendingClubs.length`): with the reviewed
      clubs it makes up every club; it is the whole list exactly when every club is pending,
      and zero, with the table's empty row, exactly when none is. */
  lemma PendingCount(clubs: seq<Club>)
    ensures |PendingClubs(clubs)| + |Seqs.Filter(clubs, IsReviewed)| == |clubs|
    ensures |PendingClubs(clubs)| == |clubs| <==> forall c :: c in clubs ==> c.status == Pending
    ensures PendingClubs(clubs) == [] <==> forall c :: c in clubs ==> c.status != Pending
  {
    Seqs.FilterPartition(clubs, IsPending, IsReviewed);
    Seqs.FilterExtremes(clubs, IsPending);
  }

  /** What the clubs tab offers on a club's row. */
  datatype ClubControl = ApproveButton | RejectButton | DeleteButton | MembersLink(to: string)

  function ClubRowControls(club: Club): (r: seq<ClubControl>)
    ensures DeleteButton in r
    ensures ApproveButton in r <==> club.status == Pending
    ensures RejectButton in r <==> club.status == Pending
    ensures (exists to :: MembersLink(to) in r) <==> club.status != Pending
    ensures forall to :: MembersLink(to) in r ==> to == Router.SubpageLink("admin", "club", club.id, "members")
  {
    if club.status == Pending then [ApproveButton, RejectButton, DeleteButton]
    else [MembersLink(Router.SubpageLink("admin", "club", club.id, "members")), DeleteButton]
  }

  /** A row of the overview's pending table: approve and reject only, both disabled while a
      status update is in flight. */
  datatype PendingRow = PendingRow(controls: seq<ClubControl>, disabled: bool)

  function PendingRowControls(statusPending: bool): (r: PendingRow)
    ensures ApproveButton in r.controls && RejectButton in r.controls
    ensures DeleteButton !in r.controls
    ensures forall to :: MembersLink(to) !in r.controls
    ensures r.disabled <==> statusPending
  {
    PendingRow([ApproveButton, RejectButton], statusPending)
  }

  /** For a pending club the clubs tab offers the overview's two controls plus delete, and
      never disables them; the overview alone blocks a second status update. */
  lemma PendingRowAgreesWithClubsTab(club: Club, statusPending: bool)
    requires club.status == Pending
    ensures ClubRowControls(club) == PendingRowControls(statusPending).controls + [DeleteButton]
  {
  }

  /** The overview's pending table lists exactly the clubs on which the clubs tab offers
      approval. */
  lemma PendingTableMatchesClubsTab(clubs: seq<Club>)
    ensures forall c :: c in PendingClubs(clubs) <==> c in clubs && ApproveButton in ClubRowControls(c)
  {
  }

  /** The "View Members" link of a reviewed club opens the members page of that club. */
  lemma MembersLinkOpensMembersPage(club: Club, to: string)
    requires club.id != "" && '/' !in club.id
    requires MembersLink(to) in ClubRowControls(club)
    ensures to == Router.SubpageLink("admin", "club", club.id, "members")
    ensures Router.Resolve(to) == {Router.ClubMembers}
  {
    Router.ViewMembersLinksResolve(club.id);
  }

  /** The controls on a user's row of the users tab. */
  datatype UserRowControls = UserRowControls(roleSelectDisabled: bool, ownRoleHint: bool, deleteShown: bool)

  /** A listed user as `/users` returns it. */
  datatype UserRecord = UserRecord(id: string, email: Option<string>, role: string)

  /** `user.email === currentUser?.email`: two absent emails compare equal. */
  predicate IsSelf(listed: UserRecord, current: Option<User>) {
    listed.email == EmailOf(current)
  }

  function UserRow(listed: UserRecord, current: Option<User>, rolePending: bool): (r: UserRowControls)
    ensures r.ownRoleHint <==> IsSelf(listed, current)
    ensures r.deleteShown <==> !IsSelf(listed, current)
    ensures r.roleSelectDisabled <==> rolePending || IsSelf(listed, current)
  {
    var self := IsSelf(listed, current);
    UserRowControls(rolePending || self, self, !self)
  }

  /** The rows on which an admin can pick a new role. */
  function RoleEditable(users: seq<UserRecord>, current: Option<User>, rolePending: bool): (r: seq<UserRecord>)
    ensures forall u :: u in r <==> u in users && !UserRow(u, current, rolePending).roleSelectDisabled
  {
    Seqs.Filter(users, (u: UserRecord) => !UserRow(u, current, rolePending).roleSelectDisabled)
  }

  /** No admin can change their own role or delete themselves from the table, and while a
      role update is in flight no role can be changed at all. */
  lemma NoSelfService(users: seq<UserRecord>, current: Option<User>, rolePending: bool)
    ensures forall u :: u in RoleEditable(users, current, rolePending) ==> u.email != EmailOf(current)
    ensures forall u :: u in users && UserRow(u, current, rolePending).deleteShown ==> u.email != EmailOf(current)
    ensures rolePending ==> RoleEditable(users, current, rolePending) == []
  {
  }

  /** The role options the select offers. */
  const RoleOptions: seq<Role> := [Member, ClubManager, Admin]

  /** The handlers of the dashboard. */
  datatype AdminAction =
    | ApproveClub(clubId: string)
    | RejectClub(clubId: string)
    | DeleteClub(clubId: string)
    | ChangeRole(userId: string, role: Role)
    | DeleteEvent(eventId: string)
    | DeleteUser(userId: string)

  /** Only approving and rejecting skip the confirmation dialog. */
  predicate NeedsConfirmation(a: AdminAction) {
    !(a.ApproveClub? || a.RejectClub?)
  }

  /** The request a mutation sends. */
  function RequestOf(a: AdminAction): (r: Request)
    ensures r.verb == Delete <==> a.DeleteClub? || a.DeleteEvent? || a.DeleteUser?
    ensures r.verb == Delete ==> r.body == map[]
    ensures a.ApproveClub? || a.RejectClub? ==>
      "status" in r.body && r.body["status"].JString? && StatusFromName(r.body["status"].text) == Some(if a.ApproveClub? then Approved else Rejected)
    ensures a.ApproveClub? || a.RejectClub? ==> r.verb == Put && r.path == "/clubs/" + a.clubId + "/status"
    ensures a.DeleteClub? ==> r.path == "/clubs/" + a.clubId
    ensures a.ChangeRole? ==> r.verb == Put && r.path == "/users/" + a.userId + "/role"
    ensures a.ChangeRole? ==> "role" in r.body && r.body["role"] == JString(RoleName(a.role))
    ensures a.DeleteEvent? ==> r.path == "/events/" + a.eventId
    ensures a.DeleteUser? ==> r.path == "/users/" + a.userId
  {
    match a
    case ApproveClub(id) => Request(Put, "/clubs/" + id + "/status", map["status" := JString(StatusName(Approved))])
    case RejectClub(id) => Request(Put, "/clubs/" + id + "/status", map["status" := JString(StatusName(Rejected))])
    case DeleteClub(id) => Request(Delete, "/clubs/" + id, map[])
    case ChangeRole(id, role) => Request(Put, "/users/" + id + "/role", map["role" := JString(RoleName(role))])
    case DeleteEvent(id) => Request(Delete, "/events/" + id, map[])
    case DeleteUser(id) => Request(Delete, "/users/" + id, map[])
  }

  /** Each request names its action: two actions that send the same request are the same
      action, provided the role of a role change is one the select can produce. */
  lemma RequestNamesAction(a: AdminAction, b: AdminAction)
    requires a.ChangeRole? ==> CanonicalRole(a.role)
    requires b.ChangeRole? ==> CanonicalRole(b.role)
    requires RequestOf(a) == RequestOf(b)
    ensures a == b
  {
    var ra, rb := RequestOf(a), RequestOf(b);
    assert ra.path[1] == rb.path[1];
    match a
    case ApproveClub(x) =>
      SameSegment("/clubs/", x, b.clubId, "/status");
    case RejectClub(x) =>
      SameSegment("/clubs/", x, b.clubId, "/status");
    case DeleteClub(x) =>
      SameSegment("/clubs/", x, b.clubId, "");
    case ChangeRole(x, role) =>
      SameSegment("/users/", x, b.userId, "/role");
      RoleRoundTrip(role);
      RoleRoundTrip(b.role);
    case DeleteEvent(x) =>
      SameSegment("/events/", x, b.eventId, "");
    case DeleteUser(x) =>
      SameSegment("/users/", x, b.userId, "");
  }

  /** Two paths built around one prefix and one suffix carry the same middle segment. */
  lemma SameSegment(prefix: string, x: string, y: string, suffix: string)
    requires prefix + x + suffix == prefix + y + suffix
    ensures x == y
  {
    var p, q := prefix + x + suffix, prefix + y + suffix;
    assert |x| == |y|;
    forall i | 0 <= i < |x|
      ensures x[i] == y[i]
    {
      assert p[|prefix| + i] == x[i];
      assert q[|prefix| + i] == y[i];
    }
  }

  /** What a handler sends, given the answer to its confirmation dialog (ignored by the
      handlers that show none). */
  function Dispatch(a: AdminAction, confirmed: bool): (r: Option<Request>)
    ensures r.Some? <==> !NeedsConfirmation(a) || confirmed
    ensures r.Some? ==> r.value == RequestOf(a)
  {
    if !NeedsConfirmation(a) || confirmed then Some(RequestOf(a)) else None
  }

  /** No deletion and no role change is sent without confirmation. */
  lemma DestructiveActionsNeedConfirmation(a: AdminAction)
    requires RequestOf(a).verb == Delete || a.ChangeRole?
    ensures Dispatch(a, false).None?
  {
  }

  /** A role chosen from the select reaches the backend as a name that reads back as the
      same role. */
  lemma RoleChangeRoundTrip(userId: string, role: Role)
    requires role in RoleOptions
    ensures var body := RequestOf(ChangeRole(userId, role)).body;
      "role" in body && body["role"].JString? && RoleFromName(body["role"].text) == role
  {
    RoleRoundTrip(role);
  }

  /** The query keys a successful mutation names. Passed as a bare array, they make the call
      invalidate every cached query, whichever keys are named. */
  function Invalidations(a: AdminAction): (keys: set<QueryKey>)
    ensures ListingOf(a) in keys
    ensures StatsKey in keys <==> a.ApproveClub? || a.RejectClub?
    ensures forall cached: set<QueryKey> :: ArrayCallsInvalidate(keys, cached) == cached
  {
    match a
    case ApproveClub(_) => {ClubsKey, StatsKey}
    case RejectClub(_) => {ClubsKey, StatsKey}
    case DeleteClub(_) => {ClubsKey}
    case ChangeRole(_, _) => {UsersKey}
    case DeleteEvent(_) => {EventsKey}
    case DeleteUser(_) => {UsersKey}
  }

  /** The listing that shows the entity an action changes. */
  function ListingOf(a: AdminAction): QueryKey {
    match a
    case ApproveClub(_) => ClubsKey
    case RejectClub(_) => ClubsKey
    case DeleteClub(_) => ClubsKey
    case ChangeRole(_, _) => UsersKey
    case DeleteEvent(_) => EventsKey
    case DeleteUser(_) => UsersKey
  }

  /** The listing each mutation names is one the tab showing its button has enabled:
      club actions on the clubs tab, user actions on the users tab, event deletion on the
      events tab. */
  lemma InvalidatedListingIsShown(a: AdminAction, f: ViewFlags)
    requires a.ChangeRole? || a.DeleteUser? ==> f.users
    requires a.DeleteEvent? ==> f.events
    ensures ListingOf(a) in EnabledQueries(f)
  {
  }
}
