/** The dashboard route table (the `dashboard` branch of `createBrowserRouter`) and how a
    URL path is matched against it. */
module Router {
  import opened Wrappers
  import opened Text

  /** The page components the router can mount. */
  datatype Component =
    | DashboardRedirect
    | MemberDashboard
    | EditProfile
    | ManagerDashboard
    | AddClub
    | EditClub
    | AddEvent
    | EditEvent
    | ClubMembers
    | EventRegistrations
    | AdminDashboard

  const DashboardRoot := "/dashboard"

  /** The child routes under `dashboard`, each path pattern written as its '/'-separated
      segments (`manager/club/:clubId/members` is `["manager", "club", ":clubId", "members"]`,
      the index route is `[""]`). */
  const DashboardChildren: map<seq<string>, Component> := map[
    [""] := DashboardRedirect,
    ["my-clubs"] := MemberDashboard,
    ["profile"] := EditProfile,
    ["my-events"] := MemberDashboard,
    ["manager"] := ManagerDashboard,
    ["manager", "clubs"] := ManagerDashboard,
    ["manager", "add-club"] := AddClub,
    ["manager", "edit-club", ":id"] := EditClub,
    ["manager", "add-event"] := AddEvent,
    ["manager", "edit-event", ":id"] := EditEvent,
    ["manager", "club", ":clubId", "members"] := ClubMembers,
    ["manager", "event", ":eventId", "registrations"] := EventRegistrations,
    ["admin"] := AdminDashboard,
    ["admin", "clubs"] := AdminDashboard,
    ["admin", "club", ":clubId", "members"] := ClubMembers,
    ["admin", "users"] := AdminDashboard,
    ["admin", "events"] := AdminDashboard,
    ["admin", "payments"] := AdminDashboard
  ]

  /** The part of a URL path below `/dashboard`, if the path is inside the dashboard. */
  function ChildPath(url: string): (r: Option<string>)
    ensures r.Some? <==> url == DashboardRoot || DashboardRoot + "/" <= url
    ensures r.Some? ==> url == DashboardRoot + (if r.value == "" then "" else "/" + r.value)
                        || url == DashboardRoot + "/" + r.value
  {
    if url == DashboardRoot then Some("")
    else if |url| >= |DashboardRoot| + 1 && url[..|DashboardRoot| + 1] == DashboardRoot + "/" then
      assert url == url[..|DashboardRoot| + 1] + url[|DashboardRoot| + 1..];
      Some(url[|DashboardRoot| + 1..])
    else None
  }

  /** Drops trailing empty segments, keeping at least one: React Router lets any number of
      slashes follow a matched path. */
  function TrimEmpty(segs: seq<string>): (r: seq<string>)
    requires |segs| >= 1
    ensures 1 <= |r| <= |segs| && r == segs[..|r|]
    ensures |r| == 1 || r[|r| - 1] != ""
    ensures forall i :: |r| <= i < |segs| ==> segs[i] == ""
    decreases |segs|
  {
    if |segs| > 1 && segs[|segs| - 1] == "" then TrimEmpty(segs[..|segs| - 1]) else segs
  }

  /** The segments of a child path that the patterns are matched against. */
  function Segments(child: string): seq<string> {
    TrimEmpty(Split(child))
  }

  /** One pattern segment against one path segment: `:name` matches any non-empty
      segment, anything else matches itself. */
  predicate SegmentMatches(pattern: string, segment: string) {
    if |pattern| > 0 && pattern[0] == ':' then segment != "" else pattern == segment
  }

  /** A pattern matches the segments of a child path. */
  predicate Matches(pattern: seq<string>, cs: seq<string>) {
    |pattern| == |cs| && forall i :: 0 <= i < |pattern| ==> SegmentMatches(pattern[i], cs[i])
  }

  /** The route table read as a decision on the segments of a child path: the component
      mounted for them, if any. */
  function RouteOf(cs: seq<string>): Option<Component> {
    if |cs| == 1 then
      if cs[0] == "" then Some(DashboardRedirect)
      else if cs[0] == "my-clubs" || cs[0] == "my-events" then Some(MemberDashboard)
      else if cs[0] == "profile" then Some(EditProfile)
      else if cs[0] == "manager" then Some(ManagerDashboard)
      else if cs[0] == "admin" then Some(AdminDashboard)
      else None
    else if |cs| == 2 && cs[0] == "manager" then
      if cs[1] == "clubs" then Some(ManagerDashboard)
      else if cs[1] == "add-club" then Some(AddClub)
      else if cs[1] == "add-event" then Some(AddEvent)
      else None
    else if |cs| == 2 && cs[0] == "admin" then
      if cs[1] == "clubs" || cs[1] == "users" || cs[1] == "events" || cs[1] == "payments" then Some(AdminDashboard)
      else None
    else if |cs| == 3 && cs[0] == "manager" && cs[2] != "" then
      if cs[1] == "edit-club" then Some(EditClub)
      else if cs[1] == "edit-event" then Some(EditEvent)
      else None
    else if |cs| == 4 && cs[2] != "" && (cs[0] == "manager" || cs[0] == "admin") && cs[1] == "club" && cs[3] == "members" then
      Some(ClubMembers)
    else if |cs| == 4 && cs[2] != "" && cs[0] == "manager" && cs[1] == "event" && cs[3] == "registrations" then
      Some(EventRegistrations)
    else None
  }

  /** The components whose route matches a URL path: none or exactly the one the decision
      picks, so no URL mounts two pages. */
  function Resolve(url: string): (r: set<Component>)
    ensures |r| <= 1
    ensures forall c :: c in r <==> ChildPath(url).Some? && RouteOf(Segments(ChildPath(url).value)) == Some(c)
  {
    match ChildPath(url)
    case None => {}
    case Some(child) =>
      var cs := Segments(child);
      TableAgrees(cs);
      var r := set p | p in DashboardChildren && Matches(p, cs) :: DashboardChildren[p];
      if RouteOf(cs).Some? then
        assert r == {RouteOf(cs).value};
        r
      else
        assert r == {};
        r
  }

  predicate Declared(url: string) {
    Resolve(url) != {}
  }

  /** The table and the decision agree: every pattern that matches contributes the decided
      component, and a decided component comes from a matching pattern. */
  lemma TableAgrees(cs: seq<string>)
    ensures forall p :: p in DashboardChildren && Matches(p, cs) ==> RouteOf(cs) == Some(DashboardChildren[p])
    ensures RouteOf(cs).Some? ==> exists p :: p in DashboardChildren && Matches(p, cs) && DashboardChildren[p] == RouteOf(cs).value
  {
    forall p | p in DashboardChildren && Matches(p, cs) ensures RouteOf(cs) == Some(DashboardChildren[p]) {
      KeyRoute(p, cs);
    }
    if RouteOf(cs).Some? {
      if |cs| == 1 {
        OneSegmentFound(cs);
      } else if |cs| == 2 {
        TwoSegmentFound(cs);
      } else {
        LongRouteFound(cs);
      }
    }
  }

  /** What one pattern of the table contributes. */
  lemma KeyRoute(p: seq<string>, cs: seq<string>)
    requires p in DashboardChildren
    ensures Canonical(p)
    ensures Matches(p, cs) ==> RouteOf(cs) == Some(DashboardChildren[p])
  {
    if |p| == 1 {
      OneSegmentKeys(p, cs);
    } else if |p| == 2 {
      TwoSegmentKeys(p, cs);
    } else {
      LongKeys(p, cs);
    }
  }

  lemma OneSegmentKeys(p: seq<string>, cs: seq<string>)
    requires p in DashboardChildren && |p| == 1
    ensures Canonical(p)
    ensures Matches(p, cs) ==> RouteOf(cs) == Some(DashboardChildren[p])
  {
  }

  lemma TwoSegmentKeys(p: seq<string>, cs: seq<string>)
    requires p in DashboardChildren && |p| == 2
    ensures Canonical(p)
    ensures Matches(p, cs) ==> RouteOf(cs) == Some(DashboardChildren[p])
  {
  }

  lemma LongKeys(p: seq<string>, cs: seq<string>)
    requires p in DashboardChildren && |p| > 2
    ensures Canonical(p)
    ensures Matches(p, cs) ==> RouteOf(cs) == Some(DashboardChildren[p])
  {
  }

  /** A decided root, member, manager or admin page comes from its own table entry. */
  lemma OneSegmentFound(cs: seq<string>)
    requires RouteOf(cs).Some? && |cs| == 1
    ensures exists p :: p in DashboardChildren && Matches(p, cs) && DashboardChildren[p] == RouteOf(cs).value
  {
    assert Matches([cs[0]], cs);
  }

  /** A decided manager or admin tab comes from its own table entry. */
  lemma TwoSegmentFound(cs: seq<string>)
    requires RouteOf(cs).Some? && |cs| == 2
    ensures exists p :: p in DashboardChildren && Matches(p, cs) && DashboardChildren[p] == RouteOf(cs).value
  {
    assert Matches([cs[0], cs[1]], cs);
  }

  /** A decided page below a club or an event comes from its parameterised table entry. */
  lemma LongRouteFound(cs: seq<string>)
    requires RouteOf(cs).Some? && |cs| > 2
    ensures exists p :: p in DashboardChildren && Matches(p, cs) && DashboardChildren[p] == RouteOf(cs).value
  {
    if |cs| == 3 {
      assert Matches([cs[0], cs[1], ":id"], cs);
    } else if cs[1] == "club" {
      assert Matches([cs[0], cs[1], ":clubId", cs[3]], cs);
    } else {
      assert Matches([cs[0], cs[1], ":eventId", cs[3]], cs);
    }
  }

  /** A path as the table writes it: '/'-free segments, only the index route ending empty. */
  predicate Canonical(path: seq<string>) {
    && |path| >= 1
    && (forall i :: 0 <= i < |path| ==> '/' !in path[i])
    && (path == [""] || path[|path| - 1] != "")
  }

  /** The full URL of a dashboard child path. */
  function DashboardUrl(child: string): string {
    if child == "" then DashboardRoot else DashboardRoot + "/" + child
  }

  /** The full URL of a path given by its segments, as the sidebar and the redirects write it. */
  function UrlOf(path: seq<string>): string {
    if path == [] then DashboardRoot else DashboardUrl(Join(path))
  }

  /** The URL of a canonical path is matched with exactly that path's segments. */
  lemma UrlSegments(path: seq<string>)
    requires Canonical(path)
    ensures ChildPath(UrlOf(path)) == Some(Join(path))
    ensures Segments(Join(path)) == path
  {
    SplitJoin(path);
    var child := Join(path);
    if path != [""] {
      assert child != "" by {
        if |path| > 1 {
          assert child == path[0] + "/" + Join(path[1..]);
        }
      }
      ChildPathOf(child);
    }
  }

  /** Every table entry, reached through its full URL, mounts exactly its component. */
  lemma ChildUrlResolves(path: seq<string>)
    requires path in DashboardChildren
    ensures Resolve(UrlOf(path)) == {DashboardChildren[path]}
  {
    KeyRoute(path, path);
    UrlSegments(path);
    assert Matches(path, path);
  }

  /** A slash after a URL changes nothing it resolves to. */
  lemma TrailingSlashIgnored(url: string)
    ensures Resolve(url + "/") == Resolve(url)
  {
    var u := url + "/";
    assert u[..|url|] == url;
    if url == DashboardRoot {
      assert ChildPath(u) == Some("");
      assert Split("") == [""];
    } else if ChildPath(url).Some? {
      var child := ChildPath(url).value;
      assert u == DashboardRoot + "/" + (child + "/");
      assert u[..|DashboardRoot| + 1] == DashboardRoot + "/";
      assert ChildPath(u) == Some(child + "/");
      SplitAround(child, "");
      assert child + "/" == child + "/" + "";
      assert Split(child + "/") == Split(child) + [""];
      assert (Split(child) + [""])[..|Split(child)|] == Split(child);
    } else {
      assert ChildPath(u).None?;
    }
  }

  /** Two '/'-free pieces joined by '/' split back into those two pieces. */
  lemma SplitTwo(a: string, b: string)
    requires '/' !in a && '/' !in b
    ensures Split(a + "/" + b) == [a, b]
  {
    SplitNoSlash(a);
    SplitNoSlash(b);
    SplitAround(a, b);
  }

  /** A '/'-free piece in front of a split string adds one segment in front. */
  lemma SplitCons(a: string, rest: string)
    requires '/' !in a
    ensures Split(a + "/" + rest) == [a] + Split(rest)
  {
    SplitNoSlash(a);
    SplitAround(a, rest);
  }

  lemma ConcatFour(a: string, b: string, c: string, d: string)
    ensures a + "/" + b + "/" + c + "/" + d == a + "/" + (b + "/" + (c + "/" + d))
  {
  }

  /** Four '/'-free pieces joined by '/' split back into those four pieces. */
  lemma SplitFour(a: string, b: string, c: string, d: string)
    requires '/' !in a && '/' !in b && '/' !in c && '/' !in d
    ensures Split(a + "/" + b + "/" + c + "/" + d) == [a, b, c, d]
  {
    SplitTwo(c, d);
    SplitCons(b, c + "/" + d);
    SplitCons(a, b + "/" + (c + "/" + d));
    ConcatFour(a, b, c, d);
  }

  /** Three '/'-free pieces joined by '/' split back into those three pieces. */
  lemma SplitThree(a: string, b: string, c: string)
    requires '/' !in a && '/' !in b && '/' !in c
    ensures Split(a + "/" + b + "/" + c) == [a, b, c]
  {
    SplitTwo(b, c);
    SplitCons(a, b + "/" + c);
    ConcatThree(a, b, c);
  }

  lemma ConcatThree(a: string, b: string, c: string)
    ensures a + "/" + b + "/" + c == a + "/" + (b + "/" + c)
  {
  }

  /** A full dashboard URL strips to its child path. */
  lemma ChildPathOf(child: string)
    requires child != ""
    ensures ChildPath(DashboardRoot + "/" + child) == Some(child)
  {
    var url := DashboardRoot + "/" + child;
    assert url[..|DashboardRoot| + 1] == DashboardRoot + "/";
    assert url[|DashboardRoot| + 1..] == child;
  }

  /** A link to a page below one item: `/dashboard/<section>/<kind>/<id>/<page>`. */
  function SubpageLink(section: string, kind: string, id: string, page: string): string {
    DashboardRoot + "/" + section + "/" + kind + "/" + id + "/" + page
  }

  /** A link to one item's page: `/dashboard/<section>/<page>/<id>`. */
  function DetailLink(section: string, page: string, id: string): string {
    DashboardRoot + "/" + section + "/" + page + "/" + id
  }

  /** The segments a subpage link is matched with. */
  lemma SubpageSegments(section: string, kind: string, id: string, page: string)
    requires '/' !in section && '/' !in kind && '/' !in id && '/' !in page && page != ""
    ensures var url := SubpageLink(section, kind, id, page);
      ChildPath(url).Some? && Segments(ChildPath(url).value) == [section, kind, id, page]
  {
    var child := section + "/" + kind + "/" + id + "/" + page;
    assert SubpageLink(section, kind, id, page) == DashboardRoot + "/" + child;
    ChildPathOf(child);
    SplitFour(section, kind, id, page);
  }

  /** The segments a detail link is matched with. */
  lemma DetailSegments(section: string, page: string, id: string)
    requires '/' !in section && '/' !in page && '/' !in id && id != ""
    ensures var url := DetailLink(section, page, id);
      ChildPath(url).Some? && Segments(ChildPath(url).value) == [section, page, id]
  {
    var child := section + "/" + page + "/" + id;
    assert DetailLink(section, page, id) == DashboardRoot + "/" + child;
    ChildPathOf(child);
    SplitThree(section, page, id);
  }

  /** The "View Members" links of the admin club table and of the manager club table mount
      `ClubMembers` for every club id that is a single non-empty path segment. */
  lemma ViewMembersLinksResolve(id: string)
    requires id != "" && '/' !in id
    ensures Resolve(SubpageLink("admin", "club", id, "members")) == {ClubMembers}
    ensures Resolve(SubpageLink("manager", "club", id, "members")) == {ClubMembers}
  {
    SubpageSegments("admin", "club", id, "members");
    SubpageSegments("manager", "club", id, "members");
  }

  /** The "Edit" link of a manager's club row mounts `EditClub`. */
  lemma EditClubLinkResolves(id: string)
    requires id != "" && '/' !in id
    ensures Resolve(DetailLink("manager", "edit-club", id)) == {EditClub}
  {
    DetailSegments("manager", "edit-club", id);
  }

  /** The "Edit" link of a manager's event row mounts `EditEvent`. */
  lemma EditEventLinkResolves(id: string)
    requires id != "" && '/' !in id
    ensures Resolve(DetailLink("manager", "edit-event", id)) == {EditEvent}
  {
    DetailSegments("manager", "edit-event", id);
  }

  /** The "View Registrations" link of a manager's event row mounts `EventRegistrations`. */
  lemma RegistrationsLinkResolves(id: string)
    requires id != "" && '/' !in id
    ensures Resolve(SubpageLink("manager", "event", id, "registrations")) == {EventRegistrations}
  {
    SubpageSegments("manager", "event", id, "registrations");
  }

  const AdminPaths: set<seq<string>> := {["admin"], ["admin", "clubs"], ["admin", "users"], ["admin", "events"], ["admin", "payments"]}
  const ManagerPaths: set<seq<string>> := {["manager"], ["manager", "clubs"]}
  const MemberPaths: set<seq<string>> := {["my-clubs"], ["my-events"]}

  /** The table entries behind the shared paths. */
  lemma SharedPathEntries(path: seq<string>)
    ensures path == [""] ==> path in DashboardChildren && DashboardChildren[path] == DashboardRedirect
    ensures path in MemberPaths ==> path in DashboardChildren && DashboardChildren[path] == MemberDashboard
    ensures path in ManagerPaths ==> path in DashboardChildren && DashboardChildren[path] == ManagerDashboard
    ensures path in AdminPaths ==> path in DashboardChildren && DashboardChildren[path] == AdminDashboard
  {
  }

  /** The shared dashboard paths and the components they mount: the root shows the
      redirect component, both member views share `MemberDashboard`, both manager paths
      share `ManagerDashboard`, and all five admin paths share `AdminDashboard`. */
  lemma SharedPathsResolve(path: seq<string>)
    ensures path == [""] ==> Resolve(UrlOf(path)) == {DashboardRedirect}
    ensures path in MemberPaths ==> Resolve(UrlOf(path)) == {MemberDashboard}
    ensures path in ManagerPaths ==> Resolve(UrlOf(path)) == {ManagerDashboard}
    ensures path in AdminPaths ==> Resolve(UrlOf(path)) == {AdminDashboard}
  {
    SharedPathEntries(path);
    if path in DashboardChildren {
      ChildUrlResolves(path);
    }
  }
}
