/** `MemberDashboard`: the member overview, "My Clubs" and "My Events". */
module MemberDashboard {
  import opened Wrappers
  import opened Domain
  import opened Text
  import Seqs

  /** The two path tests; the overview is the absence of both. */
  datatype ViewFlags = ViewFlags(myClubs: bool, myEvents: bool) {
    predicate Overview() { !myClubs && !myEvents }
  }

  function FlagsOf(path: string): (f: ViewFlags)
    ensures f.myClubs <==> Contains(path, "my-clubs")
    ensures f.myEvents <==> Contains(path, "my-events")
  {
    ViewFlags(Contains(path, "my-clubs"), Contains(path, "my-events"))
  }

  /** The member routes select the view of their own name; the dashboard root shows the overview. */
  lemma MemberRouteFlags()
    ensures FlagsOf("/dashboard").Overview()
    ensures FlagsOf("/dashboard/my-clubs") == ViewFlags(true, false)
    ensures FlagsOf("/dashboard/my-events") == ViewFlags(false, true)
  {
    RootFlags();
    MyClubsFlags();
    MyEventsFlags();
  }

  lemma RootFlags()
    ensures FlagsOf("/dashboard") == ViewFlags(false, false)
  {
    MissingChar("/dashboard", "my-clubs", 'y');
    MissingChar("/dashboard", "my-events", 'y');
  }

  lemma MyClubsFlags()
    ensures FlagsOf("/dashboard/my-clubs") == ViewFlags(true, false)
  {
    assert OccursAt("/dashboard/my-clubs", "my-clubs", 11);
    MissingChar("/dashboard/my-clubs", "my-events", 'e');
  }

  lemma MyEventsFlags()
    ensures FlagsOf("/dashboard/my-events") == ViewFlags(false, true)
  {
    assert OccursAt("/dashboard/my-events", "my-events", 11);
    MissingChar("/dashboard/my-events", "my-clubs", 'c');
  }

  const MembershipsKey: QueryKey := ["myMemberships"]
  const RegistrationsKey: QueryKey := ["myRegistrations"]
  const PaymentsKey: QueryKey := ["myPayments"]

  /** Memberships and registrations are always fetched; payments only for the overview. */
  function EnabledQueries(f: ViewFlags): (q: set<QueryKey>)
    ensures MembershipsKey in q && RegistrationsKey in q
    ensures PaymentsKey in q <==> f.Overview()
    ensures q <= {MembershipsKey, RegistrationsKey, PaymentsKey}
  {
    {MembershipsKey, RegistrationsKey} + (if f.Overview() then {PaymentsKey} else {})
  }

  /** The heading: a greeting on the overview, otherwise the tab name ("My Clubs" wins
      when both tests pass). */
  function Title(f: ViewFlags, user: Option<User>): (t: string)
    ensures f.Overview() ==> t == "Welcome back, " + DisplayNameOr(user) + "!"
    ensures t == "My Clubs" <==> f.myClubs
    ensures t == "My Events" <==> !f.myClubs && f.myEvents
  {
    if f.Overview() then "Welcome back, " + DisplayNameOr(user) + "!"
    else if f.myClubs then "My Clubs"
    else "My Events"
  }

  /** The member routes' headings: the overview greets the user by their display name, and
      each tab names itself. */
  lemma MemberRouteTitles(u: User, name: string)
    requires u.displayName == Some(name) && name != ""
    ensures Title(FlagsOf("/dashboard"), Some(u)) == "Welcome back, " + name + "!"
    ensures Title(FlagsOf("/dashboard/my-clubs"), Some(u)) == "My Clubs"
    ensures Title(FlagsOf("/dashboard/my-events"), Some(u)) == "My Events"
  {
    MemberRouteFlags();
  }

  /** `user?.displayName || 'Member'`. */
  function DisplayNameOr(user: Option<User>): (n: string)
    ensures n != ""
    ensures n != "Member" ==> user.Some? && user.value.displayName == Some(n)
    ensures user.Some? && user.value.displayName.Some? && user.value.displayName.value != "" ==>
              n == user.value.displayName.value
  {
    if user.Some? && user.value.displayName.Some? && user.value.displayName.value != "" then
      user.value.displayName.value
    else "Member"
  }

  /** `curr.amount || 0`. */
  function AmountOf(p: Payment): int {
    p.amount.GetOr(0)
  }

  /** The left fold `payments.reduce((acc, curr) => acc + (curr.amount || 0), 0)`. */
  function SumAmounts(payments: seq<Payment>): int
    decreases |payments|
  {
    if payments == [] then 0
    else SumAmounts(payments[..|payments| - 1]) + AmountOf(payments[|payments| - 1])
  }

  /** The sum of a concatenation is the sum of the parts. */
  lemma {:induction false} SumAppend(a: seq<Payment>, b: seq<Payment>)
    ensures SumAmounts(a + b) == SumAmounts(a) + SumAmounts(b)
    decreases |b|
  {
    if b == [] {
      assert a + b == a;
    } else {
      var b' := b[..|b| - 1];
      assert (a + b)[..|a + b| - 1] == a + b';
      SumAppend(a, b');
    }
  }

  /** The total does not depend on the order in which the two halves are listed. */
  lemma SumSwap(a: seq<Payment>, b: seq<Payment>)
    ensures SumAmounts(a + b) == SumAmounts(b + a)
  {
    SumAppend(a, b);
    SumAppend(b, a);
  }

  /** With no negative amount the total is at least any single amount. */
  lemma {:induction false} SumBoundsEach(payments: seq<Payment>, i: nat)
    requires forall j :: 0 <= j < |payments| ==> AmountOf(payments[j]) >= 0
    requires i < |payments|
    ensures 0 <= AmountOf(payments[i]) <= SumAmounts(payments)
    decreases |payments|
  {
    var last := |payments| - 1;
    var init := payments[..last];
    SumNonNegative(init);
    if i < last {
      SumBoundsEach(init, i);
    }
  }

  lemma {:induction false} SumNonNegative(payments: seq<Payment>)
    requires forall j :: 0 <= j < |payments| ==> AmountOf(payments[j]) >= 0
    ensures SumAmounts(payments) >= 0
    decreases |payments|
  {
    if payments != [] {
      SumNonNegative(payments[..|payments| - 1]);
    }
  }

  /** The "Total Spent" figure, accumulated left to right as `reduce` does. */
  method TotalSpent(payments: seq<Payment>) returns (total: int)
    ensures total == SumAmounts(payments)
    ensures (forall j :: 0 <= j < |payments| ==> AmountOf(payments[j]) >= 0) ==> total >= 0
  {
    total := 0;
    var i := 0;
    while i < |payments|
      invariant 0 <= i <= |payments|
      invariant total == SumAmounts(payments[..i])
    {
      assert payments[..i + 1][..i] == payments[..i];
      total := total + AmountOf(payments[i]);
      i := i + 1;
    }
    assert payments[..i] == payments;
    if forall j :: 0 <= j < |payments| ==> AmountOf(payments[j]) >= 0 {
      SumNonNegative(payments);
    }
  }

  predicate IsActive(m: Membership) { m.status == "active" }

  predicate IsInactive(m: Membership) { m.status != "active" }

  predicate IsUpcoming(g: Registration) { g.status == "registered" }

  predicate IsNotUpcoming(g: Registration) { g.status != "registered" }

  /** "active memberships" under the joined count: each active membership as often as the
      fetched list holds it, in order, and no other. */
  function ActiveMemberships(ms: seq<Membership>): (r: seq<Membership>)
    ensures |r| <= |ms|
    ensures forall m :: multiset(r)[m] == if m.status == "active" then multiset(ms)[m] else 0
    ensures forall m :: m in r <==> m in ms && m.status == "active"
    ensures Seqs.IsSubsequence(r, ms)
  {
    Seqs.FilterCount(ms, IsActive);
    Seqs.Filter(ms, IsActive)
  }

  /** "Upcoming Events": each registration whose status is `registered`, as often as the
      fetched list holds it, in order. */
  function UpcomingRegistrations(rs: seq<Registration>): (r: seq<Registration>)
    ensures |r| <= |rs|
    ensures forall g :: multiset(r)[g] == if g.status == "registered" then multiset(rs)[g] else 0
    ensures forall g :: g in r <==> g in rs && g.status == "registered"
    ensures Seqs.IsSubsequence(r, rs)
  {
    Seqs.FilterCount(rs, IsUpcoming);
    Seqs.Filter(rs, IsUpcoming)
  }

  /** The two stat cards' counts: the active count plus the other memberships is the joined
      total, reaching it exactly when every membership is active; likewise the upcoming
      count against all registrations. */
  lemma StatCounts(ms: seq<Membership>, rs: seq<Registration>)
    ensures |ActiveMemberships(ms)| + |Seqs.Filter(ms, IsInactive)| == |ms|
    ensures |ActiveMemberships(ms)| == |ms| <==> forall m :: m in ms ==> m.status == "active"
    ensures |UpcomingRegistrations(rs)| + |Seqs.Filter(rs, IsNotUpcoming)| == |rs|
    ensures |UpcomingRegistrations(rs)| == |rs| <==> forall g :: g in rs ==> g.status == "registered"
  {
    Seqs.FilterPartition(ms, IsActive, IsInactive);
    Seqs.FilterExtremes(ms, IsActive);
    Seqs.FilterPartition(rs, IsUpcoming, IsNotUpcoming);
    Seqs.FilterExtremes(rs, IsUpcoming);
  }

  /** A row of "My Schedule": its 1-based number and the registration. */
  datatype ScheduleRow = ScheduleRow(number: nat, registration: Registration)

  /** `registrations.slice(0, 5).map((reg, index) => ...index + 1...)`. */
  function Schedule(rs: seq<Registration>): (rows: seq<ScheduleRow>)
    ensures |rows| == if |rs| < 5 then |rs| else 5
    ensures forall i :: 0 <= i < |rows| ==> rows[i] == ScheduleRow(i + 1, rs[i])
  {
    var n := if |rs| < 5 then |rs| else 5;
    seq(n, i requires 0 <= i < n => ScheduleRow(i + 1, rs[i]))
  }

  /** The schedule is numbered 1, 2, ... without gaps, lists registrations in their
      order, and is empty exactly when the "No upcoming events" row shows. */
  lemma ScheduleNumbering(rs: seq<Registration>)
    ensures forall i :: 0 <= i < |Schedule(rs)| ==> Schedule(rs)[i].number == i + 1
    ensures forall g :: g in rs[..|Schedule(rs)|] <==> exists row :: row in Schedule(rs) && row.registration == g
    ensures Schedule(rs) == [] <==> rs == []
  {
    var rows := Schedule(rs);
    forall g | g in rs[..|rows|]
      ensures exists row :: row in rows && row.registration == g
    {
      var i :| 0 <= i < |rows| && rs[..|rows|][i] == g;
      assert rows[i] in rows;
    }
  }
}
