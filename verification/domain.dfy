/** The entities the client holds as transient copies of backend records. */
module Domain {
  import opened Wrappers

  /** A user's role as the backend reports it. Any string other than the three known
      names is kept as `OtherRole`, which no comparison in the client accepts. */
  datatype Role = Member | ClubManager | Admin | OtherRole(name: string)

  const MemberName := "member"
  const ClubManagerName := "clubManager"
  const AdminName := "admin"

  /** Reading the backend's `role` string. */
  function RoleFromName(name: string): (r: Role)
    ensures r == Admin <==> name == AdminName
    ensures r == ClubManager <==> name == ClubManagerName
    ensures r == Member <==> name == MemberName
  {
    if name == AdminName then Admin
    else if name == ClubManagerName then ClubManager
    else if name == MemberName then Member
    else OtherRole(name)
  }

  function RoleName(r: Role): string {
    match r
    case Member => MemberName
    case ClubManager => ClubManagerName
    case Admin => AdminName
    case OtherRole(n) => n
  }

  /** A role value as `RoleFromName` produces it: an `OtherRole` never carries a known name. */
  predicate CanonicalRole(r: Role) {
    r.OtherRole? ==> r.name !in {MemberName, ClubManagerName, AdminName}
  }

  /** Reading a role name back gives the same string, and every parsed role is canonical. */
  lemma RoleNameRoundTrip(name: string)
    ensures RoleName(RoleFromName(name)) == name
    ensures CanonicalRole(RoleFromName(name))
  {
  }

  /** Canonical roles survive printing and re-reading. */
  lemma RoleRoundTrip(r: Role)
    requires CanonicalRole(r)
    ensures RoleFromName(RoleName(r)) == r
  {
  }

  /** The signed-in identity. `role` is absent until the backend sync answers with one. */
  datatype User = User(
    uid: string,
    email: Option<string>,
    displayName: Option<string>,
    photoURL: Option<string>,
    role: Option<Role>)

  /** `user?.role === name` for a possibly absent user. */
  predicate HasRole(user: Option<User>, r: Role) {
    user.Some? && user.value.role == Some(r)
  }

  /** `user?.email`: absent when there is no user or the user has no email. */
  function EmailOf(user: Option<User>): Option<string> {
    if user.Some? then user.value.email else None
  }

  datatype ClubStatus = Pending | Approved | Rejected

  /** The status strings the backend stores and the status endpoint accepts. */
  function StatusName(st: ClubStatus): string {
    match st
    case Pending => "pending"
    case Approved => "approved"
    case Rejected => "rejected"
  }

  /** Reading a status string; anything else is not a status. */
  function StatusFromName(name: string): (r: Option<ClubStatus>)
    ensures r.Some? ==> StatusName(r.value) == name
    ensures r.None? ==> name !in {"pending", "approved", "rejected"}
  {
    if name == "pending" then Some(Pending)
    else if name == "approved" then Some(Approved)
    else if name == "rejected" then Some(Rejected)
    else None
  }

  /** Every status survives printing and re-reading. */
  lemma StatusRoundTrip(st: ClubStatus)
    ensures StatusFromName(StatusName(st)) == Some(st)
  {
  }

  datatype Club = Club(
    id: string,
    clubName: string,
    category: string,
    membershipFee: int,
    managerEmail: Option<string>,
    status: ClubStatus,
    membersCount: Option<int>)

  /** An event's `clubId`: a raw id, or a club object populated by the backend. */
  datatype ClubRef = ClubIdRef(id: string) | PopulatedClub(id: string)

  /** The club id a reference stands for (`typeof ref === 'object' ? ref._id : ref`). */
  function ClubRefId(ref: ClubRef): string {
    match ref
    case ClubIdRef(i) => i
    case PopulatedClub(i) => i
  }

  datatype Event = Event(
    id: string,
    title: string,
    clubId: ClubRef,
    isPaid: bool,
    eventFee: Option<int>,
    maxAttendees: Option<int>,
    bannerImage: Option<string>)

  /** A registration's `eventId`: a raw id, or an event object populated by the backend. */
  datatype EventRef = EventIdRef(id: string) | PopulatedEvent(id: string)

  datatype Registration = Registration(id: string, eventId: EventRef, status: string)

  datatype Membership = Membership(id: string, clubId: ClubRef, status: string)

  datatype Payment = Payment(amount: Option<int>)

  /** A TanStack Query key such as `['club', id]`. */
  type QueryKey = seq<string>

  /** A JSON value of a request body; an `undefined` field is left out of the body. A
      populated reference travels as an object carrying its `_id`. */
  datatype JsonValue = JString(text: string) | JNumber(number: int) | JObjectWithId(id: string)

  /** How a club reference is serialised: a raw id as a string, a populated club as an object. */
  function ClubRefJson(ref: ClubRef): JsonValue {
    match ref
    case ClubIdRef(i) => JString(i)
    case PopulatedClub(i) => JObjectWithId(i)
  }

  /** A query key read as a pattern: it covers every key that starts with it. This is how
      `invalidateQueries({ queryKey: pattern })` selects queries. */
  predicate Covers(pattern: QueryKey, key: QueryKey) {
    |pattern| <= |key| && key[..|pattern|] == pattern
  }

  /** Some pattern of an invalidation set covers the key. */
  predicate Refreshes(patterns: set<QueryKey>, key: QueryKey) {
    exists p :: p in patterns && Covers(p, key)
  }

  /** What the handlers' calls `invalidateQueries([...])` actually invalidate under TanStack
      Query v5, which the code uses: the array is taken as a filters object without a
      `queryKey`, so one such call invalidates every cached query, and no call none. */
  function ArrayCallsInvalidate(named: set<QueryKey>, cached: set<QueryKey>): (r: set<QueryKey>)
    ensures named != {} ==> r == cached
    ensures named == {} ==> r == {}
  {
    if named == {} then {} else cached
  }

  /** The calls invalidate at least what the named keys cover, read as patterns. */
  lemma ArrayCallsCoverNamed(named: set<QueryKey>, cached: set<QueryKey>, key: QueryKey)
    requires key in cached && Refreshes(named, key)
    ensures key in ArrayCallsInvalidate(named, cached)
  {
  }

  datatype Verb = Get | Post | Put | Delete

  /** An API request as the axios instances send it. */
  datatype Request = Request(verb: Verb, path: string, body: map<string, JsonValue>)

  /** The answer of a `check` endpoint (`isMember`, `isRegistered`); a failed request is
      caught and read as `false`. */
  datatype CheckOutcome = CheckAnswered(flag: bool) | CheckFailed

  /** The message a failed mutation shows: the backend's `message` when it is a
      non-empty string, else the fixed fallback (`error.response?.data?.message || fallback`). */
  function ErrorText(backendMessage: Option<string>, fallback: string): string {
    if backendMessage.Some? && backendMessage.value != "" then backendMessage.value else fallback
  }
}
