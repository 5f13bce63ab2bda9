/** `ManagerDashboard`: the manager's own clubs and the events of those clubs. */
module ManagerDashboard {
  import opened Wrappers
  import opened Domain
  import Seqs
  import Router
  import AdminDashboard

  const StatsKey: QueryKey := ["managerStats"]
  const ClubsKey: QueryKey := ["myClubs"]
  const EventsKey: QueryKey := ["myEventsManager"]
  const PublicEventsKey: QueryKey := ["events"]

  /** `club.managerEmail === user?.email`: two absent emails compare equal. */
  predicate ManagedBy(club: Club, user: Option<User>) {
    club.managerEmail == EmailOf(user)
  }

  /** The clubs table: every club of `/clubs/admin/all` managed by the current user. */
  function OwnClubs(all: seq<Club>, user: Option<User>): (r: seq<Club>)
    ensures forall c :: c in r <==> c in all && ManagedBy(c, user)
    ensures Seqs.IsSubsequence(r, all)
  {
    Seqs.Filter(all, (c: Club) => ManagedBy(c, user))
  }

  /** A user without an email sees exactly the clubs that have no manager email. */
  lemma NoEmailMatchesUnassignedClubs(all: seq<Club>, user: Option<User>)
    requires EmailOf(user).None?
    ensures forall c :: c in OwnClubs(all, user) <==> c in all && c.managerEmail.None?
  {
  }

  /** The "haven't created any clubs yet" hint shows exactly when no listed club is the user's. */
  function ShowsNoClubsHint(all: seq<Club>, user: Option<User>): (b: bool)
    ensures b <==> forall c :: c in all ==> !ManagedBy(c, user)
  {
    var own := OwnClubs(all, user);
    assert own != [] ==> own[0] in own;
    own == []
  }

  /** `enabled: !!user?.email`. */
  predicate EventsQueryEnabled(user: Option<User>) {
    EmailOf(user).Some? && EmailOf(user).value != ""
  }

  /** The events the table filters: those fetched while the query is enabled; otherwise
      whatever the cache holds under `['myEventsManager']`, and none when nothing is cached. */
  function EventsData(user: Option<User>, fetched: seq<Event>, cached: Option<seq<Event>>): (r: seq<Event>)
    ensures EventsQueryEnabled(user) ==> r == fetched
    ensures !EventsQueryEnabled(user) && cached.None? ==> r == []
    ensures !EventsQueryEnabled(user) && cached.Some? ==> r == cached.value
  {
    if EventsQueryEnabled(user) then fetched else if cached.Some? then cached.value else []
  }

  /** The ids the events filter looks for. */
  function ClubIds(clubs: seq<Club>): (ids: seq<string>)
    ensures |ids| == |clubs|
    ensures forall i :: 0 <= i < |clubs| ==> ids[i] == clubs[i].id
  {
    seq(|clubs|, i requires 0 <= i < |clubs| => clubs[i].id)
  }

  /** `myClubIds.includes(e.clubId)`: a raw id is compared with the ids, while a populated
      club object never equals a string. */
  predicate RawIncludes(ids: seq<string>, ref: ClubRef) {
    ref.ClubIdRef? && ref.id in ids
  }

  /** The events table as written: events whose raw `clubId` is one of the own clubs' ids. */
  function ManagedEventsAsWritten(clubs: seq<Club>, events: seq<Event>): (r: seq<Event>)
    ensures forall e :: e in r <==> e in events && RawIncludes(ClubIds(clubs), e.clubId)
  {
    Seqs.Filter(events, (e: Event) => RawIncludes(ClubIds(clubs), e.clubId))
  }

  /** Without an email and with nothing cached the events query never runs, so the table
      lists no event, as written or corrected, whatever the backend holds. */
  lemma NoEmailNoEvents(clubs: seq<Club>, user: Option<User>, fetched: seq<Event>)
    requires EmailOf(user).None? || EmailOf(user) == Some("")
    ensures ManagedEventsAsWritten(clubs, EventsData(user, fetched, None)) == []
    ensures ManagedEvents(clubs, EventsData(user, fetched, None)) == []
  {
  }

  /** The events table with the club reference normalised, as the club details page does. */
  function ManagedEvents(clubs: seq<Club>, events: seq<Event>): (r: seq<Event>)
    ensures forall e :: e in r <==> e in events && ClubRefId(e.clubId) in ClubIds(clubs)
    ensures Seqs.IsSubsequence(r, events)
  {
    Seqs.Filter(events, (e: Event) => ClubRefId(e.clubId) in ClubIds(clubs))
  }

  /** An event belongs to a club of the list when its reference names that club's id. */
  predicate BelongsTo(e: Event, clubs: seq<Club>) {
    exists c :: c in clubs && c.id == ClubRefId(e.clubId)
  }

  /** The corrected table lists exactly the events of the user's clubs, however the backend
      represents their club reference. */
  lemma ManagedEventsExact(clubs: seq<Club>, events: seq<Event>)
    ensures forall e :: e in ManagedEvents(clubs, events) <==> e in events && BelongsTo(e, clubs)
  {
    var ids := ClubIds(clubs);
    forall e | e in events
      ensures ClubRefId(e.clubId) in ids <==> BelongsTo(e, clubs)
    {
      if ClubRefId(e.clubId) in ids {
        var i :| 0 <= i < |ids| && ids[i] == ClubRefId(e.clubId);
        assert clubs[i] in clubs;
      }
      if BelongsTo(e, clubs) {
        var c :| c in clubs && c.id == ClubRefId(e.clubId);
        var i :| 0 <= i < |clubs| && clubs[i] == c;
        assert ids[i] == c.id;
      }
    }
  }

  /** Populating or unpopulating an event's club reference does not change whether the
      corrected table lists it. */
  lemma ManagedEventsIgnoreRepresentation(clubs: seq<Club>, e: Event, ref: ClubRef)
    requires ClubRefId(ref) == ClubRefId(e.clubId)
    ensures (e in ManagedEvents(clubs, [e])) <==> (e.(clubId := ref) in ManagedEvents(clubs, [e.(clubId := ref)]))
  {
  }

  /** The table as written lists a subset of the corrected one: nothing unrelated slips in. */
  lemma AsWrittenWithinCorrected(clubs: seq<Club>, events: seq<Event>)
    ensures forall e :: e in ManagedEventsAsWritten(clubs, events) ==> e in ManagedEvents(clubs, events)
  {
  }

  /** When the backend populates `clubId`, the table as written drops an event of the
      manager's own club, which the corrected table keeps. */
  lemma PopulatedEventDropped(club: Club, e: Event)
    requires e.clubId == PopulatedClub(club.id)
    ensures ManagedEventsAsWritten([club], [e]) == []
    ensures ManagedEvents([club], [e]) == [e]
  {
    assert ClubIds([club]) == [club.id];
    assert e in ManagedEvents([club], [e]);
  }

  /** The links on a club row: its members page and its edit page. */
  function ClubRowLinks(club: Club): seq<string> {
    [Router.SubpageLink("manager", "club", club.id, "members"), Router.DetailLink("manager", "edit-club", club.id)]
  }

  /** The links on an event row: its registrations and its edit page. */
  function EventRowLinks(e: Event): seq<string> {
    [Router.SubpageLink("manager", "event", e.id, "registrations"), Router.DetailLink("manager", "edit-event", e.id)]
  }

  /** Every row link opens the page its caption names, for ids that are single path segments. */
  lemma RowLinksResolve(club: Club, e: Event)
    requires club.id != "" && '/' !in club.id
    requires e.id != "" && '/' !in e.id
    ensures Router.ClubMembers in Router.Resolve(ClubRowLinks(club)[0])
    ensures Router.EditClub in Router.Resolve(ClubRowLinks(club)[1])
    ensures Router.EventRegistrations in Router.Resolve(EventRowLinks(e)[0])
    ensures Router.EditEvent in Router.Resolve(EventRowLinks(e)[1])
  {
    Router.ViewMembersLinksResolve(club.id);
    Router.EditClubLinkResolves(club.id);
    Router.RegistrationsLinkResolves(e.id);
    Router.EditEventLinkResolves(e.id);
  }

  /** `handleDeleteEvent`: the request sent once the dialog is answered. */
  function DeleteEventRequest(eventId: string, confirmed: bool): (r: Option<Request>)
    ensures r.Some? <==> confirmed
    ensures r.Some? ==> r.value.verb == Delete && r.value.body == map[]
  {
    if confirmed then Some(Request(Delete, "/events/" + eventId, map[])) else None
  }

  /** A manager's deletion sends the same request as an admin's deletion of the same event,
      under the same confirmation rule. */
  lemma DeleteMatchesAdmin(eventId: string, confirmed: bool)
    ensures DeleteEventRequest(eventId, confirmed) == AdminDashboard.Dispatch(AdminDashboard.DeleteEvent(eventId), confirmed)
  {
  }

  /** The query keys a successful deletion names. */
  const DeleteInvalidations: set<QueryKey> := {EventsKey, PublicEventsKey, StatsKey}

  /** A deletion names this table, the public events list and the stats, but not the clubs
      list, which an event deletion does not change. The bare-array calls as written still
      invalidate a cached clubs list, with every other cached query. */
  lemma DeleteRefreshesLists()
    ensures EventsKey in DeleteInvalidations && PublicEventsKey in DeleteInvalidations
    ensures ClubsKey !in DeleteInvalidations
    ensures forall cached: set<QueryKey> :: ClubsKey in cached ==> ClubsKey in ArrayCallsInvalidate(DeleteInvalidations, cached)
  {
  }
}
