/** `ClubDetails`: a club's page with its events, the membership check and joining. */
module ClubDetails {
  import opened Wrappers
  import opened Domain
  import Seqs
  import Checkout
  import ManagerDashboard

  const JoinPath := "/memberships/join"

  /** `eventClubId === id || event.clubId === id`, with `eventClubId` the normalised reference. */
  predicate OfClub(e: Event, id: string) {
    ClubRefId(e.clubId) == id || e.clubId == ClubIdRef(id)
  }

  /** The events section: the events whose (normalised) club reference is this club. */
  function ClubEvents(id: string, events: seq<Event>): (r: seq<Event>)
    ensures forall e :: e in r <==> e in events && ClubRefId(e.clubId) == id
    ensures Seqs.IsSubsequence(r, events)
  {
    Seqs.Filter(events, (e: Event) => OfClub(e, id))
  }

  /** The events query runs only with an id in the URL. */
  predicate ClubEventsEnabled(id: string) {
    id != ""
  }

  /** The events the page lists: the club's events from the fetched list while the query is
      enabled; otherwise whatever the cache holds under `['clubEvents', id]`, and none when
      nothing is cached. */
  function ShownClubEvents(id: string, fetched: seq<Event>, cached: Option<seq<Event>>): (r: seq<Event>)
    ensures ClubEventsEnabled(id) ==> r == ClubEvents(id, fetched)
    ensures !ClubEventsEnabled(id) && cached.None? ==> r == []
    ensures !ClubEventsEnabled(id) && cached.Some? ==> r == cached.value
  {
    if ClubEventsEnabled(id) then ClubEvents(id, fetched) else if cached.Some? then cached.value else []
  }

  /** On a club's page (the route's `:id` is never empty) every listed event belongs to the
      club, and every fetched event of the club is listed. */
  lemma ShownEventsBelongToClub(id: string, fetched: seq<Event>, cached: Option<seq<Event>>)
    requires id != ""
    ensures forall e :: e in ShownClubEvents(id, fetched, cached) <==> e in fetched && ClubRefId(e.clubId) == id
  {
  }

  /** This page and the corrected manager table agree on which events belong to a club, in
      the same order. */
  lemma ClubEventsMatchManager(club: Club, events: seq<Event>)
    ensures ClubEvents(club.id, events) == ManagerDashboard.ManagedEvents([club], events)
  {
    assert ManagerDashboard.ClubIds([club]) == [club.id];
    Seqs.FilterAgree(events, (e: Event) => OfClub(e, club.id),
                     (e: Event) => ClubRefId(e.clubId) in ManagerDashboard.ClubIds([club]));
  }

  /** The membership query runs only for a signed-in user on a club page. */
  predicate MembershipCheckEnabled(user: Option<User>, id: string) {
    user.Some? && id != ""
  }

  /** `membershipStatus?.isMember`: a disabled query has no data, a failed one reads as false. */
  function IsMember(user: Option<User>, id: string, outcome: CheckOutcome): (b: bool)
    ensures b <==> MembershipCheckEnabled(user, id) && outcome == CheckAnswered(true)
  {
    MembershipCheckEnabled(user, id) && outcome.CheckAnswered? && outcome.flag
  }

  /** What the card offers: the "Already a Member" alert or the join button. */
  datatype JoinArea = MemberAlert | JoinButton(disabled: bool)

  function JoinAreaOf(user: Option<User>, id: string, outcome: CheckOutcome, joinPending: bool): (a: JoinArea)
    ensures a == MemberAlert <==> IsMember(user, id, outcome)
    ensures a.JoinButton? ==> (a.disabled <==> joinPending)
  {
    if IsMember(user, id, outcome) then MemberAlert else JoinButton(joinPending)
  }

  /** A visitor who is not signed in always sees the join button, and so does a member whose
      check failed. */
  lemma JoinButtonWithoutAnswer(user: Option<User>, id: string, outcome: CheckOutcome, pending: bool)
    requires user.None? || outcome == CheckFailed
    ensures JoinAreaOf(user, id, outcome, pending).JoinButton?
  {
  }

  /** The join request. */
  function JoinRequest(id: string): (r: Request)
    ensures r.verb == Post && r.path == JoinPath
    ensures r.body.Keys == {"clubId"} && r.body["clubId"] == JString(id)
  {
    Request(Post, JoinPath, map["clubId" := JString(id)])
  }

  /** `handleJoin`: a club with a fee opens the payment modal, any other club is joined at once. */
  function HandleJoin(club: Club, id: string): (g: Checkout.Gate)
    ensures g == Checkout.OpenPaymentModal <==> club.membershipFee > 0
    ensures g.SendRequest? ==> g.request == JoinRequest(id)
  {
    if club.membershipFee > 0 then Checkout.OpenPaymentModal else Checkout.SendRequest(JoinRequest(id))
  }

  /** The `paymentInfo` the modal receives. */
  function PaymentInfoOf(club: Club, user: Option<User>): (info: Checkout.PaymentInfo)
    ensures info.amount == Some(club.membershipFee) && info.kind == "membership"
    ensures info.clubId == Some(ClubIdRef(club.id)) && info.eventId.None?
  {
    var name := if user.Some? then user.value.displayName else None;
    Checkout.PaymentInfo(Some(club.membershipFee), "membership", Some(ClubIdRef(club.id)), None, EmailOf(user), name)
  }

  /** The modal opens exactly for the clubs for which the checkout form requests an intent. */
  lemma ModalMeansIntent(club: Club, user: Option<User>)
    ensures HandleJoin(club, club.id) == Checkout.OpenPaymentModal
        <==> Checkout.IntentRequest(PaymentInfoOf(club, user)).Some?
  {
  }

  /** The fee line: "Free" for a fee that is not positive. */
  datatype FeeLabel = Free | Priced(amount: int)

  function FeeLabelOf(club: Club): (l: FeeLabel)
    ensures l == Free <==> club.membershipFee <= 0
    ensures l.Priced? ==> l.amount == club.membershipFee
  {
    if club.membershipFee > 0 then Priced(club.membershipFee) else Free
  }

  /** The label and the join gate agree: a priced club asks for payment, a free one does not. */
  lemma FeeLabelMatchesGate(club: Club, id: string)
    ensures FeeLabelOf(club).Priced? <==> HandleJoin(club, id) == Checkout.OpenPaymentModal
  {
  }

  /** The cache keys of the page. */
  function ClubKey(id: string): QueryKey { ["club", id] }
  function MembershipKey(id: string, email: string): QueryKey { ["membership", id, email] }

  /** The query keys a successful free join names. */
  function JoinInvalidations(id: string): set<QueryKey> {
    {["club", id], ["membership", id]}
  }

  /** The keys a free join names cover the club and the membership check of every user. */
  lemma JoinRefreshesCheck(id: string, email: string)
    ensures Refreshes(JoinInvalidations(id), ClubKey(id))
    ensures Refreshes(JoinInvalidations(id), MembershipKey(id, email))
  {
    assert Covers(["club", id], ClubKey(id));
    assert Covers(["membership", id], MembershipKey(id, email));
  }

  /** What `handlePaymentSuccess` does: close the modal and invalidate. It sends no request. */
  datatype AfterPayment = AfterPayment(modalOpen: bool, invalidations: set<QueryKey>)

  function PaymentSuccess(id: string): (a: AfterPayment)
    ensures !a.modalOpen
    ensures Refreshes(a.invalidations, ClubKey(id))
  {
    assert Covers(["club", id], ClubKey(id));
    AfterPayment(false, {["club", id]})
  }

  /** Unlike a free join, the keys named after a paid join do not cover the membership
      check as a pattern. The calls as written still invalidate it, along with every other
      cached query. */
  lemma PaymentSuccessSkipsCheck(id: string, email: string)
    ensures !Refreshes(PaymentSuccess(id).invalidations, MembershipKey(id, email))
    ensures forall cached: set<QueryKey> :: MembershipKey(id, email) in cached ==>
              MembershipKey(id, email) in ArrayCallsInvalidate(PaymentSuccess(id).invalidations, cached)
    ensures Refreshes(JoinInvalidations(id), MembershipKey(id, email))
  {
    var key := MembershipKey(id, email);
    var club: QueryKey := ["club", id];
    assert key[..|club|][0] != club[0];
    JoinRefreshesCheck(id, email);
  }

  /** A paid join never calls the join endpoint: the only request of the whole flow, as
      written or corrected, is the payment confirmation, which names the club and the type `membership`. */
  lemma PaidJoinRecordsThroughPayment(club: Club, user: Option<User>, s: Checkout.FormState, w: Checkout.SubmitWorld)
    requires club.membershipFee > 0
    ensures HandleJoin(club, club.id) == Checkout.OpenPaymentModal
    ensures var r := Checkout.Submit(s, PaymentInfoOf(club, user), w);
      forall q :: q in r.requests ==>
        && q.path != JoinPath
        && "type" in q.body && q.body["type"] == JString("membership")
        && "clubId" in q.body && q.body["clubId"] == JString(club.id)
    ensures var r := Checkout.SubmitAsWritten(s, PaymentInfoOf(club, user), w);
      forall q :: q in r.requests ==>
        && q.path != JoinPath
        && "type" in q.body && q.body["type"] == JString("membership")
        && "clubId" in q.body && q.body["clubId"] == JString(club.id)
  {
    Checkout.ConfirmMatchesIntent(s, PaymentInfoOf(club, user), w);
  }
}
