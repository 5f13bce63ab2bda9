/** `Events`: the public event list with the "Registered" badge and the register label. */
module EventsPage {
  import opened Wrappers
  import opened Domain

  /** `reg.eventId?._id || reg.eventId`: the id of a populated event, or the raw id. A
      populated event with an empty `_id` falls back to the object itself, which matches no id. */
  function RegisteredKey(ref: EventRef): (k: Option<string>)
    ensures ref.EventIdRef? ==> k == Some(ref.id)
    ensures ref.PopulatedEvent? ==> (k == Some(ref.id) <==> ref.id != "")
  {
    match ref
    case EventIdRef(i) => Some(i)
    case PopulatedEvent(i) => if i != "" then Some(i) else None
  }

  /** The registrations the page reads. The query runs only for a signed-in user; a disabled
      query still hands back whatever the cache holds under `['myEventRegistrations']`, a key
      that does not name the user, and the empty list only when nothing is cached. */
  function VisibleRegistrations(user: Option<User>, fetched: seq<Registration>, cached: Option<seq<Registration>>): (r: seq<Registration>)
    ensures user.Some? ==> r == fetched
    ensures user.None? && cached.None? ==> r == []
    ensures user.None? && cached.Some? ==> r == cached.value
  {
    if user.Some? then fetched else if cached.Some? then cached.value else []
  }

  /** `new Set(myRegistrations.map(...))`. */
  function RegisteredIds(regs: seq<Registration>): (ids: set<Option<string>>)
    ensures forall k :: k in ids <==> exists i :: 0 <= i < |regs| && RegisteredKey(regs[i].eventId) == k
  {
    set i | 0 <= i < |regs| :: RegisteredKey(regs[i].eventId)
  }

  /** `registeredEventIds.has(event._id)`. */
  predicate ShowsBadge(e: Event, regs: seq<Registration>) {
    Some(e.id) in RegisteredIds(regs)
  }

  /** A registration refers to an event when its reference names the event's id. */
  predicate RefersTo(reg: Registration, e: Event) {
    match reg.eventId
    case EventIdRef(i) => i == e.id
    case PopulatedEvent(i) => i == e.id
  }

  /** An event with a non-empty id shows the badge exactly when some registration refers to
      it, whether the backend populated that registration's event or not. */
  lemma BadgeIffRegistered(e: Event, regs: seq<Registration>)
    requires e.id != ""
    ensures ShowsBadge(e, regs) <==> exists i :: 0 <= i < |regs| && RefersTo(regs[i], e)
  {
    if ShowsBadge(e, regs) {
      var i :| 0 <= i < |regs| && RegisteredKey(regs[i].eventId) == Some(e.id);
      assert RefersTo(regs[i], e);
    }
    if exists i :: 0 <= i < |regs| && RefersTo(regs[i], e) {
      var i :| 0 <= i < |regs| && RefersTo(regs[i], e);
      assert RegisteredKey(regs[i].eventId) == Some(e.id);
    }
  }

  /** A signed-out visitor with nothing cached sees no badge at all. */
  lemma SignedOutNoBadges(e: Event, fetched: seq<Registration>)
    ensures !ShowsBadge(e, VisibleRegistrations(None, fetched, None))
  {
  }

  /** After signing out in the same session, the previous user's registrations are still in
      the cache, so every event they registered for keeps its badge. */
  lemma SignedOutKeepsCachedBadges(e: Event, fetched: seq<Registration>, previous: seq<Registration>)
    ensures ShowsBadge(e, VisibleRegistrations(None, fetched, Some(previous))) <==> ShowsBadge(e, previous)
  {
  }

  /** The register link's price: `isPaid ? $(eventFee || 0) : 'Free'`. */
  datatype PriceLabel = Free | Priced(amount: int)

  function ListLabel(e: Event): (l: PriceLabel)
    ensures l == Free <==> !e.isPaid
    ensures l.Priced? ==> l.amount == e.eventFee.GetOr(0)
  {
    if e.isPaid then Priced(e.eventFee.GetOr(0)) else Free
  }

  /** What the card's action area shows next to "View Details". */
  datatype CardAction = RegisteredBadge | RegisterLink(price: PriceLabel)

  function CardActionOf(e: Event, regs: seq<Registration>): (a: CardAction)
    ensures a == RegisteredBadge <==> ShowsBadge(e, regs)
    ensures a.RegisterLink? ==> a.price == ListLabel(e)
  {
    if ShowsBadge(e, regs) then RegisteredBadge else RegisterLink(ListLabel(e))
  }
}
