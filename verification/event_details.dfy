/** `EventDetails`: an event's page with the registration check and registering. */
module EventDetails {
  import opened Wrappers
  import opened Domain
  import Checkout
  import EventsPage

  const RegisterPath := "/event-registrations/register"

  /** The registration query runs only for a signed-in user on an event page. */
  predicate RegistrationCheckEnabled(user: Option<User>, id: string) {
    user.Some? && id != ""
  }

  /** `registrationStatus?.isRegistered`: a disabled query has no data, a failed one reads as false. */
  function IsRegistered(user: Option<User>, id: string, outcome: CheckOutcome): (b: bool)
    ensures b <==> RegistrationCheckEnabled(user, id) && outcome == CheckAnswered(true)
  {
    RegistrationCheckEnabled(user, id) && outcome.CheckAnswered? && outcome.flag
  }

  /** `event.isPaid && event.eventFee > 0`; an absent fee compares false. */
  predicate NeedsPayment(e: Event) {
    e.isPaid && e.eventFee.Some? && e.eventFee.value > 0
  }

  /** The register request. */
  function RegisterRequest(id: string): (r: Request)
    ensures r.verb == Post && r.path == RegisterPath
    ensures r.body.Keys == {"eventId"} && r.body["eventId"] == JString(id)
  {
    Request(Post, RegisterPath, map["eventId" := JString(id)])
  }

  /** `handleRegister`. */
  function HandleRegister(e: Event, id: string): (g: Checkout.Gate)
    ensures g == Checkout.OpenPaymentModal <==> NeedsPayment(e)
    ensures g.SendRequest? ==> g.request == RegisterRequest(id)
  {
    if NeedsPayment(e) then Checkout.OpenPaymentModal else Checkout.SendRequest(RegisterRequest(id))
  }

  /** What the action area offers: the "registered" alert, or the button with its caption. */
  datatype RegisterArea = RegisteredAlert | RegisterButton(caption: string, disabled: bool)

  function RegisterAreaOf(e: Event, user: Option<User>, id: string, outcome: CheckOutcome, pending: bool): (a: RegisterArea)
    ensures a == RegisteredAlert <==> IsRegistered(user, id, outcome)
    ensures a.RegisterButton? ==> (a.disabled <==> pending)
    ensures a.RegisterButton? ==> (a.caption == "Pay & Register" <==> e.isPaid)
  {
    if IsRegistered(user, id, outcome) then RegisteredAlert
    else RegisterButton(if e.isPaid then "Pay & Register" else "Register Now", pending)
  }

  /** A paid event whose fee is missing or not positive says "Pay & Register" but registers
      without any payment. */
  lemma PaidCaptionWithoutPayment(e: Event, user: Option<User>, id: string, outcome: CheckOutcome)
    requires e.isPaid && (e.eventFee.None? || e.eventFee.value <= 0)
    requires !IsRegistered(user, id, outcome)
    ensures RegisterAreaOf(e, user, id, outcome, false) == RegisterButton("Pay & Register", false)
    ensures HandleRegister(e, id) == Checkout.SendRequest(RegisterRequest(id))
  {
  }

  /** The `paymentInfo` the modal receives; `clubId` is passed on as the event holds it. */
  function PaymentInfoOf(e: Event, user: Option<User>): (info: Checkout.PaymentInfo)
    ensures info.amount == e.eventFee && info.kind == "event"
    ensures info.eventId == Some(e.id) && info.clubId == Some(e.clubId)
  {
    var name := if user.Some? then user.value.displayName else None;
    Checkout.PaymentInfo(e.eventFee, "event", Some(e.clubId), Some(e.id), EmailOf(user), name)
  }

  /** For a paid event the modal opens exactly when the checkout form will request an intent. */
  lemma ModalMeansIntent(e: Event, user: Option<User>)
    requires e.isPaid
    ensures HandleRegister(e, e.id) == Checkout.OpenPaymentModal
        <==> Checkout.IntentRequest(PaymentInfoOf(e, user)).Some?
  {
  }

  /** The cache keys of the page. */
  function EventKey(id: string): QueryKey { ["event", id] }
  function RegistrationKey(id: string, email: string): QueryKey { ["eventRegistration", id, email] }

  /** The query keys a successful registration (free, or after payment) names. */
  function RegisterInvalidations(id: string): (keys: set<QueryKey>)
    ensures Refreshes(keys, EventKey(id))
  {
    assert Covers(["event", id], EventKey(id));
    {["event", id]}
  }

  /** The keys named after registering do not cover the registration check as a pattern.
      The call as written still invalidates it, along with every other cached query. */
  lemma RegisterSkipsCheck(id: string, email: string)
    ensures !Refreshes(RegisterInvalidations(id), RegistrationKey(id, email))
    ensures forall cached: set<QueryKey> :: RegistrationKey(id, email) in cached ==>
              RegistrationKey(id, email) in ArrayCallsInvalidate(RegisterInvalidations(id), cached)
  {
    var key := RegistrationKey(id, email);
    var event: QueryKey := ["event", id];
    assert key[..|event|][0] != event[0];
  }

  /** What `handlePaymentSuccess` does: close the modal and invalidate. It sends no request. */
  datatype AfterPayment = AfterPayment(modalOpen: bool, invalidations: set<QueryKey>)

  function PaymentSuccess(id: string): (a: AfterPayment)
    ensures !a.modalOpen
    ensures Refreshes(a.invalidations, EventKey(id))
    ensures a.invalidations == RegisterInvalidations(id)
  {
    assert Covers(["event", id], EventKey(id));
    AfterPayment(false, {["event", id]})
  }

  /** A paid registration never calls the register endpoint: the only request of the whole
      flow, as written or corrected, is the payment confirmation, which names the event and
      the type `event`; afterwards the keys named cover the registration check no more than
      after a free registration. */
  lemma PaidRegisterRecordsThroughPayment(e: Event, user: Option<User>, s: Checkout.FormState, w: Checkout.SubmitWorld, email: string)
    requires NeedsPayment(e)
    ensures HandleRegister(e, e.id) == Checkout.OpenPaymentModal
    ensures var r := Checkout.Submit(s, PaymentInfoOf(e, user), w);
      forall q :: q in r.requests ==>
        && q.path != RegisterPath
        && "type" in q.body && q.body["type"] == JString("event")
        && "eventId" in q.body && q.body["eventId"] == JString(e.id)
    ensures var r := Checkout.SubmitAsWritten(s, PaymentInfoOf(e, user), w);
      forall q :: q in r.requests ==>
        && q.path != RegisterPath
        && "type" in q.body && q.body["type"] == JString("event")
        && "eventId" in q.body && q.body["eventId"] == JString(e.id)
    ensures !Refreshes(PaymentSuccess(e.id).invalidations, RegistrationKey(e.id, email))
  {
    Checkout.ConfirmMatchesIntent(s, PaymentInfoOf(e, user), w);
    RegisterSkipsCheck(e.id, email);
  }

  /** The price line: "Free", or "$" followed by the fee as stored; a missing fee is printed
      as the text `undefined`, where the list page shows 0. */
  datatype DetailPrice = FreeEntry | FeeEntry(fee: Option<int>)

  function DetailPriceOf(e: Event): (p: DetailPrice)
    ensures p == FreeEntry <==> !e.isPaid
    ensures p.FeeEntry? ==> p.fee == e.eventFee
  {
    if e.isPaid then FeeEntry(e.eventFee) else FreeEntry
  }

  /** The details page and the list page agree on the price of every event with a fee; they
      differ exactly for a paid event without one. */
  lemma PriceAgreesWithList(e: Event)
    ensures !e.isPaid ==> DetailPriceOf(e) == FreeEntry && EventsPage.ListLabel(e) == EventsPage.Free
    ensures e.isPaid && e.eventFee.Some? ==>
              DetailPriceOf(e) == FeeEntry(Some(EventsPage.ListLabel(e).amount))
    ensures e.isPaid && e.eventFee.None? ==>
              DetailPriceOf(e) == FeeEntry(None) && EventsPage.ListLabel(e) == EventsPage.Priced(0)
  {
  }
}
