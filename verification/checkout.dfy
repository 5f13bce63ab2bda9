/** `CheckoutForm`: the payment-intent request and the submit handler of the card form.
    Stripe and the backend are not modelled; their answers are parameters. */
module Checkout {
  import opened Wrappers
  import opened Domain

  /** The `paymentInfo` prop a details page hands to the payment modal. */
  datatype PaymentInfo = PaymentInfo(
    amount: Option<int>,
    kind: string,
    clubId: Option<ClubRef>,
    eventId: Option<string>,
    userEmail: Option<string>,
    userName: Option<string>)

  /** `paymentInfo.amount > 0`; an absent amount compares false. */
  predicate HasPositiveAmount(info: PaymentInfo) {
    info.amount.Some? && info.amount.value > 0
  }

  /** The fields shared by the intent request and the confirmation; `undefined` fields drop out. */
  function PaymentFields(info: PaymentInfo): (body: map<string, JsonValue>)
    ensures "type" in body && body["type"] == JString(info.kind)
    ensures "amount" in body <==> info.amount.Some?
    ensures "clubId" in body <==> info.clubId.Some?
    ensures "eventId" in body <==> info.eventId.Some?
    ensures body.Keys <= {"amount", "type", "clubId", "eventId"}
    ensures info.amount.Some? ==> body["amount"] == JNumber(info.amount.value)
    ensures info.clubId.Some? ==> body["clubId"] == ClubRefJson(info.clubId.value)
    ensures info.eventId.Some? ==> body["eventId"] == JString(info.eventId.value)
  {
    map["type" := JString(info.kind)]
      + (if info.amount.Some? then map["amount" := JNumber(info.amount.value)] else map[])
      + (if info.clubId.Some? then map["clubId" := ClubRefJson(info.clubId.value)] else map[])
      + (if info.eventId.Some? then map["eventId" := JString(info.eventId.value)] else map[])
  }

  /** The effect on mount: a `create-intent` request only for a positive amount. */
  function IntentRequest(info: PaymentInfo): (r: Option<Request>)
    ensures r.Some? <==> HasPositiveAmount(info)
    ensures r.Some? ==> r.value.verb == Post && r.value.path == "/payments/create-intent"
    ensures r.Some? ==> "amount" in r.value.body && r.value.body["amount"] == JNumber(info.amount.value)
  {
    if HasPositiveAmount(info) then Some(Request(Post, "/payments/create-intent", PaymentFields(info)))
    else None
  }

  /** What a details page's join or register button does: open the payment modal, or send
      the request directly. */
  datatype Gate = OpenPaymentModal | SendRequest(request: Request)

  /** The form's state. */
  datatype FormState = FormState(cardError: string, clientSecret: string, processing: bool)

  const InitialForm := FormState("", "", false)

  /** The intent answered with a client secret. */
  function IntentAnswered(s: FormState, secret: string): (r: FormState)
    ensures r.clientSecret == secret && r.processing == s.processing && r.cardError == s.cardError
  {
    s.(clientSecret := secret)
  }

  /** The "Pay" button: disabled without Stripe, without a client secret, or while processing. */
  predicate PayEnabled(stripeLoaded: bool, s: FormState) {
    stripeLoaded && s.clientSecret != "" && !s.processing
  }

  /** The "Cancel" button is disabled while processing. */
  predicate CancelEnabled(s: FormState) {
    !s.processing
  }

  /** Without a positive amount no intent is requested, so no client secret ever arrives and
      the form can never be submitted. */
  lemma NoAmountNoPayment(info: PaymentInfo, stripeLoaded: bool)
    requires !HasPositiveAmount(info)
    ensures IntentRequest(info).None?
    ensures !PayEnabled(stripeLoaded, InitialForm)
  {
  }

  /** What `confirmCardPayment` resolves with. */
  datatype ConfirmResult = ConfirmFailed(message: string) | IntentResult(intentId: string, status: string)

  /** What the backend's `/payments/confirm` does: answers with or without data, or fails. */
  datatype RecordResult = Recorded(hasData: bool) | RecordFailed

  /** The answers of the outside world during one submission. */
  datatype SubmitWorld = SubmitWorld(
    stripeReady: bool,
    cardPresent: bool,
    methodError: Option<string>,
    confirm: ConfirmResult,
    record: RecordResult)

  /** A submission's result: the new state, the backend requests sent, and the id passed to
      `onSuccess` if it was called. */
  datatype SubmitResult = SubmitResult(state: FormState, requests: seq<Request>, succeeded: Option<string>)

  const RecordFailedMessage := "Payment succeeded but failed to record. Please contact support."

  /** The submission got past the Stripe and card checks. */
  predicate Reached(w: SubmitWorld) {
    w.stripeReady && w.cardPresent
  }

  /** Stripe confirmed the card payment with status `succeeded`. */
  predicate Confirmed(w: SubmitWorld) {
    w.confirm.IntentResult? && w.confirm.status == "succeeded"
  }

  /** The card error shown after the payment-method step: the method's error message, or
      cleared when the method was created. */
  function MethodErrorText(w: SubmitWorld): string {
    if w.methodError.Some? then w.methodError.value else ""
  }

  /** The confirmation body: the payment fields plus the intent id. */
  function ConfirmBody(info: PaymentInfo, intentId: string): (body: map<string, JsonValue>)
    ensures "paymentIntentId" in body && body["paymentIntentId"] == JString(intentId)
    ensures forall k :: k in PaymentFields(info) ==> k in body && body[k] == PaymentFields(info)[k]
  {
    PaymentFields(info)["paymentIntentId" := JString(intentId)]
  }

  /** `handleSubmit` as written. A payment-method error is shown but does not stop the
      confirmation; an intent that resolves with a status other than `succeeded` leaves
      `processing` raised. */
  function SubmitAsWritten(s: FormState, info: PaymentInfo, w: SubmitWorld): (r: SubmitResult)
    ensures !w.stripeReady || !w.cardPresent ==> r == SubmitResult(s, [], None)
    ensures r.succeeded.Some? <==>
      w.stripeReady && w.cardPresent && w.confirm.IntentResult? && w.confirm.status == "succeeded"
      && w.record == Recorded(true)
    ensures r.succeeded.Some? ==> r.succeeded.value == w.confirm.intentId
    ensures r.state.clientSecret == s.clientSecret
    ensures Reached(w) && w.confirm.ConfirmFailed? ==>
      r.state.cardError == w.confirm.message && !r.state.processing && r.requests == []
    ensures Reached(w) && Confirmed(w) ==>
      r.requests == [Request(Post, "/payments/confirm", ConfirmBody(info, w.confirm.intentId))]
    ensures Reached(w) && Confirmed(w) && w.record == RecordFailed ==>
      r.state.cardError == RecordFailedMessage && !r.state.processing && r.succeeded.None?
    ensures Reached(w) && Confirmed(w) && w.record.Recorded? ==>
      r.state.cardError == MethodErrorText(w) && !r.state.processing
    ensures Reached(w) && w.confirm.IntentResult? && !Confirmed(w) ==>
      r.state.cardError == MethodErrorText(w) && r.state.processing && r.requests == []
  {
    if !w.stripeReady || !w.cardPresent then SubmitResult(s, [], None)
    else
      var afterMethod := s.(cardError := if w.methodError.Some? then w.methodError.value else "");
      var raised := afterMethod.(processing := true);
      match w.confirm
      case ConfirmFailed(message) =>
        SubmitResult(raised.(cardError := message, processing := false), [], None)
      case IntentResult(id, status) =>
        if status == "succeeded" then
          var request := Request(Post, "/payments/confirm", ConfirmBody(info, id));
          match w.record
          case Recorded(hasData) =>
            SubmitResult(raised.(processing := false), [request], if hasData then Some(id) else None)
          case RecordFailed =>
            SubmitResult(raised.(cardError := RecordFailedMessage, processing := false), [request], None)
        else
          SubmitResult(raised, [], None)
  }

  /** An intent still `processing` (or needing another action) leaves the form with both
      buttons disabled. */
  lemma UnfinishedIntentLocksForm(s: FormState, info: PaymentInfo, id: string, stripeLoaded: bool)
    ensures var w := SubmitWorld(true, true, None, IntentResult(id, "processing"), RecordFailed);
      var r := SubmitAsWritten(s, info, w);
      && r.state.processing
      && !PayEnabled(stripeLoaded, r.state)
      && !CancelEnabled(r.state)
      && r.succeeded.None?
  {
  }

  /** `handleSubmit` with `processing` lowered on every path that reached the confirmation. */
  function Submit(s: FormState, info: PaymentInfo, w: SubmitWorld): (r: SubmitResult)
    ensures !w.stripeReady || !w.cardPresent ==> r == SubmitResult(s, [], None)
    ensures w.stripeReady && w.cardPresent ==> !r.state.processing
    ensures r.succeeded.Some? <==>
      w.stripeReady && w.cardPresent && w.confirm.IntentResult? && w.confirm.status == "succeeded"
      && w.record == Recorded(true)
    ensures r.succeeded.Some? ==> r.succeeded.value == w.confirm.intentId
    ensures |r.requests| <= 1
    ensures |r.requests| == 1 <==>
      w.stripeReady && w.cardPresent && w.confirm.IntentResult? && w.confirm.status == "succeeded"
    ensures r.state.clientSecret == s.clientSecret
    ensures Reached(w) && w.confirm.ConfirmFailed? ==>
      r.state.cardError == w.confirm.message && r.requests == []
    ensures Reached(w) && Confirmed(w) ==>
      r.requests == [Request(Post, "/payments/confirm", ConfirmBody(info, w.confirm.intentId))]
    ensures Reached(w) && Confirmed(w) && w.record == RecordFailed ==>
      r.state.cardError == RecordFailedMessage && r.succeeded.None?
    ensures Reached(w) && !(Confirmed(w) && w.record == RecordFailed) && !w.confirm.ConfirmFailed? ==>
      r.state.cardError == MethodErrorText(w)
  {
    var written := SubmitAsWritten(s, info, w);
    if w.stripeReady && w.cardPresent && w.confirm.IntentResult? && w.confirm.status != "succeeded" then
      SubmitResult(written.state.(processing := false), [], None)
    else written
  }

  /** Where the two definitions agree: on every world whose intent is not left unfinished. */
  lemma SubmitAgreesWhenFinished(s: FormState, info: PaymentInfo, w: SubmitWorld)
    requires !(w.confirm.IntentResult? && w.confirm.status != "succeeded")
    ensures Submit(s, info, w) == SubmitAsWritten(s, info, w)
  {
  }

  /** The only request a submission sends is the confirmation, and it carries the same
      amount, type, club and event as the intent request, plus the intent id. */
  lemma ConfirmMatchesIntent(s: FormState, info: PaymentInfo, w: SubmitWorld)
    requires HasPositiveAmount(info)
    ensures var r := Submit(s, info, w);
      forall q :: q in r.requests ==>
        && q.verb == Post && q.path == "/payments/confirm"
        && w.confirm.IntentResult?
        && "paymentIntentId" in q.body && q.body["paymentIntentId"] == JString(w.confirm.intentId)
        && forall k :: k in IntentRequest(info).value.body ==> k in q.body && q.body[k] == IntentRequest(info).value.body[k]
  {
  }

  /** After any submission that got past the Stripe and card checks, both buttons are
      enabled again. */
  lemma CompletedSubmissionReenables(s: FormState, info: PaymentInfo, w: SubmitWorld)
    requires w.stripeReady && w.cardPresent && s.clientSecret != ""
    ensures PayEnabled(true, Submit(s, info, w).state)
    ensures CancelEnabled(Submit(s, info, w).state)
  {
  }
}
