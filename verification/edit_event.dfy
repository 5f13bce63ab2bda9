/** `EditEvent`: editing an event through the shared event form, prefilled from the event. */
module EditEvent {
  import opened Wrappers
  import opened Domain
  import EventForm

  /** The stored event's fields the form shows. */
  datatype StoredEvent = StoredEvent(
    title: string,
    clubId: string,
    description: string,
    location: string,
    eventDate: string,
    isPaid: bool,
    eventFee: Option<int>,
    maxAttendees: Option<int>,
    bannerImage: Option<string>)

  /** `x || fallback` for an optional number: absent and 0 are falsy. */
  function TruthyOr(x: Option<int>, fallback: Option<int>): Option<int> {
    if x.Some? && x.value != 0 then x else fallback
  }

  /** The `useEffect` prefill: `isPaid.toString()`, `eventFee || 0`, `maxAttendees || ''`. */
  function Prefill(e: StoredEvent): (v: EventForm.FormValues)
    ensures EventForm.ParseIsPaid(v.isPaid) == e.isPaid
    ensures v.fee == TruthyOr(e.eventFee, Some(0))
    ensures v.maxAttendees.Some? <==> e.maxAttendees.Some? && e.maxAttendees.value != 0
  {
    EventForm.FormValues(e.title, e.clubId, e.description, e.eventDate, e.location,
                         EventForm.BoolText(e.isPaid), TruthyOr(e.eventFee, Some(0)), TruthyOr(e.maxAttendees, None))
  }

  /** `event?.bannerImage || ""`: the image kept when no new file is chosen. */
  function KeptImage(e: StoredEvent): (url: string)
    ensures e.bannerImage.Some? ==> url == e.bannerImage.value
    ensures e.bannerImage.None? ==> url == ""
  {
    if e.bannerImage.Some? then e.bannerImage.value else ""
  }

  /** `onSubmit`: a new file replaces the image, otherwise the stored one is kept. */
  function Submit(e: StoredEvent, v: EventForm.FormValues, upload: EventForm.Upload): (r: EventForm.SubmitOutcome)
    ensures r.Submitted? ==> r.payload.bannerImage == (if upload.Uploaded? then upload.url else KeptImage(e))
    ensures r.Submitted? <==> EventForm.RequiredFilled(v) && upload != EventForm.UploadFailed
  {
    EventForm.SubmitWith(v, upload, KeptImage(e))
  }

  /** Saving the prefilled form untouched writes the event back: the same texts, paid flag
      and image; a paid event keeps its fee (0 if it had none); a free event gets fee 0; the
      capacity survives unless it was 0. */
  lemma UntouchedEditPreservesEvent(e: StoredEvent)
    requires e.title != "" && e.clubId != "" && e.description != "" && e.location != "" && e.eventDate != ""
    ensures var r := Submit(e, Prefill(e), EventForm.NoFile);
      && r.Submitted?
      && r.payload.title == e.title && r.payload.clubId == e.clubId
      && r.payload.description == e.description && r.payload.location == e.location
      && r.payload.eventDate == e.eventDate
      && r.payload.isPaid == e.isPaid
      && r.payload.eventFee == (if e.isPaid then TruthyOr(e.eventFee, Some(0)) else Some(0))
      && r.payload.maxAttendees == TruthyOr(e.maxAttendees, None)
      && r.payload.bannerImage == KeptImage(e)
  {
    EventForm.IsPaidRoundTrip(e.isPaid);
  }

  /** The query keys a successful update names. */
  function UpdateInvalidations(id: string): set<QueryKey> {
    {["events"], ["myEventsManager"], ["event", id], ["managerStats"]}
  }

  /** The keys an update names cover the event's own page, the public list and the manager's table. */
  lemma UpdateRefreshesViews(id: string)
    ensures Refreshes(UpdateInvalidations(id), ["event", id])
    ensures Refreshes(UpdateInvalidations(id), ["events"])
    ensures Refreshes(UpdateInvalidations(id), ["myEventsManager"])
  {
    assert Covers(["event", id], ["event", id]);
    assert Covers(["events"], ["events"]);
    assert Covers(["myEventsManager"], ["myEventsManager"]);
  }
}
