/** `AddEvent`: creating an event through the shared event form. */
module AddEvent {
  import opened Wrappers
  import opened Domain
  import EventForm
  import ManagerDashboard

  /** `onSubmit`: a new event has no image unless one is uploaded. */
  function Submit(v: EventForm.FormValues, upload: EventForm.Upload): (r: EventForm.SubmitOutcome)
    ensures r.Submitted? ==> r.payload.bannerImage == (if upload.Uploaded? then upload.url else "")
    ensures r.Submitted? <==> EventForm.RequiredFilled(v) && upload != EventForm.UploadFailed
  {
    EventForm.SubmitWith(v, upload, "")
  }

  /** The query keys a successful creation names. */
  const CreateInvalidations: set<QueryKey> := {["events"], ["managerStats"]}

  /** The form never sends a capacity: the field is not rendered, so its value is absent. */
  lemma NoCapacitySent(v: EventForm.FormValues, upload: EventForm.Upload)
    requires v.maxAttendees.None?
    ensures Submit(v, upload).Submitted? ==> Submit(v, upload).payload.maxAttendees.None?
  {
  }

  /** A paid event is created with the fee the field parsed to, a free one with fee 0. */
  lemma CreatedFee(v: EventForm.FormValues, url: string)
    requires EventForm.RequiredFilled(v)
    ensures var r := Submit(v, EventForm.Uploaded(url));
      && r.Submitted?
      && r.payload.bannerImage == url
      && r.payload.eventFee == (if v.isPaid == "true" then v.fee else Some(0))
  {
  }

  /** The keys a creation names cover the public event list and the manager's statistics,
      but not the manager's event table, which an update does name. The calls as written
      invalidate the table anyway, with every other cached query. */
  lemma CreateRefreshesPublicList()
    ensures Refreshes(CreateInvalidations, ManagerDashboard.PublicEventsKey)
    ensures !Refreshes(CreateInvalidations, ManagerDashboard.EventsKey)
    ensures forall cached: set<QueryKey> :: ManagerDashboard.EventsKey in cached ==>
              ManagerDashboard.EventsKey in ArrayCallsInvalidate(CreateInvalidations, cached)
  {
    assert Covers(["events"], ManagerDashboard.PublicEventsKey);
    var key := ManagerDashboard.EventsKey;
    assert |key[..1][0]| != |"events"| && |key[..1][0]| != |"managerStats"|;
  }
}
