/** The event form shared by `AddEvent` and `EditEvent`: its fields, the required-field
    check and how the submitted values become the event payload. */
module EventForm {
  import opened Wrappers
  import opened Domain
  import ManagerDashboard
  import Router

  /** The form's values. `isPaid` is the select's string; `fee` is `parseFloat` of the fee
      field, absent when the text is not a number; `maxAttendees` is the (unrendered) field's
      value, absent when it is falsy. */
  datatype FormValues = FormValues(
    title: string,
    clubId: string,
    description: string,
    date: string,
    location: string,
    isPaid: string,
    fee: Option<int>,
    maxAttendees: Option<int>)

  /** The rules `{ required: true }` of the rendered fields. */
  predicate RequiredFilled(v: FormValues) {
    v.title != "" && v.clubId != "" && v.date != "" && v.location != "" && v.description != "" && v.isPaid != ""
  }

  /** The body of the create and update requests. An absent `eventFee` is NaN, sent as `null`. */
  datatype EventPayload = EventPayload(
    title: string,
    clubId: string,
    description: string,
    eventDate: string,
    location: string,
    isPaid: bool,
    eventFee: Option<int>,
    maxAttendees: Option<int>,
    bannerImage: string)

  /** The select's string for a boolean, as `isPaid.toString()` writes it. */
  function BoolText(b: bool): string {
    if b then "true" else "false"
  }

  /** `data.isPaid === 'true'`. */
  function ParseIsPaid(text: string): (b: bool)
    ensures b <==> text == "true"
  {
    text == "true"
  }

  /** Writing a boolean into the select and reading it back gives the same boolean. */
  lemma IsPaidRoundTrip(b: bool)
    ensures ParseIsPaid(BoolText(b)) == b
  {
  }

  /** The payload built from valid values and the image URL. */
  function BuildPayload(v: FormValues, imageURL: string): (p: EventPayload)
    ensures p.isPaid <==> v.isPaid == "true"
    ensures !p.isPaid ==> p.eventFee == Some(0)
    ensures p.isPaid ==> p.eventFee == v.fee
    ensures p.maxAttendees == v.maxAttendees
    ensures p.bannerImage == imageURL
    ensures p.title == v.title && p.clubId == v.clubId && p.eventDate == v.date
    ensures p.location == v.location && p.description == v.description
  {
    var paid := ParseIsPaid(v.isPaid);
    EventPayload(v.title, v.clubId, v.description, v.date, v.location, paid,
                 if paid then v.fee else Some(0), v.maxAttendees, imageURL)
  }

  /** A free event never carries a fee, whatever the fee field holds. */
  lemma FreeEventsHaveNoFee(v: FormValues, imageURL: string)
    requires v.isPaid != "true"
    ensures BuildPayload(v, imageURL).eventFee == Some(0)
    ensures !BuildPayload(v, imageURL).isPaid
  {
  }

  /** The image choice: no file, a file the host accepted, or a failed upload. */
  datatype Upload = NoFile | Uploaded(url: string) | UploadFailed

  /** The result of a submit: nothing (a required field is empty), the upload-failure alert,
      or the mutation started with a payload. */
  datatype SubmitOutcome = NotSubmitted | UploadErrorAlert | Submitted(payload: EventPayload)

  /** `handleSubmit(onSubmit)` with the image URL to use when no file is chosen. */
  function SubmitWith(v: FormValues, upload: Upload, keptImage: string): (r: SubmitOutcome)
    ensures !RequiredFilled(v) <==> r == NotSubmitted
    ensures r == UploadErrorAlert <==> RequiredFilled(v) && upload == UploadFailed
    ensures r.Submitted? ==> r.payload.bannerImage == (if upload.Uploaded? then upload.url else keptImage)
    ensures r.Submitted? ==> r.payload == BuildPayload(v, r.payload.bannerImage)
  {
    if !RequiredFilled(v) then NotSubmitted
    else match upload
      case NoFile => Submitted(BuildPayload(v, keptImage))
      case Uploaded(url) => Submitted(BuildPayload(v, url))
      case UploadFailed => UploadErrorAlert
  }

  /** Where both pages go after a successful mutation. */
  const AfterSaveNavigation := Router.UrlOf(["manager"])

  /** After a successful create or update the manager lands on the manager dashboard. */
  lemma SaveLandsOnManagerDashboard()
    ensures Router.ManagerDashboard in Router.Resolve(AfterSaveNavigation)
  {
    assert ["manager"] in Router.ManagerPaths;
    Router.SharedPathsResolve(["manager"]);
  }

  /** The club select's options: `myClubs`, which holds every club `/clubs/admin/all` returns. */
  function ClubOptionsAsWritten(all: seq<Club>, user: Option<User>): (options: seq<string>)
    ensures |options| == |all|
    ensures forall i :: 0 <= i < |all| ==> options[i] == all[i].id
  {
    seq(|all|, i requires 0 <= i < |all| => all[i].id)
  }

  /** The club select's options restricted to the clubs the user manages, as the manager
      dashboard lists them. */
  function ClubOptions(all: seq<Club>, user: Option<User>): (options: seq<string>)
    ensures forall id :: id in options <==> exists c :: c in all && ManagerDashboard.ManagedBy(c, user) && c.id == id
  {
    var own := ManagerDashboard.OwnClubs(all, user);
    var ids := ManagerDashboard.ClubIds(own);
    forall id ensures id in ids <==> exists c :: c in all && ManagerDashboard.ManagedBy(c, user) && c.id == id {
      if id in ids {
        var i :| 0 <= i < |ids| && ids[i] == id;
        assert own[i] in own;
      }
      if exists c :: c in all && ManagerDashboard.ManagedBy(c, user) && c.id == id {
        var c :| c in all && ManagerDashboard.ManagedBy(c, user) && c.id == id;
        var i :| 0 <= i < |own| && own[i] == c;
        assert ids[i] == id;
      }
    }
    ids
  }

  /** The select as written offers a club the user does not manage. */
  lemma ForeignClubOffered(mine: Club, other: Club, user: User)
    requires mine.managerEmail == user.email
    requires other.managerEmail != user.email
    ensures other.id in ClubOptionsAsWritten([mine, other], Some(user))
    ensures other.id !in ClubOptions([mine, other], Some(user)) || other.id == mine.id
  {
    assert ClubOptionsAsWritten([mine, other], Some(user))[1] == other.id;
  }

  /** The "create a club first" guard: shown when the option list is empty. */
  predicate NeedsClubFirst(options: seq<string>) {
    options == []
  }

  /** As written the guard passes as soon as any club exists, even one managed by someone else. */
  lemma GuardAsWrittenIgnoresOwnership(all: seq<Club>, user: Option<User>)
    requires all != []
    ensures !NeedsClubFirst(ClubOptionsAsWritten(all, user))
  {
  }

  /** With the options restricted, the guard shows exactly when the user manages no club. */
  lemma GuardMatchesOwnership(all: seq<Club>, user: Option<User>)
    ensures NeedsClubFirst(ClubOptions(all, user)) <==> forall c :: c in all ==> c.managerEmail != EmailOf(user)
  {
    var options := ClubOptions(all, user);
    if options != [] {
      assert options[0] in options;
    }
    if exists c :: c in all && c.managerEmail == EmailOf(user) {
      var c :| c in all && c.managerEmail == EmailOf(user);
      assert c.id in options;
    }
  }
}
