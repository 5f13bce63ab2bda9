# ClubSphere client: a Dafny model

This project models the logic of the ClubSphere web client. ClubSphere is a club and event platform in React, and the client talks to a REST backend. The model covers the following parts:

- **Session store** (`AuthProvider`): the signed-in user, the `loading` flag and the bearer token kept under `access-token`.
- **Request gateway**: the axios interceptors that attach the token and react to a 401 answer.
- **Dashboard routing**: the route table below `/dashboard`, the role redirect at its root, and the role-gated sidebar.
- **Admin dashboard**: its view flags, enabled queries, row controls, confirmation rules, mutation requests and invalidations.
- **Manager dashboard**: its own clubs, its managed events, the row links and event deletion.
- **Member dashboard**: the counters, the "Total Spent" fold and the five-row schedule.
- **Public pages**:
  - the club directory filter;
  - the featured-clubs ranking;
  - the event list badges;
  - club and event details, with their fee gates, check queries and invalidations.
- **Payment form**: the create-intent request, the submit sequence and the button states.
- **Event form**: the form shared by "add event" and "edit event", with its payload, prefill, image handling and club choice.
- **Sign-up form**: password validation, including the JavaScript regular expression `(?=.*[A-Z])(?=.*[a-z])` checked by a verified scanner, the upload → create → profile sequence, and the Google button.

Everything is pure. The outcomes of the identity provider, backend calls, Stripe and the image host are parameters. A cached query is a key (`seq<string>`). The code uses TanStack Query v5; its mutations are read through `isPending`, which only v5 provides. The handlers call `invalidateQueries([...])` with a bare array. v5 takes that array as a filters object without a `queryKey`, so each such call invalidates every cached query (`Domain.ArrayCallsInvalidate`). The model also records which keys each handler names, and whether they cover a given key read as a pattern (`Domain.Covers`, `Domain.Refreshes`). That is what the calls would select if the keys were passed as `{ queryKey }`.

The model follows the code. After a successful payment, `handlePaymentSuccess` on the club and event pages closes the modal and names the page's own query in a bare-array call, which invalidates every cached query. It sends no join and no register request. The only request of a paid join or registration is the form's `/payments/confirm` (`ClubDetails.PaidJoinRecordsThroughPayment`, `EventDetails.PaidRegisterRecordsThroughPayment`). Whether the backend records a membership or registration there is outside the client and is not modelled.

Files: `wrappers.dfy` (Option), `text.dfy` (ASCII lower-casing, substring search, path splitting), `seqs.dfy` (`filter`), `domain.dfy` (entities, roles, statuses, query keys, requests), one file per modelled component.

## Model

| member | source | states |
|---|---|---|
| Domain.RoleFromName | src/providers/AuthProvider.jsx:77 | The backend's role string reads as admin, club manager or member exactly when it is that role's name. |
| Domain.RoleNameRoundTrip | src/providers/AuthProvider.jsx:77 | Reading a role string and printing it back gives the same string, and every parsed role is canonical. |
| Domain.RoleRoundTrip | src/pages/dashboard/AdminDashboard.jsx:370-372 | Every canonical role survives printing and re-reading. |
| Domain.StatusFromName | src/pages/dashboard/AdminDashboard.jsx:190-191 | A status string reads as a status only when it is one of "pending", "approved", "rejected". |
| Domain.StatusRoundTrip | src/pages/dashboard/AdminDashboard.jsx:190-191 | Every club status survives printing and re-reading. |
| Domain.ArrayCallsInvalidate | src/pages/public/ClubDetails.jsx:85-88 | A handler's `invalidateQueries([...])` calls invalidate every cached query, and none when it makes no call. |
| Domain.ArrayCallsCoverNamed | src/pages/public/ClubDetails.jsx:56-58 | Whatever the named keys cover as patterns is among what the calls invalidate. |
| AuthProvider.Initial | src/providers/AuthProvider.jsx:10-11 | On mount there is no user, loading is on, and the stored token is whatever an earlier visit left. |
| AuthProvider.Identity | src/providers/AuthProvider.jsx:41 | The provider identity is first published without a role, carrying the provider user's uid, email, display name and photo URL unchanged. |
| AuthProvider.BeginAction | src/providers/AuthProvider.jsx:13-31 | Creating a user, signing in, Google sign-in and logging out each raise `loading` and change nothing else. |
| AuthProvider.OnAuthStateChanged | src/providers/AuthProvider.jsx:40-88 | The effects of one callback, in order. Publish the user first. Signed out: remove the token and end loading. Signed in: store the token, send the sync bearing it, end loading. A rejected `getIdToken` stops after the first publication. |
| AuthProvider.SignedInOutcome | src/providers/AuthProvider.jsx:40-87 | After a sign-in with a token, the token is stored, loading is over, and the user carries exactly the role the backend sent, or none if the sync failed. |
| AuthProvider.ReplayConcat | src/providers/AuthProvider.jsx:40-88 | Applying two effect lists in turn is applying their concatenation. |
| AuthProvider.SignedOutOutcome | src/providers/AuthProvider.jsx:84-87 | Signing out always leaves no user, no token and loading off. |
| AuthProvider.TokenStoredBeforeSync | src/providers/AuthProvider.jsx:44-71 | The token is written to storage before the sync request that carries it. |
| AuthProvider.TokenFailureLeavesLoading | src/providers/AuthProvider.jsx:44-45 | When `getIdToken` rejects, loading and the stored token keep their values. |
| Gateway.AttachToken | src/hooks/useAxiosSecure.jsx:8-15 | A non-empty stored token adds `Authorization: Bearer <token>`. Otherwise the headers are unchanged. Other headers are untouched either way. |
| Gateway.OnReply | src/hooks/useAxiosSecure.jsx:22-33 | The caller always sees the reply. A 401 clears the stored token and redirects to `/login`. Any other reply changes neither. |
| Gateway.NoTokenAfterUnauthorized | src/hooks/useAxiosSecure.jsx:8-33 | After a 401 the next request carries no bearer token. |
| Gateway.SignInAuthorizesRequests | src/hooks/useAxiosSecure.jsx:8-15 | After a sign-in that obtained token t, the next request carries `Bearer t`. |
| Gateway.SignOutDeauthorizesRequests | src/hooks/useAxiosSecure.jsx:8-15 | After signing out, the next request carries no bearer token. |
| Router.ChildPath | src/routes/router.jsx:60-64 | A URL is inside the dashboard exactly when it is `/dashboard` or starts with `/dashboard/`. The result is the part after that prefix. |
| Router.Resolve | src/routes/router.jsx:60-137 | At most one component is mounted for a URL. It is mounted exactly when the URL is inside the dashboard and its child path, with trailing slashes dropped, is matched by the route table. |
| Router.TableAgrees | src/routes/router.jsx:64-136 | Every child pattern that matches a path segment by segment, with `:param` matching any non-empty segment, names the component chosen for it. Every component chosen comes from such a pattern. So no two patterns disagree on any URL. |
| Router.ChildUrlResolves | src/routes/router.jsx:64-136 | Every child route, written as a full URL, mounts exactly its own component. |
| Router.TrailingSlashIgnored | src/routes/router.jsx:60-137 | A URL with a trailing slash mounts the same component as the URL without it. |
| Router.SharedPathsResolve | src/routes/router.jsx:65-136 | The dashboard root mounts only the redirect. The member paths mount only the member dashboard, the manager paths only the manager dashboard, and the admin paths only the admin dashboard. |
| Router.ViewMembersLinksResolve | src/routes/router.jsx:105-124 | `/dashboard/admin/club/<id>/members` and `/dashboard/manager/club/<id>/members` both mount the club-members page and nothing else. |
| Router.EditClubLinkResolves | src/routes/router.jsx:93-96 | `/dashboard/manager/edit-club/<id>` mounts the club editor and nothing else. |
| Router.EditEventLinkResolves | src/routes/router.jsx:101-104 | `/dashboard/manager/edit-event/<id>` mounts the event editor and nothing else. |
| Router.RegistrationsLinkResolves | src/routes/router.jsx:109-112 | `/dashboard/manager/event/<id>/registrations` mounts the registrations page and nothing else. |
| DashboardRedirect.RedirectOf | src/components/DashboardRedirect.jsx:10-20 | Nothing happens while loading or without a user. Otherwise an admin is sent, replacing history, to `/dashboard/admin/clubs`, a club manager to `/dashboard/manager`, and everyone else stays. |
| DashboardRedirect.Rendered | src/components/DashboardRedirect.jsx:22-31 | A spinner while loading, otherwise the member dashboard. |
| DashboardRedirect.RedirectTargetsDeclared | src/components/DashboardRedirect.jsx:14-16 | Both redirect targets are declared routes, and they mount the admin and manager dashboards. |
| DashboardRedirect.NonElevatedUsersStay | src/components/DashboardRedirect.jsx:11-31 | A member, a user with an unrecognised role, or one whose role has not arrived is not redirected and sees the member dashboard. |
| DashboardLayout.SidebarLinks | src/layouts/DashboardLayout.jsx:18-44 | The four member links come first. The manager links appear exactly for managers and admins, the admin links exactly for admins. Nothing else appears. |
| DashboardLayout.AdminSeesManagerLinks | src/layouts/DashboardLayout.jsx:26-35 | Whoever sees the admin section also sees the manager section. |
| DashboardLayout.SidebarMonotone | src/layouts/DashboardLayout.jsx:18-44 | A higher role never loses a sidebar link. |
| DashboardLayout.UnprivilegedSeeMemberLinks | src/layouts/DashboardLayout.jsx:20-23 | Without an elevated role, the sidebar is exactly the member links. |
| DashboardLayout.SidebarLinksDeclared | src/layouts/DashboardLayout.jsx:20-41 | Every sidebar link points at a declared dashboard route. |
| DashboardLayout.LogOutNavigation | src/layouts/DashboardLayout.jsx:10-16 | After logging out the page goes to `/` exactly when the sign-out succeeded. |
| DashboardLayout.LogOutEndsSession | src/layouts/DashboardLayout.jsx:10-16 | A completed logout passes through loading and ends with no user and no token. |
| AdminDashboard.FlagsOf | src/pages/dashboard/AdminDashboard.jsx:15-19 | Each tab flag holds exactly when the path contains that tab's segment. The overview is the absence of all four. |
| AdminDashboard.AdminRouteFlags | src/pages/dashboard/AdminDashboard.jsx:15-19 | Each admin route raises exactly its own tab's flag, and the admin root raises none. |
| AdminDashboard.Title | src/pages/dashboard/AdminDashboard.jsx:261 | The heading is "Admin Overview" exactly on the overview. Otherwise it names the first raised flag in the order users, clubs, payments, events: "All Users", "All Clubs", "All Payments", "All Events". |
| AdminDashboard.OverviewTitleMeansStats | src/pages/dashboard/AdminDashboard.jsx:23-27 | The heading says "Admin Overview" exactly when the statistics query is enabled. |
| AdminDashboard.AdminRouteTitles | src/pages/dashboard/AdminDashboard.jsx:15-19 | Each admin route's heading names its own tab, and the admin root's is "Admin Overview". |
| AdminDashboard.EnabledQueries | src/pages/dashboard/AdminDashboard.jsx:23-65 | The clubs query is always enabled and stats only on the overview. Users is enabled on its tab or the overview; payments and events only on their tabs. |
| AdminDashboard.AdminTabRoutes | src/routes/router.jsx:113-136 | Each admin tab's route mounts the admin dashboard, and its heading names that tab. |
| AdminDashboard.OverviewQueries | src/pages/dashboard/AdminDashboard.jsx:23-65 | The overview fetches exactly clubs, stats and users; the payments tab exactly clubs and payments. |
| AdminDashboard.PendingClubs | src/pages/dashboard/AdminDashboard.jsx:256 | The pending list holds each pending club as often as the list does, no other club, in their order. |
| AdminDashboard.PendingCount | src/pages/dashboard/AdminDashboard.jsx:256-274 | The pending count plus the count of reviewed clubs is the number of clubs. It equals that number exactly when every club is pending, and it is zero exactly when none is. |
| AdminDashboard.PendingTableMatchesClubsTab | src/pages/dashboard/AdminDashboard.jsx:297-318 | The overview's pending table lists exactly the clubs on which the clubs tab offers approval. |
| AdminDashboard.PendingRowControls | src/pages/dashboard/AdminDashboard.jsx:303-317 | A pending-table row offers approve and reject, no delete and no members link. Both are disabled exactly while a status update is in flight. |
| AdminDashboard.PendingRowAgreesWithClubsTab | src/pages/dashboard/AdminDashboard.jsx:303-317 | For a pending club the clubs tab offers the pending table's controls plus delete. |
| AdminDashboard.ClubRowControls | src/pages/dashboard/AdminDashboard.jsx:425-439 | Delete is always offered. Approve and reject appear exactly for pending clubs, the members link exactly for reviewed ones, and that link names the row's own club id. |
| AdminDashboard.MembersLinkOpensMembersPage | src/pages/dashboard/AdminDashboard.jsx:434 | A reviewed club's "View Members" link is the members page of that club, and it mounts only the club-members page. |
| AdminDashboard.UserRow | src/pages/dashboard/AdminDashboard.jsx:368-381 | The own-role hint shows exactly on the admin's own row, and delete exactly on the other rows. The role select is disabled while a change is pending or on the own row. |
| AdminDashboard.NoSelfService | src/pages/dashboard/AdminDashboard.jsx:368-381 | No admin can change their own role or delete themselves. While a role change is pending no row is editable. |
| AdminDashboard.RequestOf | src/pages/dashboard/AdminDashboard.jsx:71-166 | Exactly the three deletions are DELETE requests, all without a body, to `/clubs/<id>`, `/events/<id>` and `/users/<id>`. Approve and reject PUT to `/clubs/<id>/status` a status text that reads back as approved or rejected. A role change PUTs the role's name to `/users/<id>/role`. |
| AdminDashboard.RequestNamesAction | src/pages/dashboard/AdminDashboard.jsx:71-166 | Two actions that send the same request are the same action, for roles the select can produce. |
| AdminDashboard.Dispatch | src/pages/dashboard/AdminDashboard.jsx:190-252 | Approve and reject are sent at once. Every other action is sent exactly when the dialog was confirmed, and the request sent is the action's request. |
| AdminDashboard.DestructiveActionsNeedConfirmation | src/pages/dashboard/AdminDashboard.jsx:192-252 | No deletion and no role change is sent without confirmation. |
| AdminDashboard.RoleChangeRoundTrip | src/pages/dashboard/AdminDashboard.jsx:118-119 | A role chosen from the select reaches the backend as a name that reads back as that role. |
| AdminDashboard.Invalidations | src/pages/dashboard/AdminDashboard.jsx:74-169 | Every mutation names the listing that shows what it changed. Exactly the status change also names the statistics. Passed as a bare array, the keys make each call invalidate every cached query. |
| AdminDashboard.InvalidatedListingIsShown | src/pages/dashboard/AdminDashboard.jsx:23-169 | The listing a mutation names is enabled on the tab showing its button. |
| MemberDashboard.FlagsOf | src/pages/dashboard/MemberDashboard.jsx:13-15 | The view flags are substring tests on the path. |
| MemberDashboard.MemberRouteFlags | src/pages/dashboard/MemberDashboard.jsx:13-15 | `/dashboard` shows the overview; `my-clubs` and `my-events` select their own views. |
| MemberDashboard.EnabledQueries | src/pages/dashboard/MemberDashboard.jsx:17-40 | Memberships and registrations are always fetched, payments only on the overview. |
| MemberDashboard.Title | src/pages/dashboard/MemberDashboard.jsx:46-48 | A greeting with the display name (or "Member") on the overview. "My Clubs" exactly when the my-clubs test passes, and "My Events" exactly when only the my-events test does. |
| MemberDashboard.MemberRouteTitles | src/pages/dashboard/MemberDashboard.jsx:13-48 | `/dashboard` greets the user by their display name; `/dashboard/my-clubs` and `/dashboard/my-events` are headed "My Clubs" and "My Events". |
| MemberDashboard.DisplayNameOr | src/pages/dashboard/MemberDashboard.jsx:47 | A user's own non-empty display name is shown, and otherwise "Member". The name is never empty. |
| MemberDashboard.TotalSpent | src/pages/dashboard/MemberDashboard.jsx:42 | The left-to-right accumulation equals the sum of the amounts, a missing amount counting 0. It is non-negative when no amount is negative. |
| MemberDashboard.SumAppend | src/pages/dashboard/MemberDashboard.jsx:42 | The total of a concatenation is the sum of the totals. |
| MemberDashboard.SumSwap | src/pages/dashboard/MemberDashboard.jsx:42 | The total does not depend on which half of the list comes first. |
| MemberDashboard.SumBoundsEach | src/pages/dashboard/MemberDashboard.jsx:42 | With no negative amount the total is at least each single amount. |
| MemberDashboard.ActiveMemberships | src/pages/dashboard/MemberDashboard.jsx:62 | Each membership with status `active`, as often as the list holds it, and no other, in order. |
| MemberDashboard.UpcomingRegistrations | src/pages/dashboard/MemberDashboard.jsx:71 | Each registration with status `registered`, as often as the list holds it, and no other, in order. |
| MemberDashboard.StatCounts | src/pages/dashboard/MemberDashboard.jsx:61-71 | The active count plus the other memberships is the "Clubs Joined" total, and it reaches that total exactly when every membership is active. The same holds for the upcoming count against all registrations. |
| MemberDashboard.Schedule | src/pages/dashboard/MemberDashboard.jsx:100-102 | The first five registrations (fewer if there are fewer), row i numbered i+1. |
| MemberDashboard.ScheduleNumbering | src/pages/dashboard/MemberDashboard.jsx:100-102 | The rows are numbered without gaps and show exactly the listed prefix. The schedule is empty only without registrations. |
| ManagerDashboard.OwnClubs | src/pages/dashboard/ManagerDashboard.jsx:33 | Exactly the clubs whose manager email equals the user's, in order. |
| ManagerDashboard.NoEmailMatchesUnassignedClubs | src/pages/dashboard/ManagerDashboard.jsx:33 | Without an email, the "own" clubs are exactly the clubs without a manager email. |
| ManagerDashboard.ShowsNoClubsHint | src/pages/dashboard/ManagerDashboard.jsx:113 | The "no clubs yet" hint shows exactly when no club is managed by the user. |
| ManagerDashboard.EventsData | src/pages/dashboard/ManagerDashboard.jsx:35-42 | With an email, the fetched events. Without one, the query is disabled: whatever is cached under `myEventsManager`, and none when nothing is cached. |
| ManagerDashboard.NoEmailNoEvents | src/pages/dashboard/ManagerDashboard.jsx:35-46 | Without an email and with nothing cached, the table lists no event, as written or corrected. |
| ManagerDashboard.ClubIds | src/pages/dashboard/ManagerDashboard.jsx:45 | The ids of the own clubs, position by position. |
| ManagerDashboard.ManagedEventsAsWritten | src/pages/dashboard/ManagerDashboard.jsx:45-46 | As written: an event is kept exactly when its raw `clubId` value is among the own club ids. |
| ManagerDashboard.ManagedEvents | src/pages/dashboard/ManagerDashboard.jsx:45-46 | Corrected: an event is kept exactly when the club id it refers to is among the own club ids, whether it was sent as an id or as a populated club. |
| ManagerDashboard.ManagedEventsExact | src/pages/dashboard/ManagerDashboard.jsx:45-46 | The corrected list holds exactly the events that belong to one of the manager's clubs. |
| ManagerDashboard.ManagedEventsIgnoreRepresentation | src/pages/dashboard/ManagerDashboard.jsx:45-46 | Sending a club reference as an id or as a populated club does not change the corrected list. |
| ManagerDashboard.AsWrittenWithinCorrected | src/pages/dashboard/ManagerDashboard.jsx:45-46 | The list as written never shows an event the corrected list leaves out. |
| ManagerDashboard.PopulatedEventDropped | src/pages/dashboard/ManagerDashboard.jsx:45-46 | An own club's event with a populated `clubId` is dropped as written and kept when corrected. |
| ManagerDashboard.RowLinksResolve | src/pages/dashboard/ManagerDashboard.jsx:135-172 | The members, edit, registrations and edit-event links of the rows mount their pages. |
| ManagerDashboard.DeleteEventRequest | src/pages/dashboard/ManagerDashboard.jsx:49-78 | The event's DELETE is sent exactly when confirmed. |
| ManagerDashboard.DeleteMatchesAdmin | src/pages/dashboard/ManagerDashboard.jsx:49-78 | The manager's event deletion sends what the admin's does. |
| ManagerDashboard.DeleteRefreshesLists | src/pages/dashboard/ManagerDashboard.jsx:54-56 | A deletion names the manager's event table and the public event list, but not the club list. The calls as written still invalidate a cached club list, with everything else. |
| Checkout.PaymentFields | src/components/Payment/CheckoutForm.jsx:16-21 | The intent body carries the type always, and the amount, club and event exactly when present, each with the value given. No other field is sent. |
| Checkout.IntentRequest | src/components/Payment/CheckoutForm.jsx:14-27 | An intent is requested exactly for a positive amount, by POST to `/payments/create-intent` with that amount. |
| Checkout.IntentAnswered | src/components/Payment/CheckoutForm.jsx:22-24 | The answer sets the client secret and nothing else. |
| Checkout.NoAmountNoPayment | src/components/Payment/CheckoutForm.jsx:14-27 | Without a positive amount no intent is requested and the pay button stays disabled. |
| Checkout.ConfirmBody | src/components/Payment/CheckoutForm.jsx:77-83 | The confirmation body is the intent body plus the intent id. |
| Checkout.SubmitAsWritten | src/components/Payment/CheckoutForm.jsx:29-104 | As written: nothing happens without Stripe or a card. A confirm error shows its message, lowers `processing` and sends nothing. A succeeded intent sends exactly the confirmation. If recording fails, the "failed to record" message shows and no success is reported. Otherwise the payment-method error, or nothing, stays shown. Success is reported exactly when the intent succeeded and the backend answered with data, and only with the intent's id. An unfinished intent leaves `processing` raised. |
| Checkout.UnfinishedIntentLocksForm | src/components/Payment/CheckoutForm.jsx:54-103 | As written: an intent resolving with a status other than `succeeded` leaves `processing` raised, so pay and cancel are both disabled. |
| Checkout.Submit | src/components/Payment/CheckoutForm.jsx:29-104 | Corrected: every submission that passed the checks ends with `processing` lowered. The only request is the confirmation, sent exactly for a succeeded intent. The card error is the confirm error's message, the "failed to record" message, or otherwise the payment-method error or nothing. Success is reported as in the code. |
| Checkout.SubmitAgreesWhenFinished | src/components/Payment/CheckoutForm.jsx:29-104 | Both definitions agree on every submission whose intent did not stay unfinished. |
| Checkout.ConfirmMatchesIntent | src/components/Payment/CheckoutForm.jsx:16-21 | The confirmation repeats the intent request's amount, type, club and event and adds the intent id. |
| Checkout.CompletedSubmissionReenables | src/components/Payment/CheckoutForm.jsx:129-145 | After a corrected submission both buttons are enabled again. |
| ClubDetails.ClubEvents | src/pages/public/ClubDetails.jsx:25-36 | Exactly the events referring to the club, by id or populated object, in order. |
| ClubDetails.ShownClubEvents | src/pages/public/ClubDetails.jsx:25-36 | With an id, the club's events from the fetched list. Without one, the query is disabled: whatever is cached, and none when nothing is cached. |
| ClubDetails.ShownEventsBelongToClub | src/pages/public/ClubDetails.jsx:25-36 | On a club's page, an event is listed exactly when it was fetched and refers to the club. |
| ClubDetails.ClubEventsMatchManager | src/pages/public/ClubDetails.jsx:29-33 | The club page's event filter is the manager's corrected filter for that one club. |
| ClubDetails.IsMember | src/pages/public/ClubDetails.jsx:39-50 | Member exactly when the check is enabled (user and id present) and answered `true`. A failed check reads as not a member. |
| ClubDetails.JoinAreaOf | src/pages/public/ClubDetails.jsx:126-138 | The "member" alert exactly for members, otherwise the join button, disabled while joining. |
| ClubDetails.JoinButtonWithoutAnswer | src/pages/public/ClubDetails.jsx:39-50 | Signed out, or with a failed check, the join button is shown. |
| ClubDetails.JoinRequest | src/pages/public/ClubDetails.jsx:52-55 | A free join POSTs `{clubId}` to `/memberships/join`. |
| ClubDetails.HandleJoin | src/pages/public/ClubDetails.jsx:77-83 | The payment modal opens exactly for a positive fee, otherwise the join request is sent. |
| ClubDetails.PaymentInfoOf | src/pages/public/ClubDetails.jsx:202-208 | The modal gets the fee as amount, type `membership` and the club id. |
| ClubDetails.ModalMeansIntent | src/pages/public/ClubDetails.jsx:77-83 | The modal opens exactly when the payment form will request an intent. |
| ClubDetails.FeeLabelOf | src/pages/public/ClubDetails.jsx:122 | "Free" exactly when the fee is not positive, otherwise the fee. |
| ClubDetails.FeeLabelMatchesGate | src/pages/public/ClubDetails.jsx:77-122 | A price is displayed exactly when joining goes through payment. |
| ClubDetails.JoinRefreshesCheck | src/pages/public/ClubDetails.jsx:56-58 | The keys a free join names cover the club and every user's membership check for it. |
| ClubDetails.PaymentSuccess | src/pages/public/ClubDetails.jsx:85-88 | After payment the modal closes and the named keys cover the club. |
| ClubDetails.PaymentSuccessSkipsCheck | src/pages/public/ClubDetails.jsx:56-88 | Unlike a free join, the keys named after payment do not cover the membership check as a pattern. The call as written still invalidates a cached check, with everything else. |
| ClubDetails.PaidJoinRecordsThroughPayment | src/pages/public/ClubDetails.jsx:77-88 | A paid join never calls the join endpoint, in the submit handler as written or corrected. Its only request is the payment confirmation, typed `membership` and naming the club. |
| EventDetails.IsRegistered | src/pages/public/EventDetails.jsx:25-36 | Registered exactly when the check is enabled and answered `true`. A failed check reads as not registered. |
| EventDetails.RegisterRequest | src/pages/public/EventDetails.jsx:38-41 | A direct registration POSTs `{eventId}` to `/event-registrations/register`. |
| EventDetails.HandleRegister | src/pages/public/EventDetails.jsx:62-68 | The modal opens exactly for a paid event with a positive fee, otherwise the registration is sent. |
| EventDetails.RegisterAreaOf | src/pages/public/EventDetails.jsx:102-114 | The "registered" alert exactly when registered. Otherwise the button, captioned "Pay & Register" exactly for paid events and disabled while pending. |
| EventDetails.PaidCaptionWithoutPayment | src/pages/public/EventDetails.jsx:62-112 | A paid event without a positive fee says "Pay & Register" but registers without payment. |
| EventDetails.PaymentInfoOf | src/pages/public/EventDetails.jsx:123-130 | The modal gets the fee as amount, type `event`, the event id and the club reference as held. |
| EventDetails.ModalMeansIntent | src/pages/public/EventDetails.jsx:62-68 | For a paid event, the modal opens exactly when the payment form will request an intent. |
| EventDetails.RegisterInvalidations | src/pages/public/EventDetails.jsx:48 | The keys a registration names cover the event. |
| EventDetails.RegisterSkipsCheck | src/pages/public/EventDetails.jsx:48 | The keys named after registering do not cover the registration check as a pattern. The call as written still invalidates a cached check, with everything else. |
| EventDetails.PaymentSuccess | src/pages/public/EventDetails.jsx:70-73 | After payment the modal closes and the named keys cover the event; they are the same keys as a free registration names. |
| EventDetails.PaidRegisterRecordsThroughPayment | src/pages/public/EventDetails.jsx:62-73 | A paid registration never calls the register endpoint, in the submit handler as written or corrected. Its only request is the payment confirmation, typed `event` and naming the event. Afterwards the registration check is not covered by the keys named. |
| EventDetails.DetailPriceOf | src/pages/public/EventDetails.jsx:95 | "Free" exactly for free events, otherwise the stored fee as it is, missing or not. |
| EventDetails.PriceAgreesWithList | src/pages/public/EventDetails.jsx:95 | The details page and the list agree on the price of every event with a fee. For a paid event without one, the list shows 0 and the details page prints the missing value. |
| ClubsPage.FilteredClubs | src/pages/public/Clubs.jsx:22-26 | Exactly the clubs whose lower-cased name contains the lower-cased term and whose category is selected ("All" selects every category), in order. |
| ClubsPage.FilterCaption | src/pages/public/Clubs.jsx:47 | The caption is "Filter" for "All" and the chosen category otherwise. |
| ClubsPage.CaptionNamesChoice | src/pages/public/Clubs.jsx:47-50 | No two categories on offer show the same caption, and "Filter" shows exactly for "All". |
| ClubsPage.InitialShowsAll | src/pages/public/Clubs.jsx:9-26 | With the initial empty term and "All", every club is shown. |
| ClubsPage.LongerTermNarrows | src/pages/public/Clubs.jsx:22-26 | Extending the search term never adds a club. |
| ClubsPage.CategoryNarrows | src/pages/public/Clubs.jsx:22-26 | Choosing a category never adds a club compared with "All". |
| ClubsPage.SearchIgnoresCase | src/pages/public/Clubs.jsx:23 | Searching a term and its lower-cased form gives the same list. |
| FeaturedClubs.SortByMembers | src/pages/public/home/FeaturedClubs.jsx:14 | The sort orders the clubs by member count, largest first (missing counts as 0), and is a permutation. |
| FeaturedClubs.SortStable | src/pages/public/home/FeaturedClubs.jsx:14 | The sort is stable: clubs with equal counts keep their input order. |
| FeaturedClubs.Featured | src/pages/public/home/FeaturedClubs.jsx:14 | At most three clubs, sorted, all taken from the list. |
| FeaturedClubs.FeaturedAreLargest | src/pages/public/home/FeaturedClubs.jsx:14 | No club left out has more members than a featured one. |
| FeaturedClubs.SmallListsAllFeatured | src/pages/public/home/FeaturedClubs.jsx:14 | With three or fewer clubs every club is featured. |
| EventsPage.RegisteredKey | src/pages/public/Events.jsx:31 | A registration's key is the populated event's id, or the raw id. A populated event with an empty id has no usable key. |
| EventsPage.VisibleRegistrations | src/pages/public/Events.jsx:21-28 | Signed in, the fetched registrations. Signed out, the query is disabled: whatever is cached under the key `myEventRegistrations`, which does not name the user, and none when nothing is cached. |
| EventsPage.RegisteredIds | src/pages/public/Events.jsx:31 | The set holds exactly the keys of the registrations. |
| EventsPage.BadgeIffRegistered | src/pages/public/Events.jsx:31-65 | An event shows the "Registered" badge exactly when some registration refers to it. |
| EventsPage.SignedOutNoBadges | src/pages/public/Events.jsx:21-31 | Signed out with nothing cached, no event shows the badge. |
| EventsPage.SignedOutKeepsCachedBadges | src/pages/public/Events.jsx:21-31 | Signed out with an earlier user's registrations cached, an event shows the badge exactly when that user registered for it. |
| EventsPage.ListLabel | src/pages/public/Events.jsx:64 | "Free" exactly for free events, otherwise the fee with a missing fee as 0. |
| EventsPage.CardActionOf | src/pages/public/Events.jsx:59-65 | The badge exactly when registered, otherwise the register link with the list label. |
| EventForm.ParseIsPaid | src/pages/dashboard/manager/AddEvent.jsx:66 | Paid exactly when the select's text is "true". |
| EventForm.IsPaidRoundTrip | src/pages/dashboard/manager/EditEvent.jsx:41 | Writing a flag into the select and reading it back gives the flag. |
| EventForm.BuildPayload | src/pages/dashboard/manager/AddEvent.jsx:60-70 | The payload copies the texts and the image, is paid exactly for "true", carries the parsed fee when paid and 0 otherwise, and the capacity as given. |
| EventForm.FreeEventsHaveNoFee | src/pages/dashboard/manager/AddEvent.jsx:66-67 | A free event is sent with fee 0. |
| EventForm.SubmitWith | src/pages/dashboard/manager/AddEvent.jsx:52-82 | Nothing is sent while a required field is empty. A failed upload shows the upload alert. Otherwise the payload is sent, with the new image or the kept one. |
| EventForm.SaveLandsOnManagerDashboard | src/pages/dashboard/manager/AddEvent.jsx:40 | After saving, the page lands on a route mounting the manager dashboard. |
| EventForm.ClubOptionsAsWritten | src/pages/dashboard/manager/AddEvent.jsx:17-23 | As written: the club select offers every club on the platform, in order. |
| EventForm.ClubOptions | src/pages/dashboard/manager/AddEvent.jsx:113-115 | Corrected: the select offers exactly the ids of the clubs the user manages. |
| EventForm.ForeignClubOffered | src/pages/dashboard/manager/AddEvent.jsx:17-23 | As written, a club managed by someone else is offered; corrected, it is not. |
| EventForm.GuardAsWrittenIgnoresOwnership | src/pages/dashboard/manager/AddEvent.jsx:84-91 | As written, the "create a club first" guard never fires on a non-empty platform. |
| EventForm.GuardMatchesOwnership | src/pages/dashboard/manager/AddEvent.jsx:84-91 | Corrected, the guard fires exactly when the user manages no club. |
| AddEvent.Submit | src/pages/dashboard/manager/AddEvent.jsx:52-82 | A new event is sent exactly when the required fields are filled and no upload failed. Its image is the upload or empty. |
| AddEvent.NoCapacitySent | src/pages/dashboard/manager/AddEvent.jsx:68 | With no capacity field value, no capacity is sent. |
| AddEvent.CreatedFee | src/pages/dashboard/manager/AddEvent.jsx:66-69 | A created event carries the uploaded image, the parsed fee if paid, and 0 if free. |
| AddEvent.CreateRefreshesPublicList | src/pages/dashboard/manager/AddEvent.jsx:29-31 | The keys a creation names cover the public event list but not the manager's event table. The calls as written still invalidate a cached table, with everything else. |
| EditEvent.Prefill | src/pages/dashboard/manager/EditEvent.jsx:35-44 | The prefilled select reads back as the stored flag. The fee is the stored fee or 0 when falsy. The capacity is present exactly when the stored one is non-zero. |
| EditEvent.KeptImage | src/pages/dashboard/manager/EditEvent.jsx:84 | The stored image is kept whenever one is stored, the empty one included, and is the empty string otherwise. |
| EditEvent.Submit | src/pages/dashboard/manager/EditEvent.jsx:82-121 | The update is sent exactly when the required fields are filled and no upload failed, with the new image or the kept one. |
| EditEvent.UntouchedEditPreservesEvent | src/pages/dashboard/manager/EditEvent.jsx:35-101 | Saving the prefilled form untouched writes back the same texts, flag and image. Fee and capacity change only where a falsy value became 0 or absent. |
| EditEvent.UpdateRefreshesViews | src/pages/dashboard/manager/EditEvent.jsx:58-62 | The keys an update names cover the event's page, the public list and the manager's table. |
| RegisterPage.ScanPattern | src/pages/public/Register.jsx:137 | The line-by-line scan answers exactly whether `(?=.*[A-Z])(?=.*[a-z])` matches, `.` excluding line terminators. |
| RegisterPage.PatternMeansSameLine | src/pages/public/Register.jsx:137 | The pattern matches exactly when some line holds both an upper-case and a lower-case letter. |
| RegisterPage.SingleLineMeansAnywhere | src/pages/public/Register.jsx:133-137 | For a password without line breaks, the pattern asks only for an upper-case and a lower-case letter anywhere. |
| RegisterPage.CheckPassword | src/pages/public/Register.jsx:133-142 | An empty password is "required". More than 20 characters is "maxLength", 1 to 5 is "minLength". Otherwise a password missing a case is "pattern", and it passes exactly when both cases share a line. |
| RegisterPage.Validate | src/pages/public/Register.jsx:111-142 | Name, image and email are flagged exactly when missing. The password shows "required" exactly when empty, "maxLength" above 20 characters, "minLength" for 1 to 5, and "pattern" for an in-range password missing a case. The form is clear exactly when all are present and the password passes. |
| RegisterPage.SignUp | src/pages/public/Register.jsx:15-59 | The upload comes first, and its failure shows the upload alert and creates no account. A creation failure shows "Registration Failed" with its message. The profile is set only after creation. Reset and navigation to `/` happen exactly when all three succeed. |
| RegisterPage.SignUpUsesFormAndUpload | src/pages/public/Register.jsx:20-28 | The account gets the form's email and password, the profile the form's name and the uploaded URL. |
| RegisterPage.ProfileFailureIsSilent | src/pages/public/Register.jsx:28-41 | A failed profile update leaves a created account with no message and no navigation. |
| RegisterPage.GoogleButtonEnabled | src/pages/public/Register.jsx:148-155 | The Google button is enabled exactly when no Google sign-in is running. |
| RegisterPage.StartGoogle | src/pages/public/Register.jsx:61-63 | Starting the Google sign-in disables the button and changes nothing else. |
| RegisterPage.FinishGoogle | src/pages/public/Register.jsx:64-85 | Either outcome re-enables the button. Success navigates to `/` with a success alert; failure shows "Google Sign In Failed" with the message. |
| RegisterPage.GoogleRoundTrip | src/pages/public/Register.jsx:61-85 | Whatever Google answers, the button is usable again, and a failure does not navigate. |

## Left out

- Rendering, styling, animations, spinners for loading queries, and the Sweet Alert texts other than those named above: presentation only.
- The public route table (`/`, `/login`, `/register`, `/clubs/:id`, `/events/:id`), the navbar and the home page's other sections: they carry no logic beyond links.
- The login, profile, add-club, edit-club, club-members and event-registrations pages: thin forms and tables that copy fields verbatim.
- The query cache itself: fetching, caching, retries and refetch timing. Invalidating a query is modelled as marking its key; whether it refetches now or on next use is not modelled.
- Asynchrony and interleavings: each handler is one atomic step. Races between a mutation and a refetch, and the brief member view before a redirect, are not modelled.
- The identity provider, the backend, Stripe and the image host: their answers are parameters.
- The network and `window.location`: the 401 redirect is returned as a value.
- Numbers: fees, amounts and counts are integers. `parseFloat` and `parseInt` yield an integer or nothing, so fractional fees and `NaN` arithmetic are not modelled. A missing fee printed as `undefined` is a missing value.
- EditEvent.Prefill: the date is carried as the stored text. The reformatting through `toISOString().slice(0, 16)`, which drops seconds and converts to UTC, is not modelled, so `EditEvent.UntouchedEditPreservesEvent` holds for dates already in that form.
- Router.Resolve: segments are compared with letter case, and trailing slashes are the only normalisation. The router library matches routes not marked case-sensitive without regard to letter case, so a URL such as `/dashboard/Admin` mounts a page there but resolves to nothing here.
- EditEvent.Prefill: the stored event's club is taken as a raw id. When the backend sends it populated, the object is set into the select and never matches an option; that case is not modelled.
- The payment form's effect is keyed on the `paymentInfo` object, and the details pages build a new object on every render. So a re-render posts another create-intent request; the model sends one per opening.
- The session store writes the backend role into the identity provider's user object in place (`currentUser.role = data.role`) before publishing it. The model publishes a new value, so code holding the earlier object is not modelled seeing the role appear.
- Whether and how long the cached registrations survive sign-out depends on the query library's cache lifetime. `EventsPage.VisibleRegistrations` takes what is cached as a parameter.
- Text: lower-casing is ASCII-only, and lengths count characters, not UTF-16 code units. This matters for the password length bounds and the club search on non-ASCII input.
- AddEvent.Submit and EditEvent.Submit return the payload. The POST to `/events` and the PUT to `/events/<id>` that carry it are not modelled as requests, because their paths take no input beyond the route's id.
- Browser form validation (the `type="email"` check) runs before the submit handler and is not modelled.
- The form library's field-level re-validation modes: validation is modelled at submit time only.
- The club-members and event-registrations pages behind the row links are not modelled; the links are only shown to reach them.

## Findings

| source | as written | input that shows it | evidently intended | confidence | as-written member | corrected member |
|---|---|---|---|---|---|---|
| src/pages/dashboard/ManagerDashboard.jsx:45-46 | `myClubIds.includes(e.clubId)` compares the raw `clubId` with club ids. | An event of the manager's club whose `clubId` arrives populated (an object with that `_id`), as the club page handles. The manager's event table omits it. | Compare the referenced club's id, as src/pages/public/ClubDetails.jsx:31-32 does. | medium, not executed | ManagerDashboard.ManagedEventsAsWritten (ManagerDashboard.PopulatedEventDropped) | ManagerDashboard.ManagedEvents (ManagerDashboard.ManagedEventsExact) |
| src/components/Payment/CheckoutForm.jsx:54-103 | `processing` is lowered only on a confirm error or after a `succeeded` intent. | `confirmCardPayment` resolves with an intent whose status is `processing`. Pay and Cancel both stay disabled. | Lower `processing` on every path after confirmation. | medium, not executed | Checkout.SubmitAsWritten (Checkout.UnfinishedIntentLocksForm) | Checkout.Submit (Checkout.CompletedSubmissionReenables) |
| src/pages/dashboard/manager/AddEvent.jsx:17-23 | The "my clubs" query fetches every club and offers all of them in the select (same in EditEvent.jsx:17-23). | A manager of club A, with club B managed by someone else. B is offered as "your club", and the "create a club first" guard never fires while any club exists. | Offer only the clubs the user manages, as src/pages/dashboard/ManagerDashboard.jsx:33 filters them. | medium, not executed | EventForm.ClubOptionsAsWritten (EventForm.ForeignClubOffered, EventForm.GuardAsWrittenIgnoresOwnership) | EventForm.ClubOptions (EventForm.GuardMatchesOwnership) |
