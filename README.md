# Event planner client: a Dafny model

This project models the client-side logic of an Angular event-planner
application. It covers:

- The **session store** (`AuthService`). It keeps one optional token slot for the browser's `'token'` storage entry, and reads the current user's id out of the token's payload.
- The two **route guards**.
- The **event list** page. It projects server events into view models, filters them by a search text and an RSVP choice, and keeps the create/edit/delete modal state.
- The **event details** page. It counts attendees, looks up badges and labels, checks invites against an email pattern, and updates RSVP and attendees locally.
- The **edit** and **create** modal forms. They validate the fields, build the payload and reset.
- The **sign-in / sign-up** page.

Each component whose fields the source updates becomes a Dafny `class`. Its
methods carry `modifies` frames on the fields they assign and state the
whole new state. Pure lookups and projections become functions, and the
relations between operations are stated as lemmas.

Several parts of the real program are inputs to the model:

- **HTTP outcomes.** `Reply<T>` is either `Ok(body)` or `Err(status, message)`, and it is an input to the method that handles the answer. A method that sends a request with a body returns that request, or `None` when it sends nothing. The list page's reload request has no body: `loadEvents` counts it in `loadRequests`, and `EventsLoaded` handles its answer.
- **Decoding.** `atob` followed by `JSON.parse` becomes a function parameter `decode`.
- **Dates.** `new Date(·)` becomes a parameter `parse: string -> Option<int>`. `None` is an Invalid Date, and today's midnight is the input `today`.
- **Timers.** Each `setTimeout` callback is an explicit later step (`…TimerElapsed`). A component keeps its armed timers as a count, or as a queue of their payloads in the order they fire, so a timer armed twice fires twice.
- **Navigation.** Router navigation is recorded as the list of requested command arrays.

The JavaScript string built-ins the code relies on are modelled in `Text`:

- `String.prototype.trim`, using the ECMAScript WhiteSpace and LineTerminator characters. The same set is the regular-expression class `\s`.
- `includes`.
- `toLowerCase`, restricted to ASCII.

The one other built-in, `token.split('.')[1]`, is `Session.SecondSegment`. It is built on `Text.IndexOf`, a first-index search that the code itself never calls.

`Seqs` holds a generic stable `Filter`.

Behaviour of the code that the model keeps:

- The list page never compares an event organizer's id with the current user. The role comes only from the user's attendee record.
- The list page's `currentUserId` is never assigned, so the projection always runs with `""`. `TransformEvents` takes the id as a parameter, and its lemmas hold for any id.
- The RSVP filter offers `'all'`, `'going'`, `'maybe'` and `'notgoing'`, with no `'pending'` choice.
- The list page's own create form checks its fields untrimmed. The create modal trims title, location and description.
- The create modal builds its payload but sends it nowhere.
- After events load, the list shows all of them unfiltered, even when a search text or RSVP choice is set.
- Removing an attendee on the details page does not recompute the going and pending counts.
- A sign-in answer without a token stores the string `"undefined"`, and the session then counts as logged in.

## Model

| member | source | states |
|---|---|---|
| Session.SecondSegment | src/app/services/auth/auth.ts:42 | `split('.')[1]`: `undefined` exactly when the token has no dot; otherwise a dot-free piece that starts right after the first dot and runs to the next dot or to the end |
| Session.SecondSegmentOfJwt | src/app/services/auth/auth.ts:42 | the segment `split('.')[1]` picks out of `header.payload.signature` (or `header.payload`) is exactly the payload when header and payload hold no dot |
| Session.NoDotNoSegment | src/app/services/auth/auth.ts:42 | a token without a dot has no second segment (`undefined`) |
| Session.PickId | src/app/services/auth/auth.ts:43 | `userId \|\| id \|\| sub`: a truthy `userId` wins, else a truthy `id`, else `sub` as it is; the result is truthy iff some field is; it is `undefined` exactly when neither of the first two is truthy and `sub` is absent |
| Session.AuthService.constructor | src/app/services/auth/auth.ts:9-12 | the slot starts with whatever storage already holds |
| Session.AuthService.SaveToken | src/app/services/auth/auth.ts:22-24 | afterwards `getToken()` returns exactly the saved string, and the session is logged in iff it is non-empty |
| Session.AuthService.GetToken | src/app/services/auth/auth.ts:26-28 | the stored entry, `null` when there is none; it only reads the slot |
| Session.AuthService.Logout | src/app/services/auth/auth.ts:30-32 | afterwards `getToken()` is null and `isLoggedIn()` is false |
| Session.AuthService.IsLoggedIn | src/app/services/auth/auth.ts:34-36 | true iff a token is stored and it is non-empty; it reads the slot only, so it changes nothing |
| Session.AuthService.GetCurrentUserId | src/app/services/auth/auth.ts:38-47 | `''` when no truthy token is stored, when the token has no second segment and when decoding fails; otherwise the id picked from the payload (possibly `undefined`); a query that only reads the slot |
| Session.SavedJwtYieldsUserId | src/app/services/auth/auth.ts:38-47 | after a `header.payload.signature` token is stored whose payload decodes with a truthy `userId`, the current user id is that `userId` |
| Guards.AuthGuard | src/app/shared/guards/auth.guard.ts:5-15 | allows iff logged in; a refusal requests `/auth`, an allowance requests nothing; it only reads the token |
| Guards.NoAuthGuard | src/app/shared/guards/auth.guard.ts:18-28 | allows iff not logged in; a refusal requests `/event-list`, an allowance requests nothing; it only reads the token |
| Guards.ExactlyOneGuardAllows | src/app/shared/guards/auth.guard.ts:5-28 | in every session state exactly one of the two guards allows entry |
| Guards.NoTokenRedirectsToSignIn | src/app/shared/guards/auth.guard.ts:9-14 | with no stored token the protected views refuse and redirect to `/auth` |
| Text.Trim | src/app/components/event-edit/event-edit.ts:60-64 | `trim()` is never longer than its input, and neither end of a non-empty result is white space |
| Text.TrimSlice | src/app/components/event-edit/event-edit.ts:60-64 | `trim()` yields the slice of the input between a white-space-only prefix and a white-space-only suffix, and neither end of the result is white space |
| Text.TrimEmptyIffAllSpace | src/app/components/event-edit/event-edit.ts:60-70 | a trimmed field is empty exactly when the field is all white space |
| Text.TrimIdempotent | src/app/components/event-details/event-details.ts:132 | trimming a trimmed string changes nothing |
| Text.IndexOf | src/app/services/auth/auth.ts:42 | the first index holding the character, and `None` (-1) exactly when it does not occur |
| Text.ToLower | src/app/components/event-list/event-list.ts:141-148 | same length, each character mapped by the ASCII lower-case table |
| Text.LowerSlice | src/app/components/event-list/event-list.ts:141-148 | lower-casing a slice is slicing the lower-cased string |
| Text.LowerLacks | src/app/components/event-list/event-list.ts:141-148 | a lower-case letter absent from a string in both cases is absent from its lower-cased form |
| Text.IncludesIffOccurs | src/app/components/event-list/event-list.ts:144-148 | `s.includes(q)` holds exactly when `q` occurs in `s` at some index |
| Text.MissingCharNotIncluded | src/app/components/event-list/event-list.ts:144-148 | a string missing one of the query's characters does not include the query |
| Seqs.Filter | src/app/components/event-list/event-list.ts:142-155 | `Array.filter`: never longer than its input, and every kept element passes the test |
| Seqs.FilterKeepsFirstOfTwo | src/app/components/event-list/event-list.ts:142-149 | of two elements, a test that accepts the first and rejects the second keeps the first alone |
| Seqs.FilterIsSubsequence | src/app/components/event-list/event-list.ts:142-155 | the filter result is an order-preserving subsequence of the input |
| Seqs.FilterCount | src/app/components/event-list/event-list.ts:142-155 | each element occurs in the result as often as in the input when it passes the test, otherwise never |
| Seqs.FilterMembership | src/app/components/event-list/event-list.ts:142-155 | an element is in the result iff it is in the input and passes the test |
| Seqs.FilterAllPass | src/app/components/event-list/event-list.ts:136-158 | when every element passes the test, the filter returns its input unchanged |
| Seqs.FilterIdempotent | src/app/components/event-list/event-list.ts:142-155 | filtering twice by the same test is filtering once |
| EventForm.CheckForm | src/app/components/event-edit/event-edit.ts:60-83 | a missing field iff the trimmed title, location or description or the date or time is empty; an accepted form carries the trimmed title, location and description with date and time as entered, all non-empty and not before today; a past date only for a date before today |
| EventForm.CheckFormVerdicts | src/app/components/event-edit/event-edit.ts:60-83 | a missing field iff title, location or description is all white space or date or time is empty; else a past date iff the date parses to a day before today; else acceptance of the trimmed title, location and description with date and time as entered, all non-empty and not in the past |
| EventEditModal.EventEdit.constructor | src/app/components/event-edit/event-edit.ts:13-30 | the inputs are bound; flags false, messages, fields and attendees empty, nothing emitted and no timer armed |
| EventEditModal.EventEdit.NgOnInit | src/app/components/event-edit/event-edit.ts:37-44 | with `eventData` every field becomes its value or `''`, and attendees a copy or `[]`; without it nothing changes |
| EventEditModal.EventEdit.CloseModal | src/app/components/event-edit/event-edit.ts:52-55 | one `close` emission is appended |
| EventEditModal.EventEdit.HandleUpdateEvent | src/app/components/event-edit/event-edit.ts:57-107 | both errors are cleared first; a missing field sets `showError` and the required-fields message; a past date sets the future-date message; only an accepted form returns the payload (checked fields plus current attendees), sets `isLoading` and `showSuccess` and arms one more save timer carrying that payload, behind those already armed |
| EventEditModal.EventEdit.SaveTimerElapsed | src/app/components/event-edit/event-edit.ts:100-106 | the oldest armed save timer fires: its payload is emitted on `save`, loading ends and one more closing timer is armed; nothing happens when none is armed |
| EventEditModal.EventEdit.CloseTimerElapsed | src/app/components/event-edit/event-edit.ts:103-105 | one armed closing timer fires and emits `close` once; nothing happens when none is armed |
| EventEditModal.TwoSubmitsEmitTwice | src/app/components/event-edit/event-edit.ts:57-107 | two accepted submits, once all their timers have fired, emit the same payload on `save` twice and `close` twice |
| EventCreateModal.EventCreate.constructor | src/app/components/event-create/event-create.ts:15-24 | flags false, messages and fields empty, no timer armed |
| EventCreateModal.EventCreate.CloseModal | src/app/components/event-create/event-create.ts:36-39 | `close` is emitted once more |
| EventCreateModal.EventCreate.HandleCreateEvent | src/app/components/event-create/event-create.ts:41-85 | both errors are cleared first; a missing field sets `showError` and the message; a past date sets the date error; only an accepted form yields the payload of the five checked fields, sets `showSuccess` and arms one more reset-and-close timer |
| EventCreateModal.EventCreate.ResetTimerElapsed | src/app/components/event-create/event-create.ts:81-84 | one armed timer fires: the form is reset and `close` is emitted; otherwise nothing changes |
| EventCreateModal.EventCreate.ResetForm | src/app/components/event-create/event-create.ts:87-97 | all five fields empty, all flags false and both messages empty |
| EventListPage.FindFrom | src/app/components/event-list/event-list.ts:93-95 | the first index at or after the start whose record belongs to the user (by `_id` or `id`), or none when no later record does |
| EventListPage.FindCurrentAttendee | src/app/components/event-list/event-list.ts:93-95 | `find`: the user's first attendee record, and `undefined` exactly when the user has none |
| EventListPage.StatusToRsvp | src/app/components/event-list/event-list.ts:100-107 | the status table: Going, Maybe and Not Going map to the answers going, maybe and notgoing; the answer is `undefined` exactly for Pending |
| EventListPage.TransformEvent | src/app/components/event-list/event-list.ts:92-124 | id, title, date, time, location and attendees copied; description defaults to `''`; organizer id falls back `_id`, `id`, `''`; role and answer from the user's first record, `attendee` and no answer without one |
| EventListPage.TransformEvents | src/app/components/event-list/event-list.ts:91-126 | one view model per event, in the same order |
| EventListPage.RsvpAbsentIff | src/app/components/event-list/event-list.ts:97-107 | the answer is absent exactly when the user has no record or the first one is Pending |
| EventListPage.OrganizerIdIgnored | src/app/components/event-list/event-list.ts:93-97 | the event's organizer with no attendee record of their own gets the `attendee` role |
| EventListPage.RolesScenario | src/app/components/event-list/event-list.ts:91-187 | three events: organizer by record, invited with Maybe, not invited; roles, answers and labels are Organizer/going, attendee/maybe, attendee/none and 'Organizer', 'Maybe', 'No Response' |
| EventListPage.FilteredIsSubsequence | src/app/components/event-list/event-list.ts:136-158 | the shown list is an order-preserving subsequence of the events |
| EventListPage.FilteredCount | src/app/components/event-list/event-list.ts:136-158 | a retained event is shown as often as it occurs among the events, any other never |
| EventListPage.FilteredMembership | src/app/components/event-list/event-list.ts:136-158 | an event is shown iff it is among the events and passes both the search and the RSVP test |
| EventListPage.FilteredShowsAll | src/app/components/event-list/event-list.ts:136-158 | a blank (white-space-only) query with `'all'` shows the events unchanged |
| EventListPage.ShownEventsContainQuery | src/app/components/event-list/event-list.ts:140-149 | under a non-blank query every shown event has the lower-cased, untrimmed query at some index of its lower-cased title, description or location, its raw date or its lower-cased role |
| EventListPage.WorkshopTitleMatches | src/app/components/event-list/event-list.ts:144-145 | the query "workshop" occurs at index 14 of the lower-cased title "Team Building Workshop", so the event matches |
| EventListPage.KickoffMisses | src/app/components/event-list/event-list.ts:144-148 | an event titled "Kickoff Meeting" whose other searched fields have no 'w' in either case does not match "workshop" |
| EventListPage.WorkshopSearch | src/app/components/event-list/event-list.ts:136-158 | the query "workshop" over "Team Building Workshop" and "Kickoff Meeting" with `'all'` shows the first event only |
| EventListPage.ShownEventsHaveAnswer | src/app/components/event-list/event-list.ts:153-155 | under an RSVP choice every shown event carries exactly that answer |
| EventListPage.FilteredIdempotent | src/app/components/event-list/event-list.ts:136-158 | filtering the shown list again changes nothing |
| EventListPage.GetRSVPBadgeClass | src/app/components/event-list/event-list.ts:168-176 | no answer gives the organizer badge, each known answer its own `badge-` class, any other string `''` |
| EventListPage.GetRSVPLabel | src/app/components/event-list/event-list.ts:178-187 | 'Organizer' iff the role is organizer, whatever the answer; 'No Response' without an answer; otherwise the answer's label; never 'Unknown' |
| EventListPage.CheckNewEvent | src/app/components/event-list/event-list.ts:213-231 | a missing field iff some field is empty, untrimmed; a past date iff all are filled and the date is before today; an accepted form carries the five fields as entered |
| EventListPage.EventList.constructor | src/app/components/event-list/event-list.ts:30-62 | empty lists, loading, filter `'all'`, all modals closed, form cleared, no navigation and no reload request yet, `currentUserId` is `''` |
| EventListPage.EventList.LoadEvents | src/app/components/event-list/event-list.ts:68-70 | loading starts and the request for the events is sent once more |
| EventListPage.EventList.NgOnInit | src/app/components/event-list/event-list.ts:64-66 | loading starts and the events are requested once |
| EventListPage.EventList.EventsLoaded | src/app/components/event-list/event-list.ts:71-86 | a body with events replaces the list by its projection and shows it unfiltered; a 401 removes the stored token, so the session is logged out, and navigates to `/auth`; loading ends in every case; otherwise nothing else changes |
| EventListPage.EventList.ToggleSidebar | src/app/components/event-list/event-list.ts:128-130 | the sidebar flag flips |
| EventListPage.EventList.NavigateToDetails | src/app/components/event-list/event-list.ts:132-134 | navigation to `/event-details` with the id is requested |
| EventListPage.EventList.ApplyFilters | src/app/components/event-list/event-list.ts:136-158 | the shown list becomes the search-then-RSVP filter of the events: a subsequence holding exactly the events that pass both tests |
| EventListPage.EventList.OnSearchChange | src/app/components/event-list/event-list.ts:160-162 | the filters are re-applied |
| EventListPage.EventList.OnFilterChange | src/app/components/event-list/event-list.ts:164-166 | the filters are re-applied |
| EventListPage.EventList.ResetCreateForm | src/app/components/event-list/event-list.ts:199-207 | all five fields and both errors are empty |
| EventListPage.EventList.OpenCreateModal | src/app/components/event-list/event-list.ts:189-192 | the modal is shown with a cleared form |
| EventListPage.EventList.CloseCreateModal | src/app/components/event-list/event-list.ts:194-197 | the modal is hidden and the form cleared |
| EventListPage.EventList.CreateEvent | src/app/components/event-list/event-list.ts:209-252 | any empty (untrimmed) field sets the required-fields error and sends nothing; a past date sets the date error and sends nothing; otherwise the five fields are sent; success sends one reload request, sets loading and closes with a cleared form; failure sends no reload, shows the server's message or the fallback and keeps the form |
| EventListPage.EventList.OpenEditModal | src/app/components/event-list/event-list.ts:254-257 | the event is selected and the edit modal shown |
| EventListPage.EventList.CloseEditModal | src/app/components/event-list/event-list.ts:259-262 | the edit modal is hidden and nothing is selected |
| EventListPage.EventList.SaveEditedEvent | src/app/components/event-list/event-list.ts:264-278 | without a selection nothing is sent; otherwise the update is sent for the selected id; success sends one reload request, sets loading and closes the modal; failure sends no reload and changes nothing |
| EventListPage.EventList.OpenDeleteConfirm | src/app/components/event-list/event-list.ts:280-283 | the event is selected and the dialog shown |
| EventListPage.EventList.CloseDeleteConfirm | src/app/components/event-list/event-list.ts:285-288 | the dialog is hidden and nothing is selected |
| EventListPage.EventList.ConfirmDelete | src/app/components/event-list/event-list.ts:290-305 | without a selection nothing happens; otherwise deletion of the selected id is sent and the dialog closes on success and on failure, and only success sends a reload request and sets loading |
| EventListPage.EventList.Logout | src/app/components/event-list/event-list.ts:307-310 | the stored token is removed, so the session is logged out, and navigation to `/auth` is requested |
| EventDetailsPage.CountsCoverAttendees | src/app/components/event-details/event-details.ts:74-76 | the going and pending counts add up to the number of attendees |
| EventDetailsPage.GetStatusBadgeClass | src/app/components/event-details/event-details.ts:81-87 | a known status gets its own `badge-` class, any other string `''` |
| EventDetailsPage.GetStatusLabel | src/app/components/event-details/event-details.ts:89-95 | 'Going' and 'Pending' for the two statuses, and any other string unchanged |
| EventDetailsPage.ValidEmailMatches | src/app/components/event-details/event-details.ts:160-163 | every address the scan accepts splits as the pattern demands |
| EventDetailsPage.MatchingEmailValid | src/app/components/event-details/event-details.ts:160-163 | every address the pattern matches passes the scan |
| EventDetailsPage.ScanEmailMatchesPattern | src/app/components/event-details/event-details.ts:160-163 | the scan accepts exactly the strings with one '@' after a non-empty local part, a '.' with text on both sides after it, and no white space or further '@' |
| EventDetailsPage.ValidateEmail | src/app/components/event-details/event-details.ts:160-163 | `validateEmail` holds exactly when `^[^\s@]+@[^\s@]+\.[^\s@]+$` matches: some '@' and later '.' split the address into three non-empty groups of characters that are neither white space nor '@' |
| EventDetailsPage.CheckInvite | src/app/components/event-details/event-details.ts:131-148 | the checks of `sendInvite` in order: missing iff the trimmed input is empty; malformed iff it is non-empty and fails the pattern; duplicate iff it passes and some attendee has it; invited iff it passes and no attendee has it, and the invited address is the trimmed input |
| EventDetailsPage.CheckInviteVerdicts | src/app/components/event-details/event-details.ts:131-149 | a blank (white-space-only) field gives the missing-email outcome; a trimmed input the pattern rejects the malformed outcome; an address some attendee has the duplicate outcome; otherwise the trimmed address is invited |
| EventDetailsPage.InvitedAddressIsNew | src/app/components/event-details/event-details.ts:132-150 | an invited address has no surrounding blanks and differs from every attendee's address |
| EventDetailsPage.WithoutAttendee | src/app/components/event-details/event-details.ts:175 | `filter(a => a.id !== attendeeId)`: never longer than the list, and no kept record has that id |
| EventDetailsPage.WithoutAttendeeKeepsOthers | src/app/components/event-details/event-details.ts:172-177 | removal keeps an order-preserving subsequence with no record of that id, and every other record as often as before |
| EventDetailsPage.WithoutAbsentAttendee | src/app/components/event-details/event-details.ts:172-177 | removing an id no attendee has changes nothing |
| EventDetailsPage.EventDetails.constructor | src/app/components/event-details/event-details.ts:34-46 | no event, loading, dialogs closed, messages empty, counts zero |
| EventDetailsPage.EventDetails.LoadEvent | src/app/components/event-details/event-details.ts:74-79 | the event is shown, the counts are those of its attendees and add up to their number, loading ends |
| EventDetailsPage.EventDetails.GoBack | src/app/components/event-details/event-details.ts:97-99 | navigation to `/event-list` is requested |
| EventDetailsPage.EventDetails.DeleteEvent | src/app/components/event-details/event-details.ts:105-107 | the confirmation dialog is shown |
| EventDetailsPage.EventDetails.ConfirmDelete | src/app/components/event-details/event-details.ts:109-113 | the dialog closes and navigation to `/event-list` is requested |
| EventDetailsPage.EventDetails.CancelDelete | src/app/components/event-details/event-details.ts:115-117 | the dialog closes |
| EventDetailsPage.EventDetails.OpenInviteModal | src/app/components/event-details/event-details.ts:119-123 | the invite modal is shown with an empty field and no error |
| EventDetailsPage.EventDetails.CloseInviteModal | src/app/components/event-details/event-details.ts:125-129 | the invite modal is hidden with an empty field and no error |
| EventDetailsPage.EventDetails.SendInvite | src/app/components/event-details/event-details.ts:131-158 | each failed check sets its own message and leaves the field, the success message and the timers alone; a new address clears the error and the field, sets "Invitation sent to …!" and arms a timer |
| EventDetailsPage.EventDetails.InviteTimerElapsed | src/app/components/event-details/event-details.ts:154-157 | an armed timer closes the invite modal and clears the success message; otherwise nothing changes |
| EventDetailsPage.EventDetails.UpdateRSVP | src/app/components/event-details/event-details.ts:165-170 | only the shown event's answer changes; without an event nothing does |
| EventDetailsPage.EventDetails.RemoveAttendee | src/app/components/event-details/event-details.ts:172-177 | only the shown event's attendee list changes, to the list without that id |
| AuthPage.StoredToken | src/app/components/auth/auth.ts:79 | the stored token is the answer's token, or `"undefined"` when the answer has none |
| AuthPage.WelcomeMessage | src/app/components/auth/auth.ts:80 | the server's message when truthy, else a greeting naming the user, or 'User' when no name is given |
| AuthPage.Auth.constructor | src/app/components/auth/auth.ts:10-25 | sign-in panel, all fields and messages empty |
| AuthPage.Auth.ToggleForms | src/app/components/auth/auth.ts:27-32 | the panel flag becomes the argument and all three messages are cleared |
| AuthPage.Auth.Register | src/app/components/auth/auth.ts:34-61 | an empty field sets the error and sends nothing; otherwise the four fields are sent; success sets the server's message or 'Registration successful!', clears the error and all four fields; failure sets the server's message or 'Registration failed.' |
| AuthPage.Auth.Login | src/app/components/auth/auth.ts:63-89 | an empty email or password sets the error and sends nothing; otherwise both are sent; success stores the token, logs in iff it is not `''`, sets the welcome message, clears the error and both fields; failure sets the server's message or 'Invalid email or password.' and keeps the stored token |

## Left out

- The HTTP transport, observables and `subscribe` callbacks are not modelled. Each answer is an input `Reply`, and the request is what the handling method returns. The event service is not part of this model.
- `atob` and `JSON.parse` are not modelled. They become the `decode` parameter, which yields either a failure or the three optional payload fields.
- JavaScript `Date` parsing and `setHours` are not modelled. Dates are abstract ordered values from `parse`, and `today` is an input.
- The `setTimeout` delays are not modelled. Each delayed callback is a separate step method, and the caller chooses when it runs. Armed timers are kept in the order they fire, but the 1500 ms and 500 ms delays that order the edit modal's save and close timers against each other are not captured.
- `console.log`, `alert` and `document.body.style` have no effect on the modelled state. So `editEvent` on the details page is not modelled, and neither are `ngOnDestroy` and `ngOnInit` of the create modal.
- Router navigation is modelled only as the recorded list of requested routes.
- The route-parameter subscription of the details page and its hard-coded mock event are not modelled. `LoadEvent` takes the event to show as an argument.
- Text.ToLower: only ASCII letters are lower-cased; full Unicode case mapping is not modelled.
- EventListPage.GetRSVPBadgeClass: keys inherited from `Object.prototype` (such as `toString`) in its lookup table are not modelled.
- EventDetailsPage.GetStatusBadgeClass: keys inherited from `Object.prototype` in its lookup table are not modelled.
- EventDetailsPage.GetStatusLabel: keys inherited from `Object.prototype` in its lookup table are not modelled.
- The shown event on the details page and the selected event on the list page are values. Aliasing between the objects the source mutates in place is not captured.
- The superseded `src/app/auth/auth.ts` stub, the module declaration and the routing table are not part of this model.
