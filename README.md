# Event management: store and view-models

A Dafny model of the client side of the event-management screens of an
Angular application. The model covers four parts:

- **The event store** (`EventService`). It keeps the organisation's events and
  a loading flag. It fills the list once from a fetched payload, keeping only
  events of organisation `org-123` that are not soft-deleted. After that,
  create, update and soft delete change the list in place.
- **The list screen** (`EventListComponent.applyFilters`). It searches the
  title and description ignoring case and filters on the public flag. It then
  sorts stably by start time and stores the result and its length.
- **The details screen** (`EventDetailsComponent`). It computes ticket and lead
  counts, total capacity, total sales and the formatted venue address.
- **The form** (`EventFormComponent`). It checks that the end comes strictly
  after the start, and turns the date and time pickers into timestamps. It
  fills the form from an event, with an absent public flag shown as on. It
  also handles the stub image uploads and sends a submit to either create or
  update.

The status-colour and visibility-tag mappings appear twice in the source, with
identical code: `event-list.component.ts:180-199` and
`event-details.component.ts:148-167`. The model defines them once, in module
`EventTags`.

Modules, one file each: `Wrappers` (an `Option` for missing, `null` and
`undefined` values), `Text` (ASCII `toLowerCase`, `includes`, and the decimal
digits of an id), `EventModel` (the records), `EventStore`, `EventTags`,
`EventList`, `EventDetails` and `EventForm`.

Representation choices:

- Timestamps are integers: the `getTime()` milliseconds of the ISO strings.
- A date or time picker value is a `Moment`: a calendar day and a minute of
  that day.
- "Now" and the two `Date.now()` readings behind the ids are parameters.
- The store is a class with `events: seq<Event>` and `loading: bool`. Its
  invariant is that every stored event belongs to the organisation.
- The list and form screens are classes whose methods reassign their fields.
- The details aggregates are functions of the shown event.

Four behaviours of the code that are easy to miss:

- **A failed fetch keeps the cached list.** The `of([])` that `catchError`
  returns is never pushed to the events stream. So the list stays as it was
  and only `loading` drops (`event.service.ts:43-47`). `CompleteLoad` states
  this.
- **Ids are not unique within a millisecond.** An id is `event-` plus a
  millisecond clock reading, so two creates in the same millisecond share an
  id. `NewEventIdsDiffer` proves only that different readings give different
  ids.
- **A soft-deleted record stays visible.** It is still found by id
  (`SoftDeletedStillFound`) and still listed (`SoftDeletedStaysListed`). No
  read path drops it. It would fail the load filter (`SoftDeleted`), but that
  filter looks only at the fetched payload. A reload replaces the whole list
  by the payload (`CompleteLoad`), so it undoes every client-side change: a
  record the server still holds as live comes back undeleted.
- **Saving an unchanged edit changes the event.** It turns an absent public
  flag into `true` and cuts the times to the minute
  (`UnchangedEditNormalises`). The edit form's `getEventById` subscription
  stays open, so a successful update re-populates the form from the updated
  record (`OnSubmit`).

## Model

| member | source | states |
|---|---|---|
| `Text.ToLower` | src/app/pages/private/event-management/components/event-list/event-list.component.ts:126-130 | `toLowerCase`: same length, each character lower-cased at its own position (ASCII letters only) |
| `Text.Contains` | src/app/pages/private/event-management/services/event.service.ts:151-152 | `includes`: the empty term is always included, and a term longer than the text never is |
| `Text.ToLowerIdempotent` | src/app/pages/private/event-management/components/event-list/event-list.component.ts:126-130 | lower-casing an already lower-cased term changes nothing, so lower-casing the term once or per comparison agrees |
| `Text.ContainsIffOccurs` | src/app/pages/private/event-management/services/event.service.ts:151-152 | `includes` holds exactly when the term occurs at some position of the text |
| `Text.DecimalInjective` | src/app/pages/private/event-management/services/event.service.ts:63 | different clock readings print as different digit strings |
| `EventStore.Filter` | src/app/pages/private/event-management/services/event.service.ts:35-37 | `Array.prototype.filter`: keeps exactly the elements that pass, and is never longer than the input |
| `EventStore.FilterStartingAt` | src/app/pages/private/event-management/components/event-list/event-list.component.ts:125-139 | `filter` keeps the relative order of what it keeps: the kept events starting at a given instant are the input's events starting then, filtered |
| `EventStore.LoadedEvents` | src/app/pages/private/event-management/services/event.service.ts:32-38 | a successful load keeps exactly the payload's events of `org-123` with no `dateDeleted`; a payload without `events` loads as the empty list |
| `EventStore.LoadedEventsKeepPayloadOrder` | src/app/pages/private/event-management/services/event.service.ts:35-37 | the load filter distributes over concatenation, so kept events stay in payload order |
| `EventStore.LoadedEventsOfCleanPayload` | src/app/pages/private/event-management/services/event.service.ts:35-37 | a payload of only live `org-123` events loads unchanged |
| `EventStore.FindIndex` | src/app/pages/private/event-management/services/event.service.ts:106 | the index of the first event with the id, or none when no event has it |
| `EventStore.GetEventById` | src/app/pages/private/event-management/services/event.service.ts:55-59 | the first event with the id, or none exactly when no event has that id; soft-deleted events are not skipped |
| `EventStore.FindIndexAfterReplace` | src/app/pages/private/event-management/services/event.service.ts:106-124 | writing a record with the same id at the first match keeps it the first match |
| `EventStore.FindAppended` | src/app/pages/private/event-management/services/event.service.ts:98-99 | an appended event is found by its id when no earlier event has that id |
| `EventStore.SearchEvents` | src/app/pages/private/event-management/services/event.service.ts:148-155 | keeps exactly the events whose lower-cased title or description includes the lower-cased term |
| `EventStore.SearchEmptyKeepsAll` | src/app/pages/private/event-management/services/event.service.ts:148-155 | the empty term keeps every event, in order |
| `EventStore.SearchIgnoresTermCase` | src/app/pages/private/event-management/services/event.service.ts:151-152 | searching for a term and for its lower-cased form give the same events |
| `EventStore.FilterEventsByVisibility` | src/app/pages/private/event-management/services/event.service.ts:157-164 | `null` returns the list unchanged; a flag keeps exactly the events whose `isPublic` equals it |
| `EventStore.InsertByStart` | src/app/pages/private/event-management/services/event.service.ts:168-172 | inserting adds exactly the one event (multiset) |
| `EventStore.InsertByStartSorted` | src/app/pages/private/event-management/services/event.service.ts:168-172 | inserting into a list ordered by the comparator keeps it ordered |
| `EventStore.SortEventsByDate` | src/app/pages/private/event-management/services/event.service.ts:166-174 | the result is a permutation of the events, ordered by start time ascending or descending as asked |
| `EventStore.InsertByStartStable` | src/app/pages/private/event-management/services/event.service.ts:168-172 | an insert puts the new event before the existing events with the same start time |
| `EventStore.SortEventsByDateStable` | src/app/pages/private/event-management/services/event.service.ts:168-172 | the sort is stable: events with equal start times keep their relative order |
| `EventStore.NewEvent` | src/app/pages/private/event-management/services/event.service.ts:62-96 | the record `createEvent` builds: organiser `org-123`, no `dateDeleted`, so it passes the load filter; status "Active", no tickets, leads or update date; added at `now`; gallery `[primary, cover]`; venue email `info@venue.com` at 0/0; the request's public flag |
| `EventStore.NewEventIdsDiffer` | src/app/pages/private/event-management/services/event.service.ts:63 | events created from different clock readings have different ids |
| `EventStore.MergeVenue` | src/app/pages/private/event-management/services/event.service.ts:117-120 | a supplied venue overrides the name and the five address fields; id, email, coordinates and gallery are kept; no venue keeps the venue whole |
| `EventStore.MergeUpdate` | src/app/pages/private/event-management/services/event.service.ts:112-122 | for every request property, a supplied value overrides the stored one and an absent one keeps it; a supplied venue overrides its name and address fields. The id is the given one and `dateUpdated = now`; organiser, status, tickets, leads, gallery, `dateAdded`, `dateDeleted` and the venue\'s id, email, coordinates and gallery are kept |
| `EventStore.MergeEmptyUpdate` | src/app/pages/private/event-management/services/event.service.ts:113-122 | a request that supplies nothing changes only the id and `dateUpdated` |
| `EventStore.MergeUpdateComposes` | src/app/pages/private/event-management/services/event.service.ts:113-122 | two updates in turn equal one update with the combined request: a later supplied property wins, an unsupplied one leaves the earlier value |
| `EventStore.FullUpdateMatchesCreate` | src/app/pages/private/event-management/services/event.service.ts:112-122 | updating with every property supplied gives the same title, description, times, timezone, images, public flag and venue address as creating from that request would |
| `EventStore.SoftDeleted` | src/app/pages/private/event-management/services/event.service.ts:139-142 | only `dateDeleted` changes, to `now`; the record would fail the load filter, though no read path drops it |
| `EventStore.SoftDeletedStillFound` | src/app/pages/private/event-management/services/event.service.ts:130-146 | after a soft delete, looking up the id returns the record with `dateDeleted = now` |
| `EventStore.EventService.constructor` | src/app/pages/private/event-management/services/event.service.ts:22-31 | the store starts empty with the first fetch pending and `loading` true |
| `EventStore.EventService.BeginLoad` | src/app/pages/private/event-management/services/event.service.ts:176-178 | a refresh raises `loading` and leaves the list as it was until the fetch settles |
| `EventStore.EventService.CompleteLoad` | src/app/pages/private/event-management/services/event.service.ts:31-48 | success replaces the list by the loaded events; failure leaves the list unchanged; `loading` ends false; the organisation invariant holds |
| `EventStore.EventService.CreateEvent` | src/app/pages/private/event-management/services/event.service.ts:61-102 | appends exactly the record `NewEvent` describes and returns it; the organisation invariant holds |
| `EventStore.EventService.UpdateEvent` | src/app/pages/private/event-management/services/event.service.ts:104-128 | an unknown id returns none and changes nothing; otherwise only the first match is replaced, by the merged record, which is returned |
| `EventStore.EventService.DeleteEvent` | src/app/pages/private/event-management/services/event.service.ts:130-146 | returns true exactly when the id is present; the length never changes; an unknown id changes nothing; otherwise only the first match gets `dateDeleted = now` |
| `EventTags.StatusColor` | src/app/pages/private/event-management/components/event-list/event-list.component.ts:180-191 | green, red and orange exactly for the statuses that lower-case to active, inactive and draft; default for every other status |
| `EventTags.StatusColorIgnoresCase` | src/app/pages/private/event-management/components/event-details/event-details.component.ts:148-159 | a status and its lower-cased form get the same colour |
| `EventTags.ActiveIsGreen` | src/app/pages/private/event-management/components/event-list/event-list.component.ts:180-183 | the status "Active" that created events get shows green |
| `EventTags.VisibilityTag` | src/app/pages/private/event-management/components/event-list/event-list.component.ts:193-199 | Public/blue exactly when `isPublic` is present and true; Private/orange when it is false or absent |
| `EventList.SearchStage` | src/app/pages/private/event-management/components/event-list/event-list.component.ts:125-132 | a missing or empty term keeps the list; otherwise exactly the events whose lower-cased title or description includes the lower-cased term |
| `EventList.VisibilityStage` | src/app/pages/private/event-management/components/event-list/event-list.component.ts:134-139 | no filter keeps the list; a value keeps exactly the events whose `isPublic` is present and equal to `value == "public"` |
| `EventList.ListView` | src/app/pages/private/event-management/components/event-list/event-list.component.ts:122-147 | the shown list is a permutation of the searched and filtered list, ordered non-decreasing by start for "asc" and non-increasing for any other sort value |
| `EventList.ListViewMembership` | src/app/pages/private/event-management/components/event-list/event-list.component.ts:125-139 | an event is shown exactly when it is in the source and passes both the search and the visibility filter |
| `EventList.ListViewStable` | src/app/pages/private/event-management/components/event-list/event-list.component.ts:142-147 | events with equal start times are shown in source order: the listed events starting at a given instant are the source\'s events starting then, put through the search and visibility stages |
| `EventList.ListViewUnfiltered` | src/app/pages/private/event-management/components/event-list/event-list.component.ts:122-147 | without a term or a filter the shown list is the whole source, sorted |
| `EventList.SearchStageAgreesWithStore` | src/app/pages/private/event-management/components/event-list/event-list.component.ts:126-132 | for every present term, the list's search keeps the same events, in the same order, as the store's search |
| `EventList.UnsetVisibilityAlwaysDropped` | src/app/pages/private/event-management/components/event-list/event-list.component.ts:135-139 | an event without a public flag is dropped by both "public" and "private" |
| `EventList.PublicFilterMatchesTag` | src/app/pages/private/event-management/components/event-list/event-list.component.ts:136-138 | the "public" filter keeps exactly the events that show the Public tag |
| `EventList.SoftDeletedStaysListed` | src/app/pages/private/event-management/components/event-list/event-list.component.ts:165-170 | after a soft delete the record is still on the unfiltered list |
| `EventList.EventListComponent.constructor` | src/app/pages/private/event-management/components/event-list/event-list.component.ts:49-61 | no events, empty term, no visibility filter, ascending sort, total 0 |
| `EventList.EventListComponent.ApplyFilters` | src/app/pages/private/event-management/components/event-list/event-list.component.ts:122-151 | `filteredEvents` becomes the list view of the unchanged source and controls, and `total` its length |
| `EventList.EventListComponent.OnEventsEmitted` | src/app/pages/private/event-management/components/event-list/event-list.component.ts:114-119 | a store emission replaces the source and refreshes the shown list |
| `EventList.EventListComponent.OnSearchChanged` | src/app/pages/private/event-management/components/event-list/event-list.component.ts:81-89 | a new search term refreshes the shown list |
| `EventList.EventListComponent.OnVisibilityChanged` | src/app/pages/private/event-management/components/event-list/event-list.component.ts:91-97 | a new visibility value refreshes the shown list |
| `EventList.EventListComponent.OnSortOrderChanged` | src/app/pages/private/event-management/components/event-list/event-list.component.ts:99-105 | a new sort order refreshes the shown list |
| `EventList.EventListComponent.OnDeleteEvent` | src/app/pages/private/event-management/components/event-list/event-list.component.ts:165-174 | succeeds exactly when the store finds the id. The store\'s first match then gets `dateDeleted = now` and the screen shows the store\'s new list; otherwise neither changes. The search, visibility and sort controls are untouched |
| `EventDetails.TicketCount` | src/app/pages/private/event-management/components/event-details/event-details.component.ts:169-171 | the number of tickets; 0 without an event |
| `EventDetails.LeadCount` | src/app/pages/private/event-management/components/event-details/event-details.component.ts:173-175 | the number of leads; 0 without an event |
| `EventDetails.CapacityFoldIsSum` | src/app/pages/private/event-management/components/event-details/event-details.component.ts:178 | the `reduce` over tickets equals its start value plus the sum of the capacities |
| `EventDetails.SumCapacityAppend` | src/app/pages/private/event-management/components/event-details/event-details.component.ts:178 | the capacity of two ticket lists together is the sum of their capacities |
| `EventDetails.SumCapacityNonNegative` | src/app/pages/private/event-management/components/event-details/event-details.component.ts:177-179 | non-negative capacities add up to a non-negative total |
| `EventDetails.TotalTicketCapacity` | src/app/pages/private/event-management/components/event-details/event-details.component.ts:177-179 | the sum of the tickets' capacities; 0 without an event |
| `EventDetails.QuantityFoldIsSum` | src/app/pages/private/event-management/components/event-details/event-details.component.ts:183 | the inner `reduce` equals its start value plus the sum of the quantities |
| `EventDetails.SumQuantityAppend` | src/app/pages/private/event-management/components/event-details/event-details.component.ts:183 | the quantities of two purchase lists together add up to the sum of both |
| `EventDetails.SalesFoldIsSum` | src/app/pages/private/event-management/components/event-details/event-details.component.ts:182-184 | the nested `reduce` equals its start value plus the quantities of all purchases of all tickets |
| `EventDetails.TotalTicketSales` | src/app/pages/private/event-management/components/event-details/event-details.component.ts:181-185 | the quantities of every purchase across all tickets, added up; 0 without an event |
| `EventDetails.SumQuantityNonNegative` | src/app/pages/private/event-management/components/event-details/event-details.component.ts:181-185 | non-negative quantities add up to a non-negative total |
| `EventDetails.WorkedExample` | src/app/pages/private/event-management/components/event-details/event-details.component.ts:177-185 | tickets of capacity 100 (purchases 3 and 2) and 50 (none) give capacity 150 and sales 5 |
| `EventDetails.VenueFullAddress` | src/app/pages/private/event-management/components/event-details/event-details.component.ts:187-192 | `address1, city, state postalZip, country`; the empty string without an event |
| `EventForm.InstantOrder` | src/app/pages/private/event-management/components/event-form/event-form.component.ts:178-184 | combined instants compare by day first, then by minute of the day |
| `EventForm.InstantOfMomentOf` | src/app/pages/private/event-management/components/event-form/event-form.component.ts:145-154 | showing an instant in the pickers and reading it back drops only the seconds and milliseconds |
| `EventForm.CombineDateTime` | src/app/pages/private/event-management/components/event-form/event-form.component.ts:257-261 | the result is midnight of `date`'s day plus the hour and minute of `time`, on a whole minute |
| `EventForm.CombineMomentOf` | src/app/pages/private/event-management/components/event-form/event-form.component.ts:145-154 | a date and time picker filled from one instant combine back to that instant cut to the minute |
| `EventForm.DateTimeCheck` | src/app/pages/private/event-management/components/event-form/event-form.component.ts:177-184 | no verdict while a picker is empty; otherwise acceptance exactly when the combined end is strictly after the combined start |
| `EventForm.DateTimeCheckByDayAndMinute` | src/app/pages/private/event-management/components/event-form/event-form.component.ts:177-184 | the end is accepted exactly on a later day, or on the same day at a later minute; equal instants are rejected |
| `EventForm.SameDayExample` | src/app/pages/private/event-management/components/event-form/event-form.component.ts:184-190 | on one day, 10:00 to 09:00 is rejected and 10:00 to 11:00 accepted |
| `EventForm.BuildRequest` | src/app/pages/private/event-management/components/event-form/event-form.component.ts:199-220 | the request's start and end are whole minutes; a form the rule accepts yields a start strictly before the end; the public flag is the form's |
| `EventForm.PopulatedForm` | src/app/pages/private/event-management/components/event-form/event-form.component.ts:144-165 | all four pickers are filled; the public switch is on unless the event's flag is present and false |
| `EventForm.PopulateThenBuild` | src/app/pages/private/event-management/components/event-form/event-form.component.ts:148-164 | submitting a freshly populated form sends back the event's fields. The times are cut to the minute and an absent public flag becomes true |
| `EventForm.UnchangedEditNormalises` | src/app/pages/private/event-management/components/event-form/event-form.component.ts:222-224 | saving an unchanged edit changes the stored event only in its times (cut to the minute), its public flag (absent becomes true) and `dateUpdated` |
| `EventForm.UploadedUrl` | src/app/pages/private/event-management/components/event-form/event-form.component.ts:277 | a present non-empty URL is kept; a missing or empty one gives the placeholder |
| `EventForm.EventFormComponent.constructor` | src/app/pages/private/event-management/components/event-form/event-form.component.ts:93-128 | the initial form values; edit mode exactly when the route id is present and non-empty. In edit mode `loadEventForEdit` runs at once: when the store holds the event it becomes the current event, fills the form from the initial values and gives the image URLs; otherwise the initial state stays |
| `EventForm.EventFormComponent.PageTitle` | src/app/pages/private/event-management/components/event-form/event-form.component.ts:289-291 | "Edit Event" exactly in edit mode, "Create Event" otherwise |
| `EventForm.EventFormComponent.ValidateDateTime` | src/app/pages/private/event-management/components/event-form/event-form.component.ts:171-192 | an empty picker changes nothing; otherwise both end controls get `invalidEndDate`/`invalidEndTime` when the end is not after the start, and no error when it is |
| `EventForm.EventFormComponent.OnValueChanges` | src/app/pages/private/event-management/components/event-form/event-form.component.ts:114-118 | every value change re-runs the rule, so the end controls' errors match the pickers whenever all four are filled |
| `EventForm.EventFormComponent.PopulateForm` | src/app/pages/private/event-management/components/event-form/event-form.component.ts:144-169 | patches the form from the event, with the public switch `isPublic ?? true`, copies the image URLs, and re-runs the rule |
| `EventForm.EventFormComponent.LoadEventForEdit` | src/app/pages/private/event-management/components/event-form/event-form.component.ts:130-142 | a found event becomes the current event, fills the form and gives the image URLs; a missing one changes neither form, errors, URLs nor current event; touched controls are kept; `loading` ends false |
| `EventForm.EventFormComponent.OnEditEventEmitted` | src/app/pages/private/event-management/components/event-form/event-form.component.ts:133-141 | the edit subscription's callback: the event the store now holds under the route id becomes the current event, fills the form and gives the image URLs; when there is none, nothing changes; `loading` ends false |
| `EventForm.EventFormComponent.MarkFormGroupTouched` | src/app/pages/private/event-management/components/event-form/event-form.component.ts:263-268 | every control is marked touched |
| `EventForm.EventFormComponent.OnSubmit` | src/app/pages/private/event-management/components/event-form/event-form.component.ts:194-255 | an invalid form touches every control and leaves the store alone. A valid form in edit mode with an id updates that event, or reports failure when the id is unknown. Any other valid form creates an event from the form. A successful update re-populates the form, the current event and the image URLs from the updated record; every other outcome leaves them as they were. `loading` ends false |
| `EventForm.EventFormComponent.SubmitUpdate` | src/app/pages/private/event-management/components/event-form/event-form.component.ts:222-237 | an unknown id changes neither the store nor the screen and reports failure; otherwise the store's first match becomes the merged record, which is returned, and the screen is re-populated from it |
| `EventForm.EventFormComponent.SubmitCreate` | src/app/pages/private/event-management/components/event-form/event-form.component.ts:238-249 | appends the record `createEvent` builds from the request and returns it; `loading` ends false |
| `EventForm.EventFormComponent.HandlePrimaryImageUpload` | src/app/pages/private/event-management/components/event-form/event-form.component.ts:275-280 | the field and the form control get the item's URL or the placeholder; the end controls keep their errors; returns false |
| `EventForm.EventFormComponent.HandleCoverImageUpload` | src/app/pages/private/event-management/components/event-form/event-form.component.ts:282-287 | the same for the cover image, with its own placeholder |

## Left out

- HTTP and RxJS plumbing (`BehaviorSubject`, `pipe`, `subscribe`, `takeUntil`, `debounceTime`, `distinctUntilChanged`): the store's two streams are its two fields, and a fetch is an input that has succeeded or failed. The 300 ms debounce of the search box is not modelled: `OnSearchChanged` is the debounced emission.
- Aliasing of the emitted array: `updateEvent` and `deleteEvent` write into the array that was last emitted (lines 124 and 139), which subscribers still hold. The model works on values, so that in-place write shows only as the new list.
- `getEventById` stays subscribed and re-emits on every change; the model evaluates it on the current list.
- Payload shape errors: a raw event without `organizer` makes the filter throw, which the code routes to the failure path. A `dateDeleted` that is missing rather than `null` fails the load filter. The payload is typed here, so neither case can occur.
- Object spreads copy properties whose value is `undefined`. The model reads `None` as "not supplied", so such a property does not override the stored value.
- `Date` parsing, ISO and locale formatting (`toISOString`, `formatDate`, `formatTime`, `formatDateTime`), time zones and invalid dates (NaN). Timestamps are integers and pickers are a UTC-style day and minute.
- `validateDateTime` keeps the start date's seconds while `combineDateTime` zeroes them. Both are modelled at minute granularity.
- Angular's per-control validators (`required`, `minLength`, `maxLength`): their verdict is the `fieldsValid` parameter of `OnSubmit`. Their re-evaluation, which can replace the cross-field errors on a control, is not modelled.
- Navigation, toast messages, the clipboard and `navigator.share` (`onCopyPublicLink`, `onShareEvent`, `onCancel`, `onEditEvent`, `onViewEvent`, `onBackToList`, the details screen's `loadEventDetails`): browser and framework calls with no logic to state.
- Lower-casing covers the ASCII letters only; Unicode case mapping in `toLowerCase` is not modelled.
- JavaScript numbers are modelled as unbounded integers in the capacity and quantity sums: no floating point, overflow or fractional quantities.
- `SortEventsByDate`: the default `ascending = true` of `sortEventsByDate` is not modelled; callers pass the direction.
- The timezone options list, the routes and the module file: static data and framework wiring.
- `EventDetails.VenueFullAddress`: the venue of a typed event is always present, so the "no venue" case covers only the missing event.
