/**
 * The create/edit form's view-model: the form controls, the cross-field rule
 * that the end must come strictly after the start, the conversion of the date
 * and time pickers into request timestamps, the stub image uploads, and the
 * submit dispatch to the store's create or update.
 */
module EventForm {
  import opened Wrappers
  import opened EventModel
  import opened EventStore

  const MsPerMinute: int := 60000
  const MsPerDay: int := 86400000

  type MinuteOfDay = m: int | 0 <= m < 1440

  /**
   * The value of a date or time picker (a `Date`): its calendar day, counted
   * from the epoch, and its hour and minute as minutes into that day.
   * Seconds and milliseconds are left out.
   */
  datatype Moment = Moment(day: int, minuteOfDay: MinuteOfDay)

  /** The `getTime()` value of a moment. */
  function Instant(m: Moment): (r: Timestamp) {
    m.day * MsPerDay + m.minuteOfDay * MsPerMinute
  }

  /** The picker value `new Date(t)` shows. */
  function MomentOf(t: Timestamp): (r: Moment) {
    Moment(t / MsPerDay, (t % MsPerDay) / MsPerMinute)
  }

  /** Instants compare as (day, minute) pairs, day first. */
  lemma InstantOrder(a: Moment, b: Moment)
    ensures Instant(a) < Instant(b) <==>
              a.day < b.day || (a.day == b.day && a.minuteOfDay < b.minuteOfDay)
  {
    if a.day < b.day {
      assert Instant(a) < (a.day + 1) * MsPerDay;
      assert (a.day + 1) * MsPerDay <= b.day * MsPerDay;
    } else if a.day > b.day {
      assert Instant(b) < (b.day + 1) * MsPerDay;
      assert (b.day + 1) * MsPerDay <= a.day * MsPerDay;
    }
  }

  /** Showing an instant in the pickers and reading it back drops the seconds. */
  lemma InstantOfMomentOf(t: Timestamp)
    ensures Instant(MomentOf(t)) == t - t % MsPerMinute
  {
    var d, r := t / MsPerDay, t % MsPerDay;
    var m, s := r / MsPerMinute, r % MsPerMinute;
    assert Instant(MomentOf(t)) == (d * 1440 + m) * MsPerMinute;
    assert t == (d * 1440 + m) * MsPerMinute + s;
    MinuteRemainder(t, d * 1440 + m, s);
  }

  /** Division by a minute is unique: the remainder is the part below a whole minute. */
  lemma MinuteRemainder(t: int, q: int, s: int)
    requires 0 <= s < MsPerMinute && t == q * MsPerMinute + s
    ensures t % MsPerMinute == s
  {
  }

  /** `combineDateTime`: the calendar day of `date` at the hour and minute of `time`. */
  function CombineDateTime(date: Moment, time: Moment): (r: Moment)
    ensures Instant(r) == Instant(date) - date.minuteOfDay * MsPerMinute + time.minuteOfDay * MsPerMinute
    ensures Instant(r) % MsPerMinute == 0
  {
    Moment(date.day, time.minuteOfDay)
  }

  /** A picker pair filled from one instant combines back to that instant's minute. */
  lemma CombineMomentOf(t: Timestamp)
    ensures Instant(CombineDateTime(MomentOf(t), MomentOf(t))) == t - t % MsPerMinute
  {
    InstantOfMomentOf(t);
  }

  // ---------------------------------------------------------------------------
  // The form

  /** The values of the form's controls. */
  datatype FormValue = FormValue(
    title: string,
    description: string,
    startDate: Option<Moment>,
    startTime: Option<Moment>,
    endDate: Option<Moment>,
    endTime: Option<Moment>,
    timezone: string,
    venueName: string,
    venueAddress: string,
    venueCity: string,
    venueState: string,
    venueCountry: string,
    venuePostalCode: string,
    primaryImageUrl: string,
    coverImageUrl: string,
    isPublic: bool)

  /** The form as `initForm` builds it. */
  const InitialForm: FormValue :=
    FormValue("", "", None, None, None, None, "UTC", "", "", "", "", "", "", "", "", true)

  /** The control names, in the order the form declares them. */
  const ControlNames: seq<string> := [
    "title", "description", "startDate", "startTime", "endDate", "endTime", "timezone",
    "venueName", "venueAddress", "venueCity", "venueState", "venueCountry", "venuePostalCode",
    "primaryImageUrl", "coverImageUrl", "isPublic"]

  const PrimaryPlaceholder: string := "https://api.slingacademy.com/public/sample-photos/1.jpeg"
  const CoverPlaceholder: string := "https://api.slingacademy.com/public/sample-photos/2.jpeg"

  predicate DatesPresent(v: FormValue) {
    v.startDate.Some? && v.startTime.Some? && v.endDate.Some? && v.endTime.Some?
  }

  /** The combined start and end of a form whose four pickers are filled. */
  function StartOf(v: FormValue): (r: Timestamp)
    requires DatesPresent(v)
  {
    Instant(CombineDateTime(v.startDate.value, v.startTime.value))
  }

  function EndOf(v: FormValue): (r: Timestamp)
    requires DatesPresent(v)
  {
    Instant(CombineDateTime(v.endDate.value, v.endTime.value))
  }

  /**
   * The cross-field rule: `None` while a picker is empty, otherwise whether
   * the end comes strictly after the start.
   */
  function DateTimeCheck(v: FormValue): (r: Option<bool>)
    ensures r.None? <==> !DatesPresent(v)
    ensures r == Some(true) <==> DatesPresent(v) && StartOf(v) < EndOf(v)
  {
    if DatesPresent(v) then Some(StartOf(v) < EndOf(v)) else None
  }

  /** The rule compares the end day first, then the minutes within the day. */
  lemma DateTimeCheckByDayAndMinute(v: FormValue)
    requires DatesPresent(v)
    ensures DateTimeCheck(v) == Some(true) <==>
              v.startDate.value.day < v.endDate.value.day ||
              (v.startDate.value.day == v.endDate.value.day &&
               v.startTime.value.minuteOfDay < v.endTime.value.minuteOfDay)
  {
    InstantOrder(CombineDateTime(v.startDate.value, v.startTime.value),
                 CombineDateTime(v.endDate.value, v.endTime.value));
  }

  /** On one day, 10:00 to 09:00 is rejected and 10:00 to 11:00 accepted. */
  lemma SameDayExample(v: FormValue, day: int, endMinute: MinuteOfDay)
    requires v.startDate == Some(Moment(day, 600)) && v.startTime == Some(Moment(day, 600))
    requires v.endDate == Some(Moment(day, 540)) && v.endTime == Some(Moment(day, endMinute))
    ensures endMinute == 540 ==> DateTimeCheck(v) == Some(false)
    ensures endMinute == 660 ==> DateTimeCheck(v) == Some(true)
  {
    DateTimeCheckByDayAndMinute(v);
  }

  function EndDateErrors(ok: bool): (r: set<string>) {
    if ok then {} else {"invalidEndDate"}
  }

  function EndTimeErrors(ok: bool): (r: set<string>) {
    if ok then {} else {"invalidEndTime"}
  }

  /** The request `onSubmit` builds from a form whose pickers are filled. */
  function BuildRequest(v: FormValue): (r: CreateEventRequest)
    requires DatesPresent(v)
    ensures r.startDateTime % MsPerMinute == 0 && r.endDateTime % MsPerMinute == 0
    ensures DateTimeCheck(v) == Some(true) ==> r.startDateTime < r.endDateTime
    ensures r.isPublic == v.isPublic
  {
    CreateEventRequest(
      v.title,
      v.description,
      StartOf(v),
      EndOf(v),
      v.timezone,
      VenueRequest(v.venueName, v.venueAddress, v.venueCity, v.venueState, v.venueCountry,
                   v.venuePostalCode),
      v.primaryImageUrl,
      v.coverImageUrl,
      v.isPublic)
  }

  /** The form after `populateForm(e)` patched it. */
  function PopulatedForm(v: FormValue, e: Event): (r: FormValue)
    ensures DatesPresent(r)
    ensures r.isPublic <==> e.isPublic != Some(false)
  {
    v.(
      title := e.title,
      description := e.description,
      startDate := Some(MomentOf(e.startDateTime)),
      startTime := Some(MomentOf(e.startDateTime)),
      endDate := Some(MomentOf(e.endDateTime)),
      endTime := Some(MomentOf(e.endDateTime)),
      timezone := e.timezone,
      venueName := e.venue.venueName,
      venueAddress := e.venue.address1,
      venueCity := e.venue.city,
      venueState := e.venue.state,
      venueCountry := e.venue.country,
      venuePostalCode := e.venue.postalZip,
      primaryImageUrl := e.primaryImageUrl,
      coverImageUrl := e.coverImageUrl,
      isPublic := e.isPublic.GetOr(true))
  }

  /**
   * Submitting a populated form unchanged sends back the event's content, with
   * the start and end cut to the minute and an absent public flag turned into
   * `true`.
   */
  lemma PopulateThenBuild(v: FormValue, e: Event)
    ensures BuildRequest(PopulatedForm(v, e)) ==
            CreateEventRequest(
              e.title, e.description,
              e.startDateTime - e.startDateTime % MsPerMinute,
              e.endDateTime - e.endDateTime % MsPerMinute,
              e.timezone,
              VenueRequest(e.venue.venueName, e.venue.address1, e.venue.city, e.venue.state,
                           e.venue.country, e.venue.postalZip),
              e.primaryImageUrl, e.coverImageUrl, e.isPublic.GetOr(true))
  {
    CombineMomentOf(e.startDateTime);
    CombineMomentOf(e.endDateTime);
  }

  /**
   * Opening an event for edit and saving it unchanged only cuts its times to
   * the minute, makes an absent public flag `true` and stamps `dateUpdated`.
   */
  lemma UnchangedEditNormalises(v: FormValue, e: Event, now: Timestamp)
    ensures MergeUpdate(e, e.id, FullUpdate(BuildRequest(PopulatedForm(v, e)), e.id), now) ==
            e.(startDateTime := e.startDateTime - e.startDateTime % MsPerMinute,
               endDateTime := e.endDateTime - e.endDateTime % MsPerMinute,
               isPublic := Some(e.isPublic.GetOr(true)),
               dateUpdated := Some(now))
  {
    PopulateThenBuild(v, e);
  }

  /** `item.url || placeholder`: a missing or empty URL gives the placeholder. */
  function UploadedUrl(url: Option<string>, placeholder: string): (r: string)
    ensures url.Some? && url.value != "" ==> r == url.value
    ensures url.None? || url.value == "" ==> r == placeholder
  {
    if url.Some? && url.value != "" then url.value else placeholder
  }

  /** What submitting led to. */
  datatype SubmitOutcome = Invalid | Created(event: Event) | Updated(event: Event) | UpdateFailed

  class EventFormComponent {
    const store: EventService
    var form: FormValue
    /** The errors the cross-field rule sets on the end date and end time controls. */
    var endDateErrors: set<string>
    var endTimeErrors: set<string>
    var touched: set<string>
    var loading: bool
    var isEditMode: bool
    var eventId: Option<string>
    var currentEvent: Option<Event>
    var primaryImageUrl: string
    var coverImageUrl: string

    /** With all four pickers filled, the end controls carry exactly the rule's verdict. */
    ghost predicate Valid()
      reads this
    {
      DateTimeCheck(form).Some? ==>
        endDateErrors == EndDateErrors(DateTimeCheck(form).value) &&
        endTimeErrors == EndTimeErrors(DateTimeCheck(form).value)
    }

    /**
     * `initForm` and `checkEditMode`: edit mode exactly when the route carries
     * a non-empty id, and then `loadEventForEdit`, whose subscription hands
     * over the store's current list at once.
     */
    constructor (store: EventService, routeId: Option<string>)
      ensures Valid() && this.store == store
      ensures touched == {} && !loading && eventId == routeId
      ensures isEditMode <==> routeId.Some? && routeId.value != ""
      ensures !isEditMode || GetEventById(store.events, routeId.value).None? ==>
                form == InitialForm && endDateErrors == {} && endTimeErrors == {} &&
                currentEvent.None? && primaryImageUrl == "" && coverImageUrl == ""
      ensures isEditMode && GetEventById(store.events, routeId.value).Some? ==>
                var e := GetEventById(store.events, routeId.value).value;
                currentEvent == Some(e) && form == PopulatedForm(InitialForm, e) &&
                primaryImageUrl == e.primaryImageUrl && coverImageUrl == e.coverImageUrl
    {
      this.store := store;
      form := InitialForm;
      endDateErrors, endTimeErrors, touched := {}, {}, {};
      loading := false;
      eventId := routeId;
      isEditMode := routeId.Some? && routeId.value != "";
      currentEvent := None;
      primaryImageUrl, coverImageUrl := "", "";
      new;
      if isEditMode {
        LoadEventForEdit();
      }
    }

    /** `getPageTitle` */
    function PageTitle(): (title: string)
      reads this
      ensures title == "Edit Event" <==> isEditMode
      ensures title == "Create Event" <==> !isEditMode
    {
      if isEditMode then "Edit Event" else "Create Event"
    }

    /**
     * `validateDateTime`: with an empty picker nothing changes; otherwise both
     * end controls get an error when the end is not after the start, and lose
     * their errors when it is.
     */
    method ValidateDateTime()
      modifies this`endDateErrors, this`endTimeErrors
      ensures Valid()
      ensures !DatesPresent(form) ==>
                endDateErrors == old(endDateErrors) && endTimeErrors == old(endTimeErrors)
      ensures DatesPresent(form) && EndOf(form) <= StartOf(form) ==>
                endDateErrors == {"invalidEndDate"} && endTimeErrors == {"invalidEndTime"}
      ensures DatesPresent(form) && StartOf(form) < EndOf(form) ==>
                endDateErrors == {} && endTimeErrors == {}
    {
      if form.startDate.Some? && form.startTime.Some? && form.endDate.Some? && form.endTime.Some? {
        var startDateTime := CombineDateTime(form.startDate.value, form.startTime.value);
        var endDateTime := CombineDateTime(form.endDate.value, form.endTime.value);
        if Instant(endDateTime) <= Instant(startDateTime) {
          endDateErrors := {"invalidEndDate"};
          endTimeErrors := {"invalidEndTime"};
        } else {
          endDateErrors := {};
          endTimeErrors := {};
        }
      }
    }

    /** A control changed: the form's value-change subscription re-runs the rule. */
    method OnValueChanges(value: FormValue)
      modifies this`form, this`endDateErrors, this`endTimeErrors
      ensures Valid() && form == value
      ensures !DatesPresent(value) ==>
                endDateErrors == old(endDateErrors) && endTimeErrors == old(endTimeErrors)
    {
      form := value;
      ValidateDateTime();
    }

    /** `populateForm(e)`, followed by the rule the patch triggers. */
    method PopulateForm(e: Event)
      modifies this`form, this`endDateErrors, this`endTimeErrors
      modifies this`primaryImageUrl, this`coverImageUrl
      ensures Valid()
      ensures form == PopulatedForm(old(form), e)
      ensures form.isPublic == e.isPublic.GetOr(true)
      ensures primaryImageUrl == e.primaryImageUrl && coverImageUrl == e.coverImageUrl
    {
      form := PopulatedForm(form, e);
      ValidateDateTime();
      primaryImageUrl := e.primaryImageUrl;
      coverImageUrl := e.coverImageUrl;
    }

    /**
     * `loadEventForEdit`: subscribe to the store's event with the route id. The
     * subscription stays open, so `OnEditEventEmitted` runs again on every
     * later emission of the store (see `SubmitUpdate`).
     */
    method LoadEventForEdit()
      requires Valid() && isEditMode && eventId.Some?
      modifies this`loading, this`currentEvent, this`form, this`endDateErrors, this`endTimeErrors
      modifies this`primaryImageUrl, this`coverImageUrl
      ensures Valid() && !loading
      ensures GetEventById(store.events, eventId.value).None? ==>
                form == old(form) && currentEvent == old(currentEvent) &&
                endDateErrors == old(endDateErrors) && endTimeErrors == old(endTimeErrors) &&
                primaryImageUrl == old(primaryImageUrl) && coverImageUrl == old(coverImageUrl)
      ensures GetEventById(store.events, eventId.value).Some? ==>
                var e := GetEventById(store.events, eventId.value).value;
                currentEvent == Some(e) && form == PopulatedForm(old(form), e) &&
                primaryImageUrl == e.primaryImageUrl && coverImageUrl == e.coverImageUrl
    {
      loading := true;
      OnEditEventEmitted();
    }

    /** The edit subscription's callback: populate from the event the store now holds, if any. */
    method OnEditEventEmitted()
      requires Valid() && eventId.Some?
      modifies this`loading, this`currentEvent, this`form, this`endDateErrors, this`endTimeErrors
      modifies this`primaryImageUrl, this`coverImageUrl
      ensures Valid() && !loading
      ensures GetEventById(store.events, eventId.value).None? ==>
                form == old(form) && currentEvent == old(currentEvent) &&
                endDateErrors == old(endDateErrors) && endTimeErrors == old(endTimeErrors) &&
                primaryImageUrl == old(primaryImageUrl) && coverImageUrl == old(coverImageUrl)
      ensures GetEventById(store.events, eventId.value).Some? ==>
                var e := GetEventById(store.events, eventId.value).value;
                currentEvent == Some(e) && form == PopulatedForm(old(form), e) &&
                primaryImageUrl == e.primaryImageUrl && coverImageUrl == e.coverImageUrl
    {
      var found := GetEventById(store.events, eventId.value);
      if found.Some? {
        currentEvent := found;
        PopulateForm(found.value);
      }
      loading := false;
    }

    /** The form is valid: the control validators pass and the end controls carry no error. */
    predicate CanSubmit(fieldsValid: bool)
      reads this
    {
      fieldsValid && DatesPresent(form) && endDateErrors == {} && endTimeErrors == {}
    }

    /** Submitting updates an existing event: edit mode with a non-empty id. */
    predicate IsEditSubmit()
      reads this
    {
      isEditMode && eventId.Some? && eventId.value != ""
    }

    /** `markFormGroupTouched`: every control, one after the other. */
    method MarkFormGroupTouched()
      modifies this`touched
      ensures touched == old(touched) + set n | n in ControlNames
    {
      var k := 0;
      while k < |ControlNames|
        invariant 0 <= k <= |ControlNames|
        invariant touched == old(touched) + set n | n in ControlNames[..k]
      {
        touched := touched + {ControlNames[k]};
        assert ControlNames[..k + 1] == ControlNames[..k] + [ControlNames[k]];
        k := k + 1;
      }
      assert ControlNames[..k] == ControlNames;
    }

    /**
     * `onSubmit`. `fieldsValid` is the verdict of the per-control validators;
     * `idStamp`, `venueStamp` and `now` are the clock readings a create uses.
     * An invalid form touches every control and calls no store operation; a
     * valid one updates the event with the route id in edit mode and creates
     * an event otherwise. A successful update emits the store's new list, and
     * the `getEventById` subscription that `loadEventForEdit` left open
     * re-populates the form from the updated record before the update's own
     * result arrives.
     */
    method OnSubmit(fieldsValid: bool, idStamp: nat, venueStamp: nat, now: Timestamp)
      returns (outcome: SubmitOutcome)
      requires store.Valid() && Valid()
      modifies this`loading, this`touched, this`currentEvent, this`form, this`endDateErrors
      modifies this`endTimeErrors, this`primaryImageUrl, this`coverImageUrl, store`events
      ensures store.Valid() && Valid()
      ensures !outcome.Updated? ==>
                form == old(form) && currentEvent == old(currentEvent) &&
                endDateErrors == old(endDateErrors) && endTimeErrors == old(endTimeErrors) &&
                primaryImageUrl == old(primaryImageUrl) && coverImageUrl == old(coverImageUrl)
      ensures outcome.Updated? ==>
                currentEvent == Some(outcome.event) && form == PopulatedForm(old(form), outcome.event) &&
                primaryImageUrl == outcome.event.primaryImageUrl &&
                coverImageUrl == outcome.event.coverImageUrl
      ensures !old(CanSubmit(fieldsValid)) ==>
                outcome == Invalid && store.events == old(store.events) &&
                touched == old(touched) + (set n | n in ControlNames) && loading == old(loading)
      ensures old(CanSubmit(fieldsValid)) ==> !loading && touched == old(touched)
      ensures old(CanSubmit(fieldsValid)) && old(IsEditSubmit()) ==>
                var req := FullUpdate(BuildRequest(old(form)), eventId.value);
                match FindIndex(old(store.events), eventId.value)
                case None => outcome == UpdateFailed && store.events == old(store.events)
                case Some(i) =>
                  outcome == Updated(MergeUpdate(old(store.events)[i], eventId.value, req, now)) &&
                  store.events == old(store.events)[i := outcome.event]
      ensures old(CanSubmit(fieldsValid)) && !old(IsEditSubmit()) ==>
                outcome == Created(NewEvent(BuildRequest(old(form)), idStamp, venueStamp, now)) &&
                store.events == old(store.events) + [outcome.event]
    {
      if fieldsValid && form.startDate.Some? && form.startTime.Some? && form.endDate.Some? &&
         form.endTime.Some? && endDateErrors == {} && endTimeErrors == {} {
        loading := true;
        var eventData := BuildRequest(form);
        if isEditMode && eventId.Some? && eventId.value != "" {
          outcome := SubmitUpdate(eventData, now);
          loading := false;
        } else {
          outcome := SubmitCreate(eventData, idStamp, venueStamp, now);
        }
      } else {
        MarkFormGroupTouched();
        outcome := Invalid;
      }
    }

    /**
     * The edit branch of `onSubmit`. A successful update emits the store's new
     * list, which reaches the edit subscription before the update's own result.
     */
    method SubmitUpdate(eventData: CreateEventRequest, now: Timestamp) returns (outcome: SubmitOutcome)
      requires store.Valid() && Valid() && IsEditSubmit()
      modifies this`loading, this`currentEvent, this`form, this`endDateErrors, this`endTimeErrors
      modifies this`primaryImageUrl, this`coverImageUrl, store`events
      ensures store.Valid() && Valid()
      ensures FindIndex(old(store.events), eventId.value).None? ==>
                outcome == UpdateFailed && store.events == old(store.events) && unchanged(this)
      ensures FindIndex(old(store.events), eventId.value).Some? ==>
                var i := FindIndex(old(store.events), eventId.value).value;
                var req := FullUpdate(eventData, eventId.value);
                outcome == Updated(MergeUpdate(old(store.events)[i], eventId.value, req, now)) &&
                store.events == old(store.events)[i := outcome.event] &&
                currentEvent == Some(outcome.event) && form == PopulatedForm(old(form), outcome.event) &&
                primaryImageUrl == outcome.event.primaryImageUrl &&
                coverImageUrl == outcome.event.coverImageUrl
    {
      var updateData := FullUpdate(eventData, eventId.value);
      ghost var before := store.events;
      var updated := store.UpdateEvent(eventId.value, updateData, now);
      if updated.Some? {
        FindIndexAfterReplace(before, eventId.value, FindIndex(before, eventId.value).value,
                              updated.value);
        OnEditEventEmitted();
        outcome := Updated(updated.value);
      } else {
        outcome := UpdateFailed;
      }
    }

    /** The create branch of `onSubmit`. */
    method SubmitCreate(eventData: CreateEventRequest, idStamp: nat, venueStamp: nat, now: Timestamp)
      returns (outcome: SubmitOutcome)
      requires store.Valid()
      modifies this`loading, store`events
      ensures store.Valid() && !loading
      ensures outcome == Created(NewEvent(eventData, idStamp, venueStamp, now))
      ensures store.events == old(store.events) + [outcome.event]
    {
      var created := store.CreateEvent(eventData, idStamp, venueStamp, now);
      outcome := Created(created);
      loading := false;
    }

    /**
     * `handlePrimaryImageUpload`: keep the item's URL, or the placeholder, in
     * the field and the form, and cancel the real upload. The rule the patch
     * re-runs leaves the end controls as they were.
     */
    method HandlePrimaryImageUpload(url: Option<string>) returns (proceed: bool)
      requires Valid()
      modifies this`primaryImageUrl, this`form, this`endDateErrors, this`endTimeErrors
      ensures Valid() && !proceed
      ensures primaryImageUrl == UploadedUrl(url, PrimaryPlaceholder)
      ensures form == old(form).(primaryImageUrl := primaryImageUrl)
      ensures endDateErrors == old(endDateErrors) && endTimeErrors == old(endTimeErrors)
    {
      primaryImageUrl := UploadedUrl(url, PrimaryPlaceholder);
      form := form.(primaryImageUrl := primaryImageUrl);
      ValidateDateTime();
      proceed := false;
    }

    /** `handleCoverImageUpload`, the same for the cover image. */
    method HandleCoverImageUpload(url: Option<string>) returns (proceed: bool)
      requires Valid()
      modifies this`coverImageUrl, this`form, this`endDateErrors, this`endTimeErrors
      ensures Valid() && !proceed
      ensures coverImageUrl == UploadedUrl(url, CoverPlaceholder)
      ensures form == old(form).(coverImageUrl := coverImageUrl)
      ensures endDateErrors == old(endDateErrors) && endTimeErrors == old(endTimeErrors)
    {
      coverImageUrl := UploadedUrl(url, CoverPlaceholder);
      form := form.(coverImageUrl := coverImageUrl);
      ValidateDateTime();
      proceed := false;
    }
  }
}
