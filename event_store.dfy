/**
 * The client-side event store: the ordered list of the organisation's events
 * and a loading flag, filled once from a fetched payload and then changed in
 * place by create, update and soft delete. The read-side derivations (find by
 * id, search, visibility filter, date sort) are functions of the current list.
 */
module EventStore {
  import opened Wrappers
  import opened Text
  import opened EventModel

  /** The organisation every stored event belongs to. */
  const MockOrgId: string := "org-123"
  const MockBusinessName: string := "Event Corp"
  const DefaultVenueEmail: string := "info@venue.com"

  // ---------------------------------------------------------------------------
  // Array.prototype.filter

  function Filter<T(!new)>(s: seq<T>, p: T -> bool): (r: seq<T>)
    ensures |r| <= |s|
    ensures forall x :: x in r <==> x in s && p(x)
  {
    if s == [] then [] else (if p(s[0]) then [s[0]] else []) + Filter(s[1..], p)
  }

  /** Filtering keeps the relative order: it distributes over concatenation. */
  lemma {:induction false} FilterConcat<T(!new)>(a: seq<T>, b: seq<T>, p: T -> bool)
    ensures Filter(a + b, p) == Filter(a, p) + Filter(b, p)
  {
    if a == [] {
      assert a + b == b;
    } else {
      var ab := a + b;
      assert ab[0] == a[0];
      assert ab[1..] == a[1..] + b;
      var head := if p(a[0]) then [a[0]] else [];
      assert Filter(ab, p) == head + Filter(a[1..] + b, p);
      assert Filter(a, p) == head + Filter(a[1..], p);
      FilterConcat(a[1..], b, p);
    }
  }

  /** A filter every element passes returns the list unchanged. */
  lemma {:induction false} FilterKeepsAll<T(!new)>(s: seq<T>, p: T -> bool)
    requires forall x :: x in s ==> p(x)
    ensures Filter(s, p) == s
  {
    if s != [] {
      FilterKeepsAll(s[1..], p);
    }
  }

  // ---------------------------------------------------------------------------
  // loadEvents

  /** The fetched document: its `events` property may be missing. */
  datatype Payload = Payload(events: Option<seq<Event>>)

  /** How the single GET ends: with a document, or with a transport/parse error. */
  datatype FetchResult = Fetched(response: Payload) | FetchFailed

  /** The load filter: the event belongs to the organisation and is not soft-deleted. */
  predicate IsVisibleOnLoad(e: Event) {
    e.organizer.id == MockOrgId && e.dateDeleted.None?
  }

  /** The events a successful load keeps, in payload order. */
  function LoadedEvents(p: Payload): (r: seq<Event>)
    ensures p.events.None? ==> r == []
    ensures forall e :: e in r <==> p.events.Some? && e in p.events.value && IsVisibleOnLoad(e)
  {
    Filter(p.events.GetOr([]), IsVisibleOnLoad)
  }

  /** A payload that splits into two parts loads as the two parts loaded in turn. */
  lemma LoadedEventsKeepPayloadOrder(a: seq<Event>, b: seq<Event>)
    ensures LoadedEvents(Payload(Some(a + b))) == LoadedEvents(Payload(Some(a))) + LoadedEvents(Payload(Some(b)))
  {
    FilterConcat(a, b, IsVisibleOnLoad);
  }

  /** A payload holding only the organisation's live events loads unchanged. */
  lemma LoadedEventsOfCleanPayload(events: seq<Event>)
    requires forall e :: e in events ==> IsVisibleOnLoad(e)
    ensures LoadedEvents(Payload(Some(events))) == events
  {
    FilterKeepsAll(events, IsVisibleOnLoad);
  }

  // ---------------------------------------------------------------------------
  // findIndex / getEventById

  /** `findIndex(event => event.id === id)`, with `None` for -1. */
  function FindIndex(events: seq<Event>, id: string): (r: Option<nat>)
    ensures r.Some? ==> r.value < |events| && events[r.value].id == id
    ensures r.Some? ==> forall j :: 0 <= j < r.value ==> events[j].id != id
    ensures r.None? ==> forall j :: 0 <= j < |events| ==> events[j].id != id
  {
    if events == [] then None
    else if events[0].id == id then Some(0)
    else match FindIndex(events[1..], id)
      case None => None
      case Some(i) => Some(i + 1)
  }

  /**
   * `getEventById`: the first event with the id, or `None`. Soft-deleted
   * events are not skipped.
   */
  function GetEventById(events: seq<Event>, id: string): (r: Option<Event>)
    ensures r.None? <==> forall j :: 0 <= j < |events| ==> events[j].id != id
    ensures r.Some? ==> exists i :: 0 <= i < |events| && events[i] == r.value && r.value.id == id &&
                                   forall j :: 0 <= j < i ==> events[j].id != id
  {
    match FindIndex(events, id)
    case None => None
    case Some(i) => Some(events[i])
  }

  /** Replacing the first match by a record with the same id keeps it the first match. */
  lemma FindIndexAfterReplace(events: seq<Event>, id: string, i: nat, e: Event)
    requires FindIndex(events, id) == Some(i)
    requires e.id == id
    ensures FindIndex(events[i := e], id) == Some(i)
  {
    var k := FindIndex(events[i := e], id);
    assert events[i := e][i].id == id;
    if k.Some? {
      assert !(k.value < i);
      assert !(i < k.value);
    }
  }

  /** An appended event is found by its id when no earlier event carries that id. */
  lemma {:induction false} FindAppended(events: seq<Event>, e: Event)
    requires forall j :: 0 <= j < |events| ==> events[j].id != e.id
    ensures GetEventById(events + [e], e.id) == Some(e)
  {
    var s := events + [e];
    var k := FindIndex(s, e.id);
    assert s[|events|] == e;
    assert k.Some?;
    assert k.value == |events|;
  }

  // ---------------------------------------------------------------------------
  // searchEvents / filterEventsByVisibility

  /** The lower-cased title or description includes the (already lower-cased) term. */
  predicate MatchesSearch(e: Event, lowerTerm: string) {
    Contains(ToLower(e.title), lowerTerm) || Contains(ToLower(e.description), lowerTerm)
  }

  function SearchEvents(events: seq<Event>, term: string): (r: seq<Event>)
    ensures forall e :: e in r <==> e in events && MatchesSearch(e, ToLower(term))
  {
    Filter(events, (e: Event) => MatchesSearch(e, ToLower(term)))
  }

  /** Searching for the empty string keeps every event, in order. */
  lemma SearchEmptyKeepsAll(events: seq<Event>)
    ensures SearchEvents(events, "") == events
  {
    assert ToLower("") == "";
    forall e | e in events
      ensures MatchesSearch(e, "")
    {
      ContainsEmpty(ToLower(e.title));
    }
    FilterKeepsAll(events, (e: Event) => MatchesSearch(e, ToLower("")));
  }

  /** Search ignores the case of the term. */
  lemma SearchIgnoresTermCase(events: seq<Event>, term: string)
    ensures SearchEvents(events, ToLower(term)) == SearchEvents(events, term)
  {
    ToLowerIdempotent(term);
  }

  function FilterEventsByVisibility(events: seq<Event>, isPublic: Option<bool>): (r: seq<Event>)
    ensures isPublic.None? ==> r == events
    ensures isPublic.Some? ==> forall e :: e in r <==> e in events && e.isPublic == isPublic
  {
    match isPublic
    case None => events
    case Some(b) => Filter(events, (e: Event) => e.isPublic == Some(b))
  }

  // ---------------------------------------------------------------------------
  // sortEventsByDate: a stable sort on a copy, by start time

  /** The comparator's order: `a` may come before `b`. */
  predicate Precedes(a: Event, b: Event, ascending: bool) {
    if ascending then a.startDateTime <= b.startDateTime else b.startDateTime <= a.startDateTime
  }

  predicate SortedByStart(s: seq<Event>, ascending: bool) {
    forall i, j :: 0 <= i < j < |s| ==> Precedes(s[i], s[j], ascending)
  }

  /** Insert `x` before the first element it may precede. */
  function InsertByStart(x: Event, s: seq<Event>, ascending: bool): (r: seq<Event>)
    ensures multiset(r) == multiset(s) + multiset{x}
  {
    if s == [] || Precedes(x, s[0], ascending) then [x] + s
    else
      assert s == [s[0]] + s[1..];
      [s[0]] + InsertByStart(x, s[1..], ascending)
  }

  /** Inserting into a sorted list keeps it sorted. */
  lemma {:induction false} InsertByStartSorted(x: Event, s: seq<Event>, ascending: bool)
    requires SortedByStart(s, ascending)
    ensures SortedByStart(InsertByStart(x, s, ascending), ascending)
  {
    if s != [] && !Precedes(x, s[0], ascending) {
      var rest := InsertByStart(x, s[1..], ascending);
      InsertByStartSorted(x, s[1..], ascending);
      forall e | e in s[1..]
        ensures Precedes(s[0], e, ascending)
      {
        var j :| 0 <= j < |s[1..]| && s[1..][j] == e;
        assert s[j + 1] == e;
      }
      PrecedesAllAfterInsert(s[0], x, s[1..], ascending);
      SortedCons(s[0], rest, ascending);
    }
  }

  /** A bound below every element and below `x` is a bound below the insertion. */
  lemma PrecedesAllAfterInsert(y: Event, x: Event, t: seq<Event>, ascending: bool)
    requires Precedes(y, x, ascending)
    requires forall e :: e in t ==> Precedes(y, e, ascending)
    ensures forall e :: e in InsertByStart(x, t, ascending) ==> Precedes(y, e, ascending)
  {
    var r := InsertByStart(x, t, ascending);
    forall e | e in r
      ensures Precedes(y, e, ascending)
    {
      assert e in multiset(r);
    }
  }

  /** Putting a lower bound in front of a sorted list keeps it sorted. */
  lemma SortedCons(y: Event, t: seq<Event>, ascending: bool)
    requires SortedByStart(t, ascending)
    requires forall e :: e in t ==> Precedes(y, e, ascending)
    ensures SortedByStart([y] + t, ascending)
  {
    var r := [y] + t;
    forall i, j | 0 <= i < j < |r|
      ensures Precedes(r[i], r[j], ascending)
    {
      assert r[j] == t[j - 1];
      if i > 0 {
        assert r[i] == t[i - 1];
      }
    }
  }

  function SortEventsByDate(events: seq<Event>, ascending: bool): (r: seq<Event>)
    ensures multiset(r) == multiset(events)
    ensures SortedByStart(r, ascending)
  {
    if events == [] then []
    else
      assert events == [events[0]] + events[1..];
      var rest := SortEventsByDate(events[1..], ascending);
      InsertByStartSorted(events[0], rest, ascending);
      InsertByStart(events[0], rest, ascending)
  }

  /** The events that start at instant `t`, in list order. */
  function StartingAt(s: seq<Event>, t: Timestamp): (r: seq<Event>) {
    if s == [] then [] else (if s[0].startDateTime == t then [s[0]] else []) + StartingAt(s[1..], t)
  }

  lemma {:induction false} StartingAtConcat(a: seq<Event>, b: seq<Event>, t: Timestamp)
    ensures StartingAt(a + b, t) == StartingAt(a, t) + StartingAt(b, t)
  {
    if a == [] {
      assert a + b == b;
    } else {
      var ab := a + b;
      assert ab[0] == a[0];
      assert ab[1..] == a[1..] + b;
      var head := if a[0].startDateTime == t then [a[0]] else [];
      assert StartingAt(ab, t) == head + StartingAt(a[1..] + b, t);
      assert StartingAt(a, t) == head + StartingAt(a[1..], t);
      StartingAtConcat(a[1..], b, t);
    }
  }

  /**
   * A filter keeps the relative order of what it keeps: the events of a
   * filtered list that start at `t` are those of the whole list, filtered.
   */
  lemma {:induction false} FilterStartingAt(s: seq<Event>, p: Event -> bool, t: Timestamp)
    ensures StartingAt(Filter(s, p), t) == Filter(StartingAt(s, t), p)
  {
    if s != [] {
      var x := s[0];
      var kept := if p(x) then [x] else [];
      var tied := if x.startDateTime == t then [x] else [];
      assert Filter(s, p) == kept + Filter(s[1..], p);
      assert StartingAt(s, t) == tied + StartingAt(s[1..], t);
      StartingAtConcat(kept, Filter(s[1..], p), t);
      FilterConcat(tied, StartingAt(s[1..], t), p);
      FilterStartingAt(s[1..], p, t);
      assert StartingAt(kept, t) == Filter(tied, p) by {
        if p(x) {
          assert StartingAt(kept, t) == tied + StartingAt([], t);
        }
        if x.startDateTime == t {
          assert Filter(tied, p) == kept + Filter([], p);
        }
      }
    }
  }

  lemma {:induction false} InsertByStartStable(x: Event, s: seq<Event>, ascending: bool, t: Timestamp)
    ensures StartingAt(InsertByStart(x, s, ascending), t) ==
            (if x.startDateTime == t then [x] else []) + StartingAt(s, t)
  {
    if s != [] && !Precedes(x, s[0], ascending) {
      InsertByStartStable(x, s[1..], ascending, t);
      var r := InsertByStart(x, s, ascending);
      assert r[0] == s[0] && r[1..] == InsertByStart(x, s[1..], ascending);
    }
  }

  /** The sort is stable: events with equal start times keep their relative order. */
  lemma {:induction false} SortEventsByDateStable(events: seq<Event>, ascending: bool, t: Timestamp)
    ensures StartingAt(SortEventsByDate(events, ascending), t) == StartingAt(events, t)
  {
    if events != [] {
      SortEventsByDateStable(events[1..], ascending, t);
      InsertByStartStable(events[0], SortEventsByDate(events[1..], ascending), ascending, t);
    }
  }

  // ---------------------------------------------------------------------------
  // createEvent / updateEvent / deleteEvent

  /**
   * The record `createEvent` builds. `idStamp` and `venueStamp` are the two
   * `Date.now()` readings behind the ids; `now` is the creation instant.
   */
  function NewEvent(req: CreateEventRequest, idStamp: nat, venueStamp: nat, now: Timestamp): (r: Event)
    // A created event is one the load filter would keep.
    ensures r.organizer.id == MockOrgId && r.dateDeleted.None? && IsVisibleOnLoad(r)
    ensures r.status == "Active" && r.tickets == [] && r.leads == [] && r.dateUpdated.None?
    ensures r.dateAdded == now && r.isPublic == Some(req.isPublic)
    ensures r.imageGalleryUrls == [req.primaryImageUrl, req.coverImageUrl]
    ensures r.venue.email == DefaultVenueEmail && r.venue.latitude == 0.0 && r.venue.longitude == 0.0
  {
    Event(
      id := "event-" + Decimal(idStamp),
      title := req.title,
      status := "Active",
      organizer := Organizer(MockOrgId, MockBusinessName),
      startDateTime := req.startDateTime,
      endDateTime := req.endDateTime,
      timezone := req.timezone,
      description := req.description,
      primaryImageUrl := req.primaryImageUrl,
      coverImageUrl := req.coverImageUrl,
      imageGalleryUrls := [req.primaryImageUrl, req.coverImageUrl],
      venue := Venue(
        id := "venue-" + Decimal(venueStamp),
        email := DefaultVenueEmail,
        venueName := req.venue.venueName,
        address1 := req.venue.address1,
        city := req.venue.city,
        state := req.venue.state,
        country := req.venue.country,
        postalZip := req.venue.postalZip,
        latitude := 0.0,
        longitude := 0.0,
        imageGalleryUrls := []),
      tickets := [],
      leads := [],
      dateAdded := now,
      dateUpdated := None,
      dateDeleted := None,
      isPublic := Some(req.isPublic))
  }

  /** Events created from different clock readings get different ids. */
  lemma NewEventIdsDiffer(req1: CreateEventRequest, req2: CreateEventRequest, stamp1: nat, stamp2: nat,
                          v1: nat, v2: nat, now1: Timestamp, now2: Timestamp)
    requires stamp1 != stamp2
    ensures NewEvent(req1, stamp1, v1, now1).id != NewEvent(req2, stamp2, v2, now2).id
  {
    var p := "event-";
    if p + Decimal(stamp1) == p + Decimal(stamp2) {
      assert Decimal(stamp1) == (p + Decimal(stamp1))[|p|..];
      assert Decimal(stamp2) == (p + Decimal(stamp2))[|p|..];
      DecimalInjective(stamp1, stamp2);
    }
  }

  /** `{ ...venue, ...request.venue }`: a supplied venue overrides the six address fields. */
  function MergeVenue(v: Venue, req: Option<VenueRequest>): (r: Venue)
    ensures req.None? ==> r == v
    ensures req.Some? ==>
              r.venueName == req.value.venueName && r.address1 == req.value.address1 &&
              r.city == req.value.city && r.state == req.value.state &&
              r.country == req.value.country && r.postalZip == req.value.postalZip
    ensures r.id == v.id && r.email == v.email && r.latitude == v.latitude &&
            r.longitude == v.longitude && r.imageGalleryUrls == v.imageGalleryUrls
  {
    match req
    case None => v
    case Some(r) =>
      v.(venueName := r.venueName, address1 := r.address1, city := r.city,
         state := r.state, country := r.country, postalZip := r.postalZip)
  }

  /**
   * The record `updateEvent` writes back: the request's supplied properties
   * over the stored ones, the venue merged field by field, the given id and
   * `dateUpdated` set to `now`.
   */
  function MergeUpdate(e: Event, id: string, req: UpdateEventRequest, now: Timestamp): (r: Event)
    ensures r.id == id && r.dateUpdated == Some(now)
    ensures r.organizer == e.organizer && r.status == e.status && r.dateAdded == e.dateAdded
    ensures r.dateDeleted == e.dateDeleted && r.imageGalleryUrls == e.imageGalleryUrls
    ensures r.tickets == e.tickets && r.leads == e.leads
    ensures r.venue.id == e.venue.id && r.venue.email == e.venue.email
    ensures r.venue.latitude == e.venue.latitude && r.venue.longitude == e.venue.longitude
    ensures r.venue.imageGalleryUrls == e.venue.imageGalleryUrls
    ensures req.venue.None? ==> r.venue == e.venue
    ensures req.venue.Some? ==>
              var v := req.venue.value;
              r.venue.venueName == v.venueName && r.venue.address1 == v.address1 &&
              r.venue.city == v.city && r.venue.state == v.state &&
              r.venue.country == v.country && r.venue.postalZip == v.postalZip
    // A supplied property overrides the stored one; an absent one keeps it.
    ensures if req.title.Some? then r.title == req.title.value else r.title == e.title
    ensures if req.description.Some? then r.description == req.description.value
            else r.description == e.description
    ensures if req.startDateTime.Some? then r.startDateTime == req.startDateTime.value
            else r.startDateTime == e.startDateTime
    ensures if req.endDateTime.Some? then r.endDateTime == req.endDateTime.value
            else r.endDateTime == e.endDateTime
    ensures if req.timezone.Some? then r.timezone == req.timezone.value else r.timezone == e.timezone
    ensures if req.primaryImageUrl.Some? then r.primaryImageUrl == req.primaryImageUrl.value
            else r.primaryImageUrl == e.primaryImageUrl
    ensures if req.coverImageUrl.Some? then r.coverImageUrl == req.coverImageUrl.value
            else r.coverImageUrl == e.coverImageUrl
    ensures if req.isPublic.Some? then r.isPublic == req.isPublic else r.isPublic == e.isPublic
  {
    e.(
      id := id,
      title := req.title.GetOr(e.title),
      description := req.description.GetOr(e.description),
      startDateTime := req.startDateTime.GetOr(e.startDateTime),
      endDateTime := req.endDateTime.GetOr(e.endDateTime),
      timezone := req.timezone.GetOr(e.timezone),
      venue := MergeVenue(e.venue, req.venue),
      primaryImageUrl := req.primaryImageUrl.GetOr(e.primaryImageUrl),
      coverImageUrl := req.coverImageUrl.GetOr(e.coverImageUrl),
      isPublic := if req.isPublic.Some? then req.isPublic else e.isPublic,
      dateUpdated := Some(now))
  }

  /** A request that supplies nothing but its id. */
  function EmptyUpdate(id: string): (r: UpdateEventRequest) {
    UpdateEventRequest(id, None, None, None, None, None, None, None, None, None)
  }

  /** An update that supplies nothing only stamps `dateUpdated` (and the id). */
  lemma MergeEmptyUpdate(e: Event, id: string, now: Timestamp)
    ensures MergeUpdate(e, id, EmptyUpdate(id), now) == e.(id := id, dateUpdated := Some(now))
  {
  }

  /** Two requests applied in turn: a property of the second wins where it is supplied. */
  function ThenUpdate(first: UpdateEventRequest, second: UpdateEventRequest): (r: UpdateEventRequest) {
    UpdateEventRequest(
      second.id,
      if second.title.Some? then second.title else first.title,
      if second.description.Some? then second.description else first.description,
      if second.startDateTime.Some? then second.startDateTime else first.startDateTime,
      if second.endDateTime.Some? then second.endDateTime else first.endDateTime,
      if second.timezone.Some? then second.timezone else first.timezone,
      if second.venue.Some? then second.venue else first.venue,
      if second.primaryImageUrl.Some? then second.primaryImageUrl else first.primaryImageUrl,
      if second.coverImageUrl.Some? then second.coverImageUrl else first.coverImageUrl,
      if second.isPublic.Some? then second.isPublic else first.isPublic)
  }

  /** Two updates of one event amount to a single update with the combined request. */
  lemma MergeUpdateComposes(e: Event, id: string, first: UpdateEventRequest, t1: Timestamp,
                            second: UpdateEventRequest, t2: Timestamp)
    ensures MergeUpdate(MergeUpdate(e, id, first, t1), id, second, t2) ==
            MergeUpdate(e, id, ThenUpdate(first, second), t2)
  {
  }

  /** The update a fully filled form sends: every property supplied. */
  function FullUpdate(req: CreateEventRequest, id: string): (r: UpdateEventRequest) {
    UpdateEventRequest(id, Some(req.title), Some(req.description), Some(req.startDateTime),
      Some(req.endDateTime), Some(req.timezone), Some(req.venue), Some(req.primaryImageUrl),
      Some(req.coverImageUrl), Some(req.isPublic))
  }

  /**
   * Updating with a full request gives the event the same user-entered content
   * as creating it from that request would; identity, status, organiser,
   * gallery, tickets, leads and lifecycle dates stay those of the stored event.
   */
  lemma FullUpdateMatchesCreate(e: Event, req: CreateEventRequest, id: string, now: Timestamp,
                                idStamp: nat, venueStamp: nat, created: Timestamp)
    ensures var u := MergeUpdate(e, id, FullUpdate(req, id), now);
            var c := NewEvent(req, idStamp, venueStamp, created);
            u.title == c.title && u.description == c.description &&
            u.startDateTime == c.startDateTime && u.endDateTime == c.endDateTime &&
            u.timezone == c.timezone && u.primaryImageUrl == c.primaryImageUrl &&
            u.coverImageUrl == c.coverImageUrl && u.isPublic == c.isPublic &&
            u.venue.(id := c.venue.id, email := c.venue.email, latitude := 0.0, longitude := 0.0,
                     imageGalleryUrls := []) == c.venue
  {
  }

  /** The record `deleteEvent` writes back. */
  function SoftDeleted(e: Event, now: Timestamp): (r: Event)
    ensures r.dateDeleted == Some(now) && r.id == e.id
    ensures r.(dateDeleted := e.dateDeleted) == e
    // No read path drops the record; it would only fail the load filter, and
    // a reload replaces the whole list by the fetched payload anyway.
    ensures !IsVisibleOnLoad(r)
  {
    e.(dateDeleted := Some(now))
  }

  /** A soft-deleted event is still returned by `getEventById`, now carrying its deletion time. */
  lemma SoftDeletedStillFound(events: seq<Event>, id: string, now: Timestamp)
    requires FindIndex(events, id).Some?
    ensures var i := FindIndex(events, id).value;
            GetEventById(events[i := SoftDeleted(events[i], now)], id) == Some(SoftDeleted(events[i], now))
  {
    var i := FindIndex(events, id).value;
    FindIndexAfterReplace(events, id, i, SoftDeleted(events[i], now));
  }

  // ---------------------------------------------------------------------------
  // The store

  class EventService {
    /** The current value of the events stream. */
    var events: seq<Event>
    /** The current value of the loading stream. */
    var loading: bool

    /** Every stored event belongs to the organisation. */
    ghost predicate Valid()
      reads this
    {
      forall e :: e in events ==> e.organizer.id == MockOrgId
    }

    /** Construction starts `loadEvents`: the list is empty and the fetch is pending. */
    constructor ()
      ensures Valid() && events == [] && loading
    {
      events := [];
      loading := true;
    }

    /** `loadEvents` (and `refreshEvents`) up to the pending fetch: the old list stays visible. */
    method BeginLoad()
      modifies this`loading
      ensures loading
    {
      loading := true;
    }

    /**
     * The fetch settles. On success the list becomes the payload's events of
     * the organisation that are not soft-deleted; on failure the list is left
     * as it was. Either way loading ends.
     */
    method CompleteLoad(result: FetchResult)
      requires Valid()
      modifies this
      ensures Valid() && !loading
      ensures result.Fetched? ==> events == LoadedEvents(result.response)
      ensures result.FetchFailed? ==> events == old(events)
    {
      match result
      case Fetched(response) =>
        var loaded := Filter(response.events.GetOr([]), IsVisibleOnLoad);
        events := loaded;
        loading := false;
      case FetchFailed =>
        loading := false;
    }

    method CreateEvent(req: CreateEventRequest, idStamp: nat, venueStamp: nat, now: Timestamp)
      returns (e: Event)
      requires Valid()
      modifies this`events
      ensures Valid()
      ensures e == NewEvent(req, idStamp, venueStamp, now)
      ensures events == old(events) + [e]
    {
      e := NewEvent(req, idStamp, venueStamp, now);
      events := events + [e];
    }

    /**
     * Not found: `None`, nothing changes. Found at the first matching index
     * `i`: only that element is replaced, by the merged record.
     */
    method UpdateEvent(id: string, req: UpdateEventRequest, now: Timestamp) returns (r: Option<Event>)
      requires Valid()
      modifies this`events
      ensures Valid()
      ensures FindIndex(old(events), id).None? ==> r.None? && events == old(events)
      ensures FindIndex(old(events), id).Some? ==>
                var i := FindIndex(old(events), id).value;
                r == Some(MergeUpdate(old(events)[i], id, req, now)) &&
                events == old(events)[i := r.value]
    {
      var index := FindIndex(events, id);
      if index.None? {
        return None;
      }
      var updated := MergeUpdate(events[index.value], id, req, now);
      events := events[index.value := updated];
      r := Some(updated);
    }

    /**
     * Soft delete: not found gives `false` and no change; otherwise the first
     * matching record gets `dateDeleted := now` and stays in the list.
     */
    method DeleteEvent(id: string, now: Timestamp) returns (deleted: bool)
      requires Valid()
      modifies this`events
      ensures Valid()
      ensures deleted <==> FindIndex(old(events), id).Some?
      ensures |events| == |old(events)|
      ensures !deleted ==> events == old(events)
      ensures deleted ==>
                var i := FindIndex(old(events), id).value;
                events == old(events)[i := SoftDeleted(old(events)[i], now)]
    {
      var index := FindIndex(events, id);
      if index.None? {
        return false;
      }
      events := events[index.value := SoftDeleted(events[index.value], now)];
      deleted := true;
    }
  }
}
