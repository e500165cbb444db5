/**
 * The list screen's view-model: a copy of the store's events, narrowed by a
 * case-insensitive text search and an exact visibility filter, then sorted by
 * start time; `filteredEvents` and `total` hold the result.
 */
module EventList {
  import opened Wrappers
  import opened Text
  import opened EventModel
  import opened EventStore
  import opened EventTags

  /**
   * The search stage: a missing term, or one that lower-cases to the empty
   * string, filters nothing.
   */
  function SearchStage(events: seq<Event>, term: Option<string>): (r: seq<Event>)
    ensures term.None? || term.value == "" ==> r == events
    ensures term.Some? && term.value != "" ==>
              forall e :: e in r <==> e in events && MatchesSearch(e, ToLower(term.value))
  {
    if term.Some? && ToLower(term.value) != [] then
      Filter(events, (e: Event) => MatchesSearch(e, ToLower(term.value)))
    else
      ToLowerEmpty(if term.Some? then term.value else "");
      events
  }

  /**
   * The visibility stage: a missing filter keeps everything; any value keeps
   * exactly the events whose flag equals `value == "public"`.
   */
  function VisibilityStage(events: seq<Event>, visibility: Option<string>): (r: seq<Event>)
    ensures visibility.None? ==> r == events
    ensures visibility.Some? ==>
              forall e :: e in r <==> e in events && e.isPublic == Some(visibility.value == "public")
  {
    match visibility
    case None => events
    case Some(v) => FilterEventsByVisibility(events, Some(v == "public"))
  }

  /** The sort control asks for ascending order only with the value "asc". */
  predicate IsAscending(sortOrder: Option<string>) {
    sortOrder == Some("asc")
  }

  /** What `applyFilters` computes from the events and the three controls. */
  function ListView(events: seq<Event>, term: Option<string>, visibility: Option<string>,
                    sortOrder: Option<string>): (r: seq<Event>)
    ensures multiset(r) == multiset(VisibilityStage(SearchStage(events, term), visibility))
    ensures SortedByStart(r, IsAscending(sortOrder))
  {
    SortEventsByDate(VisibilityStage(SearchStage(events, term), visibility), IsAscending(sortOrder))
  }

  /** An event is listed exactly when it is in the source and passes both stages. */
  lemma ListViewMembership(events: seq<Event>, term: Option<string>, visibility: Option<string>,
                           sortOrder: Option<string>, e: Event)
    ensures e in ListView(events, term, visibility, sortOrder) <==>
              e in events &&
              (term.None? || term.value == "" || MatchesSearch(e, ToLower(term.value))) &&
              (visibility.None? || e.isPublic == Some(visibility.value == "public"))
  {
    var staged := VisibilityStage(SearchStage(events, term), visibility);
    assert e in ListView(events, term, visibility, sortOrder) <==> e in multiset(staged);
  }

  /**
   * Events with equal start times keep their source order in the list: the
   * listed events starting at `t` are the source's, put through both stages.
   */
  lemma ListViewStable(events: seq<Event>, term: Option<string>, visibility: Option<string>,
                       sortOrder: Option<string>, t: Timestamp)
    ensures StartingAt(ListView(events, term, visibility, sortOrder), t) ==
            VisibilityStage(SearchStage(StartingAt(events, t), term), visibility)
  {
    var searched := SearchStage(events, term);
    SortEventsByDateStable(VisibilityStage(searched, visibility), IsAscending(sortOrder), t);
    if term.Some? && ToLower(term.value) != [] {
      FilterStartingAt(events, (e: Event) => MatchesSearch(e, ToLower(term.value)), t);
    }
    if visibility.Some? {
      FilterStartingAt(searched, (e: Event) => e.isPublic == Some(visibility.value == "public"), t);
    }
  }

  /** With no term and no visibility filter the list is the whole source, sorted. */
  lemma ListViewUnfiltered(events: seq<Event>, sortOrder: Option<string>)
    ensures ListView(events, None, None, sortOrder) == SortEventsByDate(events, IsAscending(sortOrder))
  {
  }

  /** The list's search stage agrees with the store's `searchEvents` for every present term. */
  lemma SearchStageAgreesWithStore(events: seq<Event>, term: string)
    ensures SearchStage(events, Some(term)) == SearchEvents(events, term)
  {
    if term == "" {
      SearchEmptyKeepsAll(events);
    } else {
      ToLowerEmpty(term);
    }
  }

  /** An event without a public flag is dropped by either visibility choice. */
  lemma UnsetVisibilityAlwaysDropped(events: seq<Event>, v: string, e: Event)
    requires e.isPublic.None?
    ensures e !in VisibilityStage(events, Some(v))
  {
  }

  /** Filtering on "public" keeps exactly the events that show the Public tag. */
  lemma PublicFilterMatchesTag(events: seq<Event>, e: Event)
    requires e in events
    ensures e in VisibilityStage(events, Some("public")) <==> VisibilityTag(e.isPublic) == PublicTag
  {
  }

  /** A soft-deleted event stays on the unfiltered list: nothing here checks `dateDeleted`. */
  lemma SoftDeletedStaysListed(events: seq<Event>, id: string, now: Timestamp, sortOrder: Option<string>)
    requires FindIndex(events, id).Some?
    ensures var i := FindIndex(events, id).value;
            SoftDeleted(events[i], now) in ListView(events[i := SoftDeleted(events[i], now)], None, None, sortOrder)
  {
    var i := FindIndex(events, id).value;
    var after := events[i := SoftDeleted(events[i], now)];
    assert after[i] in after;
    ListViewMembership(after, None, None, sortOrder, after[i]);
  }

  class EventListComponent {
    /** The last list the store emitted. */
    var events: seq<Event>
    var filteredEvents: seq<Event>
    var total: int
    /** The values of the search, visibility and sort controls. */
    var searchTerm: Option<string>
    var visibilityFilter: Option<string>
    var sortOrder: Option<string>

    /** The displayed list is the view of the current source and controls. */
    ghost predicate Valid()
      reads this
    {
      filteredEvents == ListView(events, searchTerm, visibilityFilter, sortOrder) &&
      total == |filteredEvents|
    }

    constructor ()
      ensures Valid() && events == [] && filteredEvents == [] && total == 0
      ensures searchTerm == Some("") && visibilityFilter.None? && sortOrder == Some("asc")
    {
      events := [];
      filteredEvents := [];
      total := 0;
      searchTerm := Some("");
      visibilityFilter := None;
      sortOrder := Some("asc");
    }

    /** Recompute the displayed list from the source and the three controls. */
    method ApplyFilters()
      modifies this`filteredEvents, this`total
      ensures Valid()
      ensures filteredEvents == ListView(events, searchTerm, visibilityFilter, sortOrder)
      ensures total == |filteredEvents|
    {
      var filtered := events;
      if searchTerm.Some? {
        var lowerTerm := ToLower(searchTerm.value);
        if lowerTerm != "" {
          filtered := Filter(filtered, (e: Event) => MatchesSearch(e, lowerTerm));
        }
      }
      if visibilityFilter.Some? {
        var isPublic := visibilityFilter.value == "public";
        filtered := Filter(filtered, (e: Event) => e.isPublic == Some(isPublic));
      }
      filtered := SortEventsByDate(filtered, sortOrder == Some("asc"));
      filteredEvents := filtered;
      total := |filtered|;
    }

    /** The store emitted a new list. */
    method OnEventsEmitted(emitted: seq<Event>)
      modifies this
      ensures Valid() && events == emitted
      ensures searchTerm == old(searchTerm) && visibilityFilter == old(visibilityFilter)
      ensures sortOrder == old(sortOrder)
    {
      events := emitted;
      ApplyFilters();
    }

    /** The (debounced, de-duplicated) search control emitted a new term. */
    method OnSearchChanged(term: Option<string>)
      modifies this
      ensures Valid() && searchTerm == term
      ensures events == old(events) && visibilityFilter == old(visibilityFilter)
      ensures sortOrder == old(sortOrder)
    {
      searchTerm := term;
      ApplyFilters();
    }

    method OnVisibilityChanged(visibility: Option<string>)
      modifies this
      ensures Valid() && visibilityFilter == visibility
      ensures events == old(events) && searchTerm == old(searchTerm) && sortOrder == old(sortOrder)
    {
      visibilityFilter := visibility;
      ApplyFilters();
    }

    method OnSortOrderChanged(order: Option<string>)
      modifies this
      ensures Valid() && sortOrder == order
      ensures events == old(events) && searchTerm == old(searchTerm)
      ensures visibilityFilter == old(visibilityFilter)
    {
      sortOrder := order;
      ApplyFilters();
    }

    /**
     * Delete from the list: the store soft-deletes and, when it found the id,
     * emits its list, which this screen re-filters.
     */
    method OnDeleteEvent(store: EventService, e: Event, now: Timestamp) returns (deleted: bool)
      requires store.Valid() && Valid()
      modifies this, store`events
      ensures store.Valid() && Valid()
      ensures deleted <==> FindIndex(old(store.events), e.id).Some?
      ensures searchTerm == old(searchTerm) && visibilityFilter == old(visibilityFilter)
      ensures sortOrder == old(sortOrder)
      ensures deleted ==>
                var i := FindIndex(old(store.events), e.id).value;
                store.events == old(store.events)[i := SoftDeleted(old(store.events)[i], now)] &&
                events == store.events
      ensures !deleted ==> events == old(events) && store.events == old(store.events)
    {
      deleted := store.DeleteEvent(e.id, now);
      if deleted {
        OnEventsEmitted(store.events);
        ApplyFilters();
      }
    }
  }
}
