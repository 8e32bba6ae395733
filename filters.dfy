/**
 * Visibility filters: maps from an event type (or an origin) to whether it is
 * shown. A missing key, and a `null` map, both mean "shown".
 */
module Filters {
  import opened Wrappers
  import opened Seqs
  import opened Events

  type FilterMap = map<string, bool>

  /** The explicit setting for `key`, or `None` when the map is `null` or has no entry. */
  function Lookup(filters: Option<FilterMap>, key: string): (r: Option<bool>)
    ensures r.Some? <==> filters.Some? && key in filters.value
    ensures r.Some? ==> r.value == filters.value[key]
  {
    if filters.Some? then Get(filters.value, key) else None
  }

  /** An event whose key is not explicitly set is visible. */
  predicate Visible(filters: Option<FilterMap>, key: string) {
    Lookup(filters, key).GetOr(true)
  }

  /**
   * `Object.assign({}, current, partial)`: every key of either map, the partial
   * update's value winning. A `null` or missing map contributes no keys, so the
   * result is always an object.
   */
  function Merge(current: Option<FilterMap>, partial: Option<FilterMap>): (r: FilterMap)
    ensures forall k ::
              Lookup(Some(r), k) == if Lookup(partial, k).Some? then Lookup(partial, k) else Lookup(current, k)
  {
    current.GetOr(map[]) + partial.GetOr(map[])
  }

  /**
   * Visibility after a merge: the partial update decides the keys it names, and
   * every other key is as visible as before (a `null` map turning into `{}`
   * changes nothing).
   */
  lemma VisibleAfterMerge(current: Option<FilterMap>, partial: Option<FilterMap>, key: string)
    ensures Visible(Some(Merge(current, partial)), key)
      == if Lookup(partial, key).Some? then partial.value[key] else Visible(current, key)
  {
  }

  /** Merging the same partial update twice is merging it once. */
  lemma MergeIdempotent(current: Option<FilterMap>, partial: Option<FilterMap>)
    ensures Merge(Some(Merge(current, partial)), partial) == Merge(current, partial)
  {
    var once, twice := Merge(current, partial), Merge(Some(Merge(current, partial)), partial);
    forall k ensures Lookup(Some(twice), k) == Lookup(Some(once), k) {
      assert Lookup(Some(twice), k)
        == if Lookup(partial, k).Some? then Lookup(partial, k) else Lookup(Some(once), k);
    }
    assert once.Keys == twice.Keys by {
      forall k ensures k in once <==> k in twice {
        assert Lookup(Some(twice), k).Some? <==> Lookup(Some(once), k).Some?;
      }
    }
  }

  function ShowsType(filterTypes: Option<FilterMap>): Event -> bool {
    (e: Event) => Visible(filterTypes, e.eventType)
  }

  function ShowsOrigin(sources: Option<FilterMap>): Event -> bool {
    (e: Event) => Visible(sources, e.origin)
  }

  function ShowsEvent(filterTypes: Option<FilterMap>, sources: Option<FilterMap>): Event -> bool {
    (e: Event) => Visible(filterTypes, e.eventType) && Visible(sources, e.origin)
  }

  /**
   * `getFilteredEvents`: the log filtered by type, then by origin. The two passes
   * keep exactly what one pass with both conditions keeps.
   */
  function FilteredEvents(events: seq<Event>, filterTypes: Option<FilterMap>, sources: Option<FilterMap>): (r: seq<Event>)
    ensures r == Filter(events, ShowsEvent(filterTypes, sources))
  {
    FilterFilter(events, ShowsType(filterTypes), ShowsOrigin(sources), ShowsEvent(filterTypes, sources));
    Filter(Filter(events, ShowsType(filterTypes)), ShowsOrigin(sources))
  }

  /**
   * The visible events are an order-preserving subsequence of the log, holding
   * every occurrence of each logged event whose type and whose origin are both
   * visible, and no occurrence of any other.
   */
  lemma FilteredEventsSpec(events: seq<Event>, filterTypes: Option<FilterMap>, sources: Option<FilterMap>)
    ensures IsSubsequence(FilteredEvents(events, filterTypes, sources), events)
    ensures forall e ::
              e in FilteredEvents(events, filterTypes, sources)
              <==> e in events && Visible(filterTypes, e.eventType) && Visible(sources, e.origin)
    ensures forall e ::
              multiset(FilteredEvents(events, filterTypes, sources))[e]
              == if Visible(filterTypes, e.eventType) && Visible(sources, e.origin) then multiset(events)[e] else 0
  {
    FilterIsSubsequence(events, ShowsEvent(filterTypes, sources));
    forall e ensures e in FilteredEvents(events, filterTypes, sources)
      <==> e in events && Visible(filterTypes, e.eventType) && Visible(sources, e.origin)
    {
      FilterMembers(events, ShowsEvent(filterTypes, sources), e);
    }
    forall e ensures multiset(FilteredEvents(events, filterTypes, sources))[e]
      == if Visible(filterTypes, e.eventType) && Visible(sources, e.origin) then multiset(events)[e] else 0
    {
      FilterCount(events, ShowsEvent(filterTypes, sources), e);
    }
  }
}
