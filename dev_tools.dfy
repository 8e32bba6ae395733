/**
 * The DevTools machine: the `working` state record, the `lastKnownState` table
 * that sits beside it, and the preference store the filters are saved to.
 */
module DevTools {
  import opened Wrappers
  import opened Seqs
  import opened Events
  import opened EventLog
  import opened Enrichment
  import opened MutationExplorer
  import opened Filters
  import opened Preferences
  import Working

  class Machine {
    /** The external enrichment helper. */
    const enhance: Enhancer
    /** The external mutation-explorer helper. */
    const explore: Explorer
    /** The default type filters used when none are stored. */
    const defaultFilterTypes: FilterMap

    var state: Working.State
    var lastKnownState: Table
    var store: Store

    /** The log never holds more than MAX_EVENTS events. */
    ghost predicate Valid()
      reads this
    {
      |state.events| <= MAX_EVENTS
    }

    /** `Machine.create`: the initial state, and an empty state table. */
    constructor (enhance: Enhancer, explore: Explorer, defaultFilterTypes: FilterMap, store: Store)
      ensures Valid()
      ensures this.enhance == enhance && this.explore == explore
      ensures this.defaultFilterTypes == defaultFilterTypes && this.store == store
      ensures state == Working.InitialState(store, defaultFilterTypes)
      ensures lastKnownState == map[]
    {
      this.enhance := enhance;
      this.explore := explore;
      this.defaultFilterTypes := defaultFilterTypes;
      this.store := store;
      state := Working.InitialState(store, defaultFilterTypes);
      lastKnownState := map[];
    }

    /**
     * `action received`: enhance the accepted records of the batch left to right,
     * updating the state table as they go; if any were accepted, append them and
     * keep the last MAX_EVENTS events of the combined log.
     */
    method ActionReceived(newEvents: seq<RawEvent>)
      requires Valid()
      modifies this`state, this`lastKnownState
      ensures Valid()
      ensures lastKnownState == TableAfter(newEvents, old(lastKnownState))
      ensures ValidEvents(newEvents) == [] ==> state == old(state) && lastKnownState == old(lastKnownState)
      ensures ValidEvents(newEvents) != [] ==>
                state == old(state).(events := Bounded(old(state.events)
                                                         + Enriched(newEvents, old(lastKnownState), old(state.mutationExplorerPath), enhance),
                                                       MAX_EVENTS))
    {
      var added: seq<Event> := [];
      var i := 0;
      while i < |newEvents|
        invariant 0 <= i <= |newEvents|
        invariant state == old(state)
        invariant added == Enriched(newEvents[..i], old(lastKnownState), state.mutationExplorerPath, enhance)
        invariant lastKnownState == TableAfter(newEvents[..i], old(lastKnownState))
      {
        var e := newEvents[i];
        EnrichStep(newEvents, i, old(lastKnownState), state.mutationExplorerPath, enhance);
        if e.eventType.Some? {
          var enhanced := enhance(e, Get(lastKnownState, e.emitter), state.mutationExplorerPath);
          if e.state.Some? {
            lastKnownState := lastKnownState[e.emitter := e.state.value];
          }
          added := added + [enhanced];
        }
        i := i + 1;
      }
      assert newEvents[..i] == newEvents;
      if |added| == 0 {
        TableIgnoresInvalid(newEvents, old(lastKnownState));
        return;
      }
      var events := state.events + added;
      if |events| > MAX_EVENTS {
        events := events[|events| - MAX_EVENTS..];
      }
      state := state.(events := events);
    }

    /** `flush events`: back to the initial state; the state table is kept. */
    method FlushEvents()
      modifies this`state
      ensures Valid()
      ensures state == Working.InitialState(store, defaultFilterTypes)
    {
      state := Working.InitialState(store, defaultFilterTypes);
    }

    /** `show mutation`: annotate every logged event for `path` and remember the path. */
    method ShowMutation(path: Path)
      requires Valid()
      modifies this`state
      ensures Valid()
      ensures state == old(state).(events := Shown(old(state.events), path, explore), mutationExplorerPath := Some(path))
    {
      var events := state.events;
      var i := 0;
      while i < |events|
        invariant 0 <= i <= |events| == |state.events|
        invariant forall k :: 0 <= k < i ==> events[k] == state.events[k].(mutationExplorer := explore(state.events[k], path))
        invariant forall k :: i <= k < |events| ==> events[k] == state.events[k]
      {
        events := events[i := events[i].(mutationExplorer := explore(events[i], path))];
        i := i + 1;
      }
      assert events == Shown(state.events, path, explore);
      state := state.(events := events, mutationExplorerPath := Some(path));
    }

    /** `clear mutation`: reset every logged event's annotation and forget the path. */
    method ClearMutation()
      requires Valid()
      modifies this`state
      ensures Valid()
      ensures state == old(state).(events := Cleared(old(state.events)), mutationExplorerPath := None)
    {
      var events := state.events;
      var i := 0;
      while i < |events|
        invariant 0 <= i <= |events| == |state.events|
        invariant forall k :: 0 <= k < i ==> events[k] == state.events[k].(mutationExplorer := Off)
        invariant forall k :: i <= k < |events| ==> events[k] == state.events[k]
      {
        events := events[i := events[i].(mutationExplorer := Off)];
        i := i + 1;
      }
      assert events == Cleared(state.events);
      state := state.(events := events, mutationExplorerPath := None);
    }

    /**
     * `update filters`: merge the partial maps into the current filters and save
     * both; `typesSaved` and `sourcesSaved` say whether the store accepted each write.
     */
    method UpdateFilters(filterTypes: Option<FilterMap>, sources: Option<FilterMap>, typesSaved: bool, sourcesSaved: bool)
      requires Valid()
      modifies this`state, this`store
      ensures Valid()
      ensures state == Working.UpdateFilters(old(state), filterTypes, sources)
      ensures store == Write(Write(old(store), FILTER_TYPES_KEY, state.filterTypes.value, typesSaved),
                             SOURCES_KEY, state.sources.value, sourcesSaved)
      ensures typesSaved ==> ReadFilterTypes(store, defaultFilterTypes) == state.filterTypes
      ensures sourcesSaved ==> ReadSources(store) == state.sources
    {
      state := Working.UpdateFilters(state, filterTypes, sources);
      store := Write(store, FILTER_TYPES_KEY, state.filterTypes.value, typesSaved);
      store := Write(store, SOURCES_KEY, state.sources.value, sourcesSaved);
    }

    /** `update quick filters`: set one quick-filter slot. */
    method UpdateQuickFilters(whichOne: string, value: string)
      requires Valid()
      modifies this`state
      ensures Valid()
      ensures state == Working.UpdateQuickFilters(old(state), whichOne, value)
    {
      state := Working.UpdateQuickFilters(state, whichOne, value);
    }

    /**
     * `getFilteredEvents`: the logged events whose type and origin are both
     * visible, in log order.
     */
    function GetFilteredEvents(): (r: seq<Event>)
      reads this
      ensures r == Filter(state.events, ShowsEvent(state.filterTypes, state.sources))
      ensures IsSubsequence(r, state.events)
      ensures forall e ::
                e in r <==> e in state.events && Visible(state.filterTypes, e.eventType) && Visible(state.sources, e.origin)
      ensures forall e ::
                multiset(r)[e]
                == if Visible(state.filterTypes, e.eventType) && Visible(state.sources, e.origin)
                   then multiset(state.events)[e] else 0
    {
      FilteredEventsSpec(state.events, state.filterTypes, state.sources);
      FilteredEvents(state.events, state.filterTypes, state.sources)
    }
  }
}
