/**
 * The state record of the machine's single state, `working`, and the transitions
 * that build a fresh record from the old one.
 */
module Working {
  import opened Wrappers
  import opened Events
  import opened Filters
  import opened Preferences

  datatype State = State(
    events: seq<Event>,
    mutationExplorerPath: Option<Path>,
    filterTypes: Option<FilterMap>,
    sources: Option<FilterMap>,
    quickFilters: map<string, string>)

  /** `initialState()`: an empty log, no explorer path, filters read from the store. */
  function InitialState(store: Store, defaults: FilterMap): (s: State)
    ensures s.events == [] && s.mutationExplorerPath == None
    ensures s.filterTypes == ReadFilterTypes(store, defaults) && s.sources == ReadSources(store)
    ensures s.quickFilters.Keys == {"left", "right"} && s.quickFilters["left"] == "" && s.quickFilters["right"] == ""
  {
    State([], None, ReadFilterTypes(store, defaults), ReadSources(store), map["left" := "", "right" := ""])
  }

  /**
   * `update filters`: both maps are merged key by key with their partial updates;
   * nothing else changes.
   */
  function UpdateFilters(s: State, filterTypes: Option<FilterMap>, sources: Option<FilterMap>): (r: State)
    ensures r.(filterTypes := s.filterTypes, sources := s.sources) == s
    ensures r.filterTypes.Some? && r.sources.Some?
    ensures forall k ::
              Lookup(r.filterTypes, k)
              == if Lookup(filterTypes, k).Some? then Lookup(filterTypes, k) else Lookup(s.filterTypes, k)
    ensures forall k ::
              Lookup(r.sources, k)
              == if Lookup(sources, k).Some? then Lookup(sources, k) else Lookup(s.sources, k)
  {
    s.(filterTypes := Some(Merge(s.filterTypes, filterTypes)), sources := Some(Merge(s.sources, sources)))
  }

  /** `update quick filters`: slot `whichOne` holds `value`; every other slot and field is kept. */
  function UpdateQuickFilters(s: State, whichOne: string, value: string): (r: State)
    ensures r.(quickFilters := s.quickFilters) == s
    ensures r.quickFilters.Keys == s.quickFilters.Keys + {whichOne}
    ensures r.quickFilters[whichOne] == value
    ensures forall k :: k in s.quickFilters && k != whichOne ==> r.quickFilters[k] == s.quickFilters[k]
  {
    s.(quickFilters := s.quickFilters[whichOne := value])
  }
}
