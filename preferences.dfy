/**
 * The preference store (the browser's localStorage), as an abstract map from key
 * to what reading and parsing that key yields. Reads fall back to defaults;
 * failed writes are ignored.
 */
module Preferences {
  import opened Wrappers
  import opened Filters

  const FILTER_TYPES_KEY: string := "kuker_filterTypes"
  const SOURCES_KEY: string := "kuker_sources"

  /** A stored entry: text that does not parse, or parsed JSON (`null` or a filter map). */
  datatype Stored = Unparseable | Parsed(json: Option<FilterMap>)

  type Store = map<string, Stored>

  /** `getFilterTypes`: the stored map, or the default filter set when missing or corrupt. */
  function ReadFilterTypes(store: Store, defaults: FilterMap): (r: Option<FilterMap>)
    ensures FILTER_TYPES_KEY !in store || store[FILTER_TYPES_KEY].Unparseable? ==> r == Some(defaults)
    ensures FILTER_TYPES_KEY in store && store[FILTER_TYPES_KEY].Parsed? ==> r == store[FILTER_TYPES_KEY].json
  {
    if FILTER_TYPES_KEY in store && store[FILTER_TYPES_KEY].Parsed? then store[FILTER_TYPES_KEY].json
    else Some(defaults)
  }

  /** `getSources`: the stored map, or `null` (show all) when missing or corrupt. */
  function ReadSources(store: Store): (r: Option<FilterMap>)
    ensures SOURCES_KEY !in store || store[SOURCES_KEY].Unparseable? ==> r == None
    ensures SOURCES_KEY in store && store[SOURCES_KEY].Parsed? ==> r == store[SOURCES_KEY].json
  {
    if SOURCES_KEY in store && store[SOURCES_KEY].Parsed? then store[SOURCES_KEY].json
    else None
  }

  /**
   * `setFilterTypes` / `setSources`: store the serialized map under `key` when the
   * store accepts the write; a rejected write leaves the store as it was.
   */
  function Write(store: Store, key: string, m: FilterMap, accepted: bool): (r: Store)
    ensures !accepted ==> r == store
    ensures accepted ==> key in r && r[key] == Parsed(Some(m))
    ensures forall k :: k != key ==> Get(r, k) == Get(store, k)
  {
    if accepted then store[key := Parsed(Some(m))] else store
  }

  /** What was written is what is read back, and the other key is not disturbed. */
  lemma ReadAfterWrite(store: Store, types: FilterMap, sources: FilterMap, defaults: FilterMap)
    ensures ReadFilterTypes(Write(Write(store, FILTER_TYPES_KEY, types, true), SOURCES_KEY, sources, true), defaults)
      == Some(types)
    ensures ReadSources(Write(Write(store, FILTER_TYPES_KEY, types, true), SOURCES_KEY, sources, true))
      == Some(sources)
  {
    assert FILTER_TYPES_KEY != SOURCES_KEY;
  }
}
