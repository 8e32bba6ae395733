# DevTools event log — a Dafny model

This project models the developer-tools state machine defined in
`src/stent/DevTools.js`. The machine has one state, `working`. Its state record
holds the event log (`events`), the mutation-explorer path, the two visibility
filter maps (`filterTypes` and `sources`) and the quick filters. Beside the
record sits the `lastKnownState` table, which maps each emitter to the last
state snapshot it reported.

Modules, leaf first:

- `Wrappers`: `Option`, used wherever JavaScript reads `undefined` or `null`.
- `Seqs`: order-preserving `Filter`, a subsequence predicate and their laws.
- `Events`: raw records, enriched events and the annotation field. It also
  holds the types of the two external helpers, `enhanceEvent` and
  `calculateMutationExplorer`.
- `EventLog`: `MAX_EVENTS = 500` and front eviction (`Bounded`).
- `Enrichment`: the batch pipeline of `action received`. Records whose `type`
  is undefined are dropped. Each accepted record is enhanced against the
  table as the earlier records of the batch left it, and the table is updated
  when the record carries a state.
- `MutationExplorer`: full-log annotation (`show mutation`) and its reset
  (`clear mutation`).
- `Filters`: a three-valued lookup (explicit true, explicit false, not set),
  default-visible filtering, and the key-wise merge of `Object.assign`.
- `Preferences`: localStorage as an abstract map from key to what parsing the
  stored text yields. Reads fall back to the defaults. A write the store refuses
  changes nothing.
- `Working`: the state record, `initialState()`, and the transitions that
  build a fresh record (`update filters`, `update quick filters`).
- `DevTools`: class `Machine`, holding the record, the `lastKnownState` table
  and the store. Its methods are the transitions. `action received`, `show
  mutation` and `clear mutation` are loops over the batch or the log.

The two external helpers are constant fields of `Machine` with function types.
The model gives them no behaviour. `calculateMutationExplorer(event, path)` is
modelled as the annotation it writes into `event.mutationExplorer`.

Points where the code's behaviour is easy to misread:

- `flush events` returns `initialState()` and leaves `lastKnownState` alone,
  so the table survives a flush (`Machine.FlushEvents` does not touch it).
- A record without a `type` is rejected before the table update, so it never
  writes `lastKnownState`, even when it carries a state.
- `update filters` always produces objects. `Object.assign({}, null, …)` is
  `{}`, so a `null` sources map becomes `{}` after any update.
  `Filters.VisibleAfterMerge` shows this changes no event's visibility.

## Model

| member | source | states |
|---|---|---|
| `Enrichment.EnrichedAt` | src/stent/DevTools.js:61-76 | A batch yields exactly one enhanced event per record whose `type` is defined, in batch order. The k-th is enhanced with its emitter's entry in the table left by the accepted records before it. So a later record sees the state an earlier record of the same batch wrote. |
| `Enrichment.Enriched` | src/stent/DevTools.js:61-76 | The enhanced batch has exactly one event per record whose `type` is defined. This is the length of the batch before eviction, not the number of its events that survive in the log. |
| `Enrichment.TableAfter` | src/stent/DevTools.js:65-73 | Processing a batch never removes an entry from the table. |
| `Enrichment.NewEntryWritten` | src/stent/DevTools.js:71-73 | Every entry the batch adds belongs to an emitter that some accepted record of the batch reported a state for. |
| `Enrichment.TableIgnoresInvalid` | src/stent/DevTools.js:61-73 | Records with an undefined `type` leave `lastKnownState` exactly as the accepted records alone would. |
| `Enrichment.LastWriteWins` | src/stent/DevTools.js:71-73 | If some accepted record in the batch carries a state for an emitter, the last such record decides that emitter's entry in the table. |
| `Enrichment.UnwrittenUnchanged` | src/stent/DevTools.js:71-73 | An emitter for which no accepted record carries a state keeps its entry, or keeps having none. |
| `Enrichment.NothingValid` | src/stent/DevTools.js:78 | A batch with no accepted record produces no events and leaves the table unchanged. |
| `EventLog.Bounded` | src/stent/DevTools.js:80-83 | After eviction the log has `min(length, cap)` entries. They are the most recent entries, in their original order. |
| `EventLog.BoundedWhenRoom` | src/stent/DevTools.js:81 | A log within the capacity is not spliced. |
| `EventLog.BoundedAppend` | src/stent/DevTools.js:80-83 | Evicting after each of two appended batches yields the same sequence as appending both and evicting once: `Bounded(Bounded(a) ++ b) == Bounded(a ++ b)`. |
| `DevTools.Machine.constructor` | src/stent/DevTools.js:45-57 | The machine starts in `initialState()`, read from the store, with an empty `lastKnownState` table and a log within bounds. |
| `DevTools.Machine.ActionReceived` | src/stent/DevTools.js:60-89 | The table becomes the table after processing the batch. With no accepted record, nothing changes. Otherwise the log becomes the last `MAX_EVENTS` events of the old log and the enhanced events together, and every other field is kept. The log bound is preserved. |
| `DevTools.Machine.FlushEvents` | src/stent/DevTools.js:90-92 | The state becomes `initialState()` re-read from the store. `lastKnownState` is not touched. |
| `DevTools.Machine.ShowMutation` | src/stent/DevTools.js:93-96 | Every logged event, old and new, is re-annotated for the path. The path is recorded and nothing else changes. |
| `DevTools.Machine.ClearMutation` | src/stent/DevTools.js:98-101 | Every logged event's annotation becomes `false` and the path becomes `null`. Length, order and all other fields are kept. |
| `DevTools.Machine.UpdateFilters` | src/stent/DevTools.js:102-113 | The state becomes the merged record. Each map is written to its store key when the store accepts it, and an accepted write reads back as the new map. |
| `DevTools.Machine.UpdateQuickFilters` | src/stent/DevTools.js:114-116 | The state becomes the record with one quick-filter slot set. |
| `DevTools.Machine.GetFilteredEvents` | src/stent/DevTools.js:119-136 | The result equals one order-preserving filter of the log on "type visible and origin visible". So it is a subsequence of the log, holding every occurrence of each logged event whose type and origin are both visible, and no occurrence of any other. |
| `MutationExplorer.Shown` | src/stent/DevTools.js:94 | Length and order are kept, and each event differs from the original only in its annotation, which is the helper's result for that event and path. |
| `MutationExplorer.Cleared` | src/stent/DevTools.js:99 | Length and order are kept, and each event differs from the original only in its annotation, which is `false`. |
| `MutationExplorer.ClearIdempotent` | src/stent/DevTools.js:98-100 | Clearing twice gives the same log as clearing once. |
| `MutationExplorer.ClearAfterShow` | src/stent/DevTools.js:93-100 | Clearing after a show leaves no trace of the path shown. |
| `MutationExplorer.ShownIgnoresPriorAnnotation` | src/stent/DevTools.js:94 | If the helper does not read the old annotation, showing a path depends only on the events and the path, not on earlier annotations. |
| `MutationExplorer.ReshowReplaces` | src/stent/DevTools.js:93-96 | Under the same hypothesis, showing `q` after `p` equals showing `q` alone. With `p = q` this is idempotence. |
| `Filters.Lookup` | src/stent/DevTools.js:124-135 | An explicit setting exists exactly when the map is not `null` and has the key, and its value is the map's entry for that key. |
| `Filters.Merge` | src/stent/DevTools.js:103-104 | Each key of the result takes the partial update's value if the update sets it, otherwise the old value. Missing keys stay missing, and no old key is dropped. |
| `Filters.VisibleAfterMerge` | src/stent/DevTools.js:103-104 | After a merge, a key set by the update takes that setting, and every other key is as visible as before. |
| `Filters.MergeIdempotent` | src/stent/DevTools.js:103-104 | Applying the same partial update twice gives the same result as applying it once. |
| `Filters.FilteredEvents` | src/stent/DevTools.js:123-135 | Filtering by type and then by origin equals one filter on both conditions. |
| `Filters.FilteredEventsSpec` | src/stent/DevTools.js:119-135 | The visible events form an order-preserving subsequence of the log. An event is kept iff its type and its origin are each either unset, or set to true, in a map that is not `null`. Every occurrence of a kept event survives, with the same multiplicity as in the log. |
| `Preferences.ReadFilterTypes` | src/stent/DevTools.js:6-17 | A missing or unparseable entry yields the default type filters. A parsed entry yields its value, which may be `null`. |
| `Preferences.ReadSources` | src/stent/DevTools.js:18-29 | A missing or unparseable entry yields `null` (show all). A parsed entry yields its value. |
| `Preferences.Write` | src/stent/DevTools.js:30-43 | An accepted write stores the map under its key. A refused write leaves the store as it was. No other key changes. |
| `Preferences.ReadAfterWrite` | src/stent/DevTools.js:6-43 | After both maps are saved, reading them back returns them, and neither write disturbs the other key. |
| `Working.InitialState` | src/stent/DevTools.js:45-53 | The log is empty and there is no explorer path. The filters are read from the store through the two readers. The quick filters are exactly `left` and `right`, both empty. |
| `Working.UpdateFilters` | src/stent/DevTools.js:102-113 | Both maps are merged key by key and end up non-null. Only `filterTypes` and `sources` change. |
| `Working.UpdateQuickFilters` | src/stent/DevTools.js:114-116 | Slot `whichOne` holds the value. Every other slot and every other field is unchanged. |

## Left out

- localStorage and JSON are browser I/O. The store is an abstract map from key
  to its parse result: unparseable text, `null`, or a map from string to
  boolean. JSON that parses to another kind of value (a number, an array, a map
  whose values are not booleans) is not modelled.
- The store is a field that only `Machine.UpdateFilters` writes, so `flush events`
  re-reads exactly what this machine last saved. Writes from outside the machine
  are not modelled. In the source, `localStorage` is shared with other code and
  with other tabs of the same origin.
- Whether a write to the store succeeds is a parameter of `Machine.UpdateFilters`.
  The model has no quota or availability rule.
- The bodies of `enhanceEvent` and `calculateMutationExplorer` are not part of
  this model. They are parameters with no behaviour: no diffing rule and no path
  rule. `enhanceEvent` is assumed to return an object, so the source's
  `.filter(newEvent => newEvent)` drops only the rejected records.
- A raw record's `origin` is handed to `enhanceEvent` with the rest of the
  record. The model does not read it. `getFilteredEvents` tests the enhanced
  event's `origin`, and `enhanceEvent` is trusted to carry the record's origin
  through.
- `calculateMutationExplorer` is assumed to write only `event.mutationExplorer`.
  If it changes other fields of an event, the model does not capture that.
- `MutationExplorer.ShownIgnoresPriorAnnotation`: proved only for a helper that
  does not read the old annotation (hypothesis `IgnoresAnnotation`), because the
  helper's body is not part of this model.
- `MutationExplorer.ReshowReplaces`: under the same hypothesis, for the same
  reason.
- Events are values. The source mutates event objects in place; arrays returned
  earlier by `getFilteredEvents` share those objects and see annotation changes.
  That aliasing is not modelled.
- The stent `Machine.create` plumbing and `this` binding, the `name` field and
  the `page` field are left out, and so is `PAGES`. The contents of
  `DEFAULT_FILTER_TYPES` are not part of this model: the set is a constructor
  parameter.
- Every map in the model has no inherited keys: the `lastKnownState` table and
  the filter maps too. In the source they are plain JavaScript objects.
  - `lastKnownState` is `{}` (src/stent/DevTools.js:137), read at line 67 and
    written at line 72. An emitter named after an `Object.prototype` member reads
    as present there. For emitter `"constructor"` on a fresh table, the source
    passes the function `Object` to `enhanceEvent`, where the model passes
    `None`.
  - Writing emitter `"__proto__"` into the table replaces the object's prototype
    instead of adding an entry.
  - In the filter maps, an inherited member is truthy (a function, or
    `Object.prototype` itself for `"__proto__"`). Reading one therefore makes
    the event visible, as the model's missing key does.
  - `Filters.Merge` keeps an own `"__proto__"` key. Such a key can come from
    stored text like `{"__proto__":false}`. `Object.assign` at lines 103-104
    copies by assignment, so it drops that key. After any `update filters`,
    the source shows events of type (or origin) `"__proto__"` that the model
    still hides.
- JavaScript truthiness is simplified:
  - A record's `state` is either present or absent. A falsy state counts as absent.
  - A `type` of `null` passes the source's `typeof … === 'undefined'` test. The
    model's type is a string, so such a record appears as some defined type.
  - A missing `emitter` or `origin` is read by the source under the key
    `"undefined"`. The model's emitter and origin are always strings.
- Malformed inputs outside the model's types:
  - `Machine.ShowMutation` always records `Some(path)`. The source records
    whatever it is given at line 96, `null` or `undefined` included.
  - A filter map cannot hold `undefined`. In the source, `Object.assign` copies
    an explicit `undefined` from a partial update, and the lookups at lines 125
    and 131 then treat that key as unset, so its events become visible again.
    The model's partial update can only override a key with a boolean, never
    reset it.
  - A `null` record in a batch throws at line 62, and so would an `enhanceEvent`
    that throws at line 65. Either aborts the transition after earlier records
    of the batch have already written `lastKnownState` at line 72, so the table
    changes while the state does not. The model's records are never null and its
    `Enhancer` is total, so this partial update is not modelled.
- `Preferences.ReadFilterTypes` and `Preferences.ReadSources` are total. In the
  source, `localStorage.getItem` (lines 7 and 19) is outside the `try`, so a
  store that throws when accessed makes `initialState()` throw, both when the
  machine is created (line 57) and on every `flush events` (line 91). Reads that
  throw are not modelled. Only parse failures fall back to the defaults.
- Quick-filter values are strings. The source stores any value and does not
  interpret it.
