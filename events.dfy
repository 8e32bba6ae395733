/** The records that flow through the developer-tools panel. */
module Events {
  import opened Wrappers

  /** A state snapshot reported by an emitter; its contents are opaque to the core. */
  type Snapshot = string

  /** A field path inside an event's state, as chosen in the mutation explorer. */
  type Path = string

  /** Everything else an event carries (action, diff, ...); opaque to the core. */
  type Payload = string

  /**
   * An incoming record as delivered by the transport. `eventType` is `None` when
   * the record has no `type` property; `state` is `None` when the record carries
   * no (truthy) state snapshot.
   */
  datatype RawEvent = RawEvent(
    eventType: Option<string>,
    emitter: string,
    origin: string,
    state: Option<Snapshot>,
    payload: Payload)

  /** The `mutationExplorer` property: `Off` is the value `false`. */
  datatype Annotation = Off | Marked(marks: Payload)

  /** An event after enrichment, as kept in the log. */
  datatype Event = Event(
    eventType: string,
    origin: string,
    payload: Payload,
    mutationExplorer: Annotation)

  /** A record is accepted only when its `type` is defined. */
  predicate IsValid(e: RawEvent) {
    e.eventType.Some?
  }

  /** The `lastKnownState` table: emitter to the last state snapshot it reported. */
  type Table = map<string, Snapshot>

  /** The external `enhanceEvent(event, lastKnownState, mutationExplorerPath)`. */
  type Enhancer = (RawEvent, Option<Snapshot>, Option<Path>) -> Event

  /** The external `calculateMutationExplorer(event, path)`, as the annotation it attaches. */
  type Explorer = (Event, Path) -> Annotation
}
