/**
 * The values the speech-understanding client hands to the core: entities, intents,
 * segments, and the client's connection state.
 */
module SpeechClient {

  /** A typed span of recognised text; `isFinal` once recognition of it is settled. */
  datatype Entity = Entity(entityType: string, value: string, isFinal: bool)

  /** The recognised goal of a segment, such as `add_filter` or `undo`. */
  datatype Intent = Intent(intent: string, isFinal: bool)

  /** One chunk of recognised speech. */
  datatype Segment = Segment(isFinal: bool, intent: Intent, entities: seq<Entity>)

  /** The connection state of the speech client. */
  datatype ClientState = Disconnected | Connecting | Connected | Recording | Stopping

  /** The position of a state in the client's order, used for the `<` comparisons of the guards. */
  function Ordinal(s: ClientState): (n: nat)
    ensures n < 5
  {
    match s
    case Disconnected => 0
    case Connecting => 1
    case Connected => 2
    case Recording => 3
    case Stopping => 4
  }

  /** `a < b` on client states. */
  predicate Below(a: ClientState, b: ClientState) {
    Ordinal(a) < Ordinal(b)
  }
}
