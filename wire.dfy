/**
 * Messages exchanged between the board server and its browser clients.
 * The transport itself (connections, delivery, fan-out) is not modelled:
 * a message is a value that one side produces and the other side consumes.
 */
module Wire {

  /** A parsed value, or None where parsing failed. */
  datatype Option<+T> = None | Some(value: T)

  /**
   * Events the server sends and the client handles.
   * `Init` and `Sync` carry a full snapshot (labels and states, in display
   * order); `Update` carries one slot's index and its new state. On the
   * wire that state is the payload's `state` field too; here it is named
   * `active`, since fields shared by several constructors must have one type
   * and `state` is already the list of `Init` and `Sync`.
   */
  datatype ServerEvent =
    | Init(labels: seq<string>, state: seq<bool>)
    | Update(index: int, active: bool)
    | Sync(labels: seq<string>, state: seq<bool>)

  /** Intents the client emits towards the server. */
  datatype ClientIntent =
    | Toggle(index: int)
    | RequestInit
}
