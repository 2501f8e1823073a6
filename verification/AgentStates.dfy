/** What the drivers of all agent processes share. */
module AgentStates {
  const BACKLOG: nat := 256

  datatype RuntimeState = Starting | Ready | Running | Broken

  /** A send that drops the event when the backlog is full. */
  function Offer<T>(ch: seq<T>, e: T): seq<T> {
    if |ch| < BACKLOG then ch + [e] else ch
  }

  /** The state after a turn that ended well; a runtime that broke meanwhile stays broken. */
  function AfterTurn(state: RuntimeState): RuntimeState {
    if state.Broken? then Broken else Ready
  }
}
