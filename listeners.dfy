/** Event listeners: the `EventListener` interface of the logging package and
    the GUI's `WebUIEventListener` (src/mcp_agent/gui/web_app.py), which turns
    every event into a broadcast. */
module Listeners {
  import opened Events
  import opened Connections

  /** `{"type": event_type.value, "data": data}` */
  function EventMessage(kind: EventType, data: Payload): Message {
    Message(EventTag(kind), data)
  }

  class WebUIEventListener {
    const manager: WebSocketManager

    constructor (manager: WebSocketManager)
      ensures this.manager == manager
    {
      this.manager := manager;
    }

    /** `on_event`: exactly one broadcast of the event, data passed through.
        `broadcast` swallows send failures, so this never fails. */
    method OnEvent(kind: EventType, data: Payload, failing: set<Socket>)
      modifies manager
      ensures manager.active == SweepFrom(old(manager.active), 0, failing).survivors
      ensures manager.delivered == old(manager.delivered)
                + Deliveries(SweepFrom(old(manager.active), 0, failing).attempts, EventMessage(kind, data))
    {
      manager.Broadcast(EventMessage(kind, data), failing);
    }
  }

  /** An `EventListener` attached to a `FastAgent`: the GUI listener, or some
      other listener, known by identity, whose `on_event` may raise. Python
      compares listeners by identity, and so does this datatype. */
  datatype Listener = WebUI(w: WebUIEventListener) | External(id: nat)

  /** Whether `on_event` returns normally. The GUI listener always does; an
      external one raises when its id is in `faulty`. */
  predicate Succeeds(l: Listener, faulty: set<nat>) {
    l.WebUI? || l.id !in faulty
  }
}
