/** The values that travel through the broadcast subsystem: lifecycle event
    types, event payloads, the outbound JSON message shape and the client
    connections it is sent to. */
module Events {

  /** `EventType` of the logging package, reduced to the three members the GUI
      path uses. Their `.value` strings are not part of this model: a message
      tagged `EventTag(t)` stands for `{"type": t.value, ...}`. */
  datatype EventType = AgentStart | AgentComplete | Error

  /** A flat JSON object with string values (`data` of an event or a message). */
  type Payload = map<string, string>

  /** The `"type"` field of an outbound message: an event type's opaque value,
      or one of the literal strings `run_agent` writes. */
  datatype Tag = EventTag(event: EventType) | Named(name: string)

  /** `{"type": kind, "data": data}` */
  datatype Message = Message(kind: Tag, data: Payload)

  /** A client WebSocket. Python compares sockets by identity; distinct ids stand
      for distinct socket objects. */
  datatype Socket = Socket(id: nat)

  /** One message that reached one client. */
  datatype Delivery = Delivery(socket: Socket, message: Message)
}
