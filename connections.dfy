/** `WebSocketManager` (src/mcp_agent/gui/websocket_manager.py): the list of
    connected clients, with connect, disconnect, unicast and broadcast.

    A send to a client fails exactly when its socket is in the `failing` set
    handed to the operation (the peer has gone away). What reached which client
    is recorded in the ghost log `delivered`. */
module Connections {
  import opened Lists
  import opened Events

  /** One `send_json` that `broadcast` tried, and whether it went through. */
  datatype Attempt = Attempt(socket: Socket, ok: bool)

  /** What one broadcast does: the connection list it leaves and the sends it
      tried, in order. */
  datatype Sweep = Sweep(survivors: seq<Socket>, attempts: seq<Attempt>)

  /** What a series of broadcasts does: the final connection list and every
      delivery, in order. */
  datatype Trace = Trace(survivors: seq<Socket>, deliveries: seq<Delivery>)

  function Sockets(attempts: seq<Attempt>): (r: seq<Socket>)
    ensures |r| == |attempts|
    ensures forall k :: 0 <= k < |r| ==> r[k] == attempts[k].socket
  {
    if attempts == [] then [] else [attempts[0].socket] + Sockets(attempts[1..])
  }

  /** The sockets whose send failed, in the order they were tried. */
  function Failed(attempts: seq<Attempt>): seq<Socket> {
    if attempts == [] then []
    else (if attempts[0].ok then [] else [attempts[0].socket]) + Failed(attempts[1..])
  }

  /** The deliveries made by the successful sends of `attempts`. */
  function Deliveries(attempts: seq<Attempt>, message: Message): seq<Delivery> {
    if attempts == [] then []
    else
      (if attempts[0].ok then [Delivery(attempts[0].socket, message)] else [])
      + Deliveries(attempts[1..], message)
  }

  /** The `for connection in self.active_connections` loop of `broadcast`, from
      list position `i` on. Python's list iterator is a position counter: when a
      send fails, `disconnect` removes the first occurrence of that socket, the
      next connection slides into the current position, and the counter moves
      past it. That connection is not tried in this broadcast. */
  function SweepFrom(conns: seq<Socket>, i: nat, failing: set<Socket>): (r: Sweep)
    decreases |conns| - i
  {
    if i >= |conns| then Sweep(conns, [])
    else
      var c := conns[i];
      var ok := c !in failing;
      var rest := SweepFrom(if ok then conns else RemoveFirst(conns, c), i + 1, failing);
      var attempts := [Attempt(c, ok)] + rest.attempts;
      assert attempts[1..] == rest.attempts;
      assert Failed(attempts) == (if ok then [] else [c]) + Failed(rest.attempts);
      Sweep(rest.survivors, attempts)
  }

  /** The effect of broadcasting each of `messages` in turn, starting from the
      connection list `conns`. */
  function BroadcastAll(conns: seq<Socket>, messages: seq<Message>, failing: set<Socket>): (t: Trace)
    decreases |messages|
  {
    if messages == [] then Trace(conns, [])
    else
      var s := SweepFrom(conns, 0, failing);
      var rest := BroadcastAll(s.survivors, messages[1..], failing);
      Trace(rest.survivors, Deliveries(s.attempts, messages[0]) + rest.deliveries)
  }

  /** The messages that reached `c`, in the order they reached it. */
  function ReceivedBy(c: Socket, deliveries: seq<Delivery>): seq<Message> {
    if deliveries == [] then []
    else
      (if deliveries[0].socket == c then [deliveries[0].message] else [])
      + ReceivedBy(c, deliveries[1..])
  }

  class WebSocketManager {
    /** `active_connections`, in registration order. */
    var active: seq<Socket>
    /** Everything sent to clients through this manager, in order. */
    ghost var delivered: seq<Delivery>

    constructor ()
      ensures active == [] && delivered == []
    {
      active := [];
      delivered := [];
    }

    /** `connect`: the handshake is taken to succeed; the socket goes to the end
        of the list even when it is already there. */
    method Connect(ws: Socket)
      modifies this
      ensures active == old(active) + [ws]
      ensures delivered == old(delivered)
    {
      active := active + [ws];
    }

    /** `disconnect`: drops the first occurrence of `ws`, if any. */
    method Disconnect(ws: Socket)
      modifies this
      ensures active == RemoveFirst(old(active), ws)
      ensures delivered == old(delivered)
    {
      if ws in active {
        active := RemoveFirst(active, ws);
      }
    }

    /** `websocket.send_json(message)`: goes through unless the peer is gone. */
    method Send(ws: Socket, message: Message, failing: set<Socket>) returns (ok: bool)
      modifies this
      ensures ok <==> ws !in failing
      ensures active == old(active)
      ensures delivered == old(delivered) + (if ok then [Delivery(ws, message)] else [])
    {
      ok := ws !in failing;
      if ok {
        delivered := delivered + [Delivery(ws, message)];
      }
    }

    /** `send_personal_message`: one send to `ws` (registered or not); a failure
        is returned to the caller (`ok` false) and the list is not touched. */
    method SendPersonalMessage(message: Message, ws: Socket, failing: set<Socket>) returns (ok: bool)
      modifies this
      ensures ok <==> ws !in failing
      ensures active == old(active)
      ensures delivered == old(delivered) + (if ok then [Delivery(ws, message)] else [])
    {
      ok := Send(ws, message, failing);
    }

    /** `broadcast`: tries every connection the position counter reaches,
        removes the ones whose send failed, and never raises. */
    method Broadcast(message: Message, failing: set<Socket>)
      modifies this
      ensures active == SweepFrom(old(active), 0, failing).survivors
      ensures delivered == old(delivered) + Deliveries(SweepFrom(old(active), 0, failing).attempts, message)
    {
      ghost var whole := SweepFrom(active, 0, failing);
      ghost var done: seq<Attempt> := [];
      var i := 0;
      while i < |active|
        invariant done + SweepFrom(active, i, failing).attempts == whole.attempts
        invariant SweepFrom(active, i, failing).survivors == whole.survivors
        invariant delivered == old(delivered) + Deliveries(done, message)
        decreases |active| - i
      {
        var connection := active[i];
        ghost var prev := active;
        SweepAdvance(active, i, failing, done);
        var ok := Send(connection, message, failing);
        DeliveriesAppend(done, [Attempt(connection, ok)], message);
        done := done + [Attempt(connection, ok)];
        if !ok {
          Disconnect(connection);
        }
        assert active == if ok then prev else RemoveFirst(prev, connection);
        i := i + 1;
      }
      assert SweepFrom(active, i, failing).attempts == [];
      assert done == whole.attempts;
    }
  }

  /** One turn of the broadcast loop: the attempt on `conns[i]` is the next one,
      and the rest of the sweep continues from position `i + 1` of the list as
      the turn left it. */
  lemma SweepAdvance(conns: seq<Socket>, i: nat, failing: set<Socket>, done: seq<Attempt>)
    requires i < |conns|
    ensures var c := conns[i];
            var next := if c in failing then RemoveFirst(conns, c) else conns;
            && (done + [Attempt(c, c !in failing)]) + SweepFrom(next, i + 1, failing).attempts
               == done + SweepFrom(conns, i, failing).attempts
            && SweepFrom(next, i + 1, failing).survivors == SweepFrom(conns, i, failing).survivors
  {
    var c := conns[i];
    var rest := SweepFrom(if c in failing then RemoveFirst(conns, c) else conns, i + 1, failing).attempts;
    assert SweepFrom(conns, i, failing).attempts == [Attempt(c, c !in failing)] + rest;
    assert (done + [Attempt(c, c !in failing)]) + rest == done + ([Attempt(c, c !in failing)] + rest);
  }

  lemma {:induction false} DeliveriesAppend(a: seq<Attempt>, b: seq<Attempt>, message: Message)
    ensures Deliveries(a + b, message) == Deliveries(a, message) + Deliveries(b, message)
    ensures |b| == 1 ==> Deliveries(b, message) == if b[0].ok then [Delivery(b[0].socket, message)] else []
  {
    if a == [] {
      assert a + b == b;
    } else {
      assert (a + b)[0] == a[0];
      assert (a + b)[1..] == a[1..] + b;
      DeliveriesAppend(a[1..], b, message);
    }
  }
}
