/** The GUI server (src/mcp_agent/gui/web_app.py): the `/ws` endpoint that
    registers a client and reads its requests, and `run_agent`, the background
    task that runs a `FastAgent` with the GUI listener attached and broadcasts
    the final answer.

    `asyncio.create_task` is modelled as a queue: the endpoint appends a
    `RunRequest`, and `RunNextTask` later runs the oldest one to completion. */
module WebApp {
  import opened Lists
  import opened Events
  import opened Connections
  import opened BroadcastProperties
  import opened Agents
  import opened Listeners
  import opened Core

  /** What one `websocket.receive_json()` yields: a JSON object, or the
      `WebSocketDisconnect` raised when the client goes away. */
  datatype Inbound = Received(data: Payload) | ClientDisconnect

  /** A scheduled `run_agent(data["prompt"], data["model"], ws_manager)`. */
  datatype RunRequest = RunRequest(prompt: string, model: string)

  /** What the endpoint does with one received object: schedule a run, do
      nothing, or fail on a missing key (`KeyError`). */
  datatype Action = Spawn(request: RunRequest) | Ignore | MissingKey(key: string)

  /** How a session of the endpoint ends: the client went away, a `KeyError`
      escaped the loop, or the loop is still waiting for the next message. */
  datatype Exit = Disconnected | Raised(key: string) | Reading

  /** A session: how it ended, the runs it scheduled in order, and how many
      inbound items it consumed. */
  datatype Session = Session(exit: Exit, spawned: seq<RunRequest>, read: nat)

  /** The `if`/`elif` on `data["type"]`. The lookups happen in the order the
      source writes them: `"type"` first, then `"prompt"`, then `"model"`. A
      `stop_agent` request, like any other type, does nothing. */
  function Dispatch(data: Payload): (a: Action)
    ensures a.Spawn? <==> "type" in data && data["type"] == "run_agent" && "prompt" in data && "model" in data
    ensures a.Spawn? ==> a.request == RunRequest(data["prompt"], data["model"])
    ensures a.Ignore? <==> "type" in data && data["type"] != "run_agent"
    ensures a.MissingKey? ==> a.key !in data && a.key in {"type", "prompt", "model"}
    ensures a.MissingKey? && a.key != "type" ==> "type" in data && data["type"] == "run_agent"
    ensures a == MissingKey("model") ==> "prompt" in data
  {
    if "type" !in data then MissingKey("type")
    else if data["type"] == "run_agent" then
      if "prompt" !in data then MissingKey("prompt")
      else if "model" !in data then MissingKey("model")
      else Spawn(RunRequest(data["prompt"], data["model"]))
    else Ignore
  }

  /** The `while True` loop of `websocket_endpoint` over the items the client
      sends. */
  function Serve(inbound: seq<Inbound>): Session {
    if inbound == [] then Session(Reading, [], 0)
    else
      match inbound[0]
      case ClientDisconnect => Session(Disconnected, [], 1)
      case Received(data) =>
        match Dispatch(data)
        case MissingKey(key) => Session(Raised(key), [], 1)
        case Spawn(request) =>
          var rest := Serve(inbound[1..]);
          Session(rest.exit, [request] + rest.spawned, rest.read + 1)
        case Ignore =>
          var rest := Serve(inbound[1..]);
          Session(rest.exit, rest.spawned, rest.read + 1)
  }

  /** The loop reads at most what was sent, and it reads everything unless it
      stopped: a disconnect or a `KeyError` is the last item read. */
  lemma {:induction false} ServeReads(inbound: seq<Inbound>)
    ensures Serve(inbound).read <= |inbound|
    ensures Serve(inbound).exit == Reading <==>
              (Serve(inbound).read == |inbound| && forall k :: 0 <= k < |inbound| ==> Continues(inbound[k]))
    ensures Serve(inbound).exit != Reading ==> 0 < Serve(inbound).read && !Continues(inbound[Serve(inbound).read - 1])
  {
    if inbound != [] && Continues(inbound[0]) {
      ServeReads(inbound[1..]);
    }
  }

  /** The runs that `items` ask for, in order: one per `run_agent` request
      that carries both `prompt` and `model`. */
  function Requests(items: seq<Inbound>): seq<RunRequest> {
    if items == [] then []
    else
      (if items[0].Received? && Dispatch(items[0].data).Spawn? then [Dispatch(items[0].data).request] else [])
      + Requests(items[1..])
  }

  /** How each kind of item ends the loop: a disconnect, and only a
      disconnect, ends it as `Disconnected`; a request with a missing key, and
      only such a request, ends it with that key's `KeyError`; every
      `run_agent` request read before the end schedules its run, in order. */
  lemma {:induction false} ServeExits(inbound: seq<Inbound>)
    ensures Serve(inbound).read <= |inbound|
    ensures var s := Serve(inbound);
            s.exit == Disconnected <==> 0 < s.read && inbound[s.read - 1] == ClientDisconnect
    ensures var s := Serve(inbound);
            forall key :: s.exit == Raised(key) <==>
              0 < s.read && inbound[s.read - 1].Received? && Dispatch(inbound[s.read - 1].data) == MissingKey(key)
    ensures Serve(inbound).spawned == Requests(inbound[..Serve(inbound).read])
  {
    if inbound != [] {
      var s := Serve(inbound);
      var head := inbound[0];
      if head.Received? && !Dispatch(head.data).MissingKey? {
        var rest := Serve(inbound[1..]);
        ServeExits(inbound[1..]);
        assert s.read == rest.read + 1;
        assert rest.read == 0 || inbound[s.read - 1] == inbound[1..][rest.read - 1];
        assert inbound[..s.read] == [head] + inbound[1..][..rest.read];
        assert inbound[..s.read][1..] == inbound[1..][..rest.read];
      } else {
        assert inbound[..s.read] == [head];
        assert [head][1..] == [];
      }
    }
  }

  /** The loop on one item: it reads it, stops on a disconnect or a missing
      key, and schedules the run a complete `run_agent` request asks for. */
  lemma ServeSingle(item: Inbound)
    ensures Serve([item]).read == 1
    ensures Serve([item]).exit
            == if item.ClientDisconnect? then Disconnected
               else if Dispatch(item.data).MissingKey? then Raised(Dispatch(item.data).key)
               else Reading
    ensures Serve([item]).spawned == Requests([item])
  {
    assert [item][1..] == [];
  }

  /** Whether the loop goes on reading after this item. */
  predicate Continues(item: Inbound) {
    item.Received? && !Dispatch(item.data).MissingKey?
  }

  /** Feeding the loop in two parts: once it has stopped, nothing after is read
      and nothing more is scheduled; while it is still reading, the second part
      carries on where the first left off. */
  lemma {:induction false} ServeAppend(pre: seq<Inbound>, post: seq<Inbound>)
    ensures Serve(pre).exit != Reading ==> Serve(pre + post) == Serve(pre)
    ensures Serve(pre).exit == Reading ==>
              Serve(pre + post) == Session(Serve(post).exit, Serve(pre).spawned + Serve(post).spawned,
                                           |pre| + Serve(post).read)
  {
    if pre == [] {
      assert pre + post == post;
    } else {
      assert (pre + post)[0] == pre[0];
      assert (pre + post)[1..] == pre[1..] + post;
      ServeAppend(pre[1..], post);
      if Serve(pre).exit == Reading && Continues(pre[0]) && Dispatch(pre[0].data).Spawn? {
        var request := Dispatch(pre[0].data).request;
        assert [request] + (Serve(pre[1..]).spawned + Serve(post).spawned)
               == ([request] + Serve(pre[1..]).spawned) + Serve(post).spawned;
      }
    }
  }

  /** The three broadcasts one `run_agent` makes, given the agent's outcome:
      the start event, then the completion event and the `agent_response`
      message, or the error event and the `error` message. */
  function RunAgentMessages(request: RunRequest, outcome: Result<string, string>): seq<Message> {
    [EventMessage(AgentStart, StartPayload(request.prompt, Some(request.model))),
     EventMessage(FinishEvent(outcome).kind, FinishEvent(outcome).data),
     FinalMessage(outcome)]
  }

  /** The broadcast `run_agent` ends with: `agent_response` with the response
      from the `try` branch, or `error` with the failure's text from the
      `except` branch. */
  function FinalMessage(outcome: Result<string, string>): Message {
    match outcome
    case Ok(response) => Message(Named("agent_response"), map["response" := response])
    case Err(message) => Message(Named("error"), map["message" := message])
  }

  /** What a client sees of one run: first the start with the prompt, then the
      outcome twice; a response is carried by both later messages, a failure's
      text likewise, and the last message's type tells which happened. */
  lemma RunAgentMessagesShape(request: RunRequest, outcome: Result<string, string>)
    ensures var ms := RunAgentMessages(request, outcome);
            && |ms| == 3
            && ms[0] == EventMessage(AgentStart, StartPayload(request.prompt, Some(request.model)))
            && ms[0].data["prompt"] == request.prompt
            && ms[1].kind == EventTag(if outcome.Ok? then AgentComplete else Error)
            && (ms[2].kind == Named("agent_response") <==> outcome.Ok?)
            && (ms[2].kind == Named("error") <==> outcome.Err?)
            && (outcome.Ok? ==> ms[1].data["response"] == ms[2].data["response"] == outcome.value)
            && (outcome.Err? ==> ms[1].data["error"] == ms[2].data["message"] == outcome.error)
  {
  }

  /** With the source's placeholder agent and every registered client
      reachable (none registered twice), each client receives exactly the
      start event, the completion event and the `agent_response` message, both
      of the latter carrying the prefixed prompt, and no client is dropped. */
  lemma PlaceholderRunReachesEveryClient(c: Socket, conns: seq<Socket>, request: RunRequest, failing: set<Socket>)
    requires NoDup(conns) && c in conns
    requires forall x :: x in conns ==> x !in failing
    ensures var outcome := Invoke(Placeholder, Agent(Some(request.model), None, None), request.prompt);
            var t := BroadcastAll(conns, RunAgentMessages(request, outcome), failing);
            var answer := map["response" := ResponsePrefix + request.prompt];
            && t.survivors == conns
            && ReceivedBy(c, t.deliveries)
               == [EventMessage(AgentStart, StartPayload(request.prompt, Some(request.model))),
                   EventMessage(AgentComplete, answer),
                   Message(Named("agent_response"), answer)]
  {
    var outcome := Invoke(Placeholder, Agent(Some(request.model), None, None), request.prompt);
    AllReachableAllReceive(c, conns, RunAgentMessages(request, outcome), failing);
  }

  /** Whatever fails, a registered client receives some of the run's messages
      in their broadcast order, never one twice and never one out of order. */
  lemma RunReachesClientInOrder(c: Socket, conns: seq<Socket>, request: RunRequest,
                                outcome: Result<string, string>, failing: set<Socket>)
    requires NoDup(conns)
    ensures IsSubseq(ReceivedBy(c, BroadcastAll(conns, RunAgentMessages(request, outcome), failing).deliveries),
                     RunAgentMessages(request, outcome))
  {
    ClientSeesSubsequence(c, conns, RunAgentMessages(request, outcome), failing);
  }

  /** `run_agent`: a fresh `FastAgent` for the requested model, one GUI listener
      on `manager`, a run, and the final broadcast. The agent's failure reaches
      the clients as an `error` message and goes no further. */
  method RunAgent(request: RunRequest, manager: WebSocketManager, cap: Capability, failing: set<Socket>)
    returns (agent: FastAgent, outcome: Result<string, string>)
    modifies manager
    ensures fresh(agent) && agent.model == Some(request.model) && agent.settings == None && agent.configPath == None
    ensures |agent.listeners| == 1 && agent.listeners[0].WebUI?
            && fresh(agent.listeners[0].w) && agent.listeners[0].w.manager == manager
    ensures outcome == Invoke(cap, Agent(Some(request.model), None, None), request.prompt)
    ensures agent.emitted == EmissionsAll(agent.listeners, RunEvents(request.prompt, Some(request.model), outcome), {})
    ensures var t := BroadcastAll(old(manager.active), RunAgentMessages(request, outcome), failing);
            manager.active == t.survivors && manager.delivered == old(manager.delivered) + t.deliveries
  {
    agent := new FastAgent(Some(request.model), None, None);
    var listener := new WebUIEventListener(manager);
    agent.AddEventListener(WebUI(listener));
    assert agent.listeners == [WebUI(listener)];
    SingleListener(listener);
    outcome := agent.Run(request.prompt, cap, failing, {});
    assert agent.emitted == [] + EmissionsAll(agent.listeners, RunEvents(request.prompt, Some(request.model), outcome), {});
    RunFanout(listener, request, outcome);
    assert manager in Managers(agent.listeners);
    manager.Broadcast(FinalMessage(outcome), failing);
    FinalBroadcast(old(manager.active), old(manager.delivered), request, outcome, failing);
  }

  /** The final broadcast of `run_agent` continues from the list the run's two
      event broadcasts left. */
  lemma FinalBroadcast(conns: seq<Socket>, log: seq<Delivery>, request: RunRequest,
                       outcome: Result<string, string>, failing: set<Socket>)
    ensures var ms := RunAgentMessages(request, outcome);
            var t := BroadcastAll(conns, ms[..2], failing);
            var s := SweepFrom(t.survivors, 0, failing);
            var u := BroadcastAll(conns, ms, failing);
            u.survivors == s.survivors
            && log + u.deliveries == (log + t.deliveries) + Deliveries(s.attempts, FinalMessage(outcome))
  {
    var ms := RunAgentMessages(request, outcome);
    BroadcastAllSnoc(conns, ms[..2], ms[2], failing);
    assert ms[..2] + [ms[2]] == ms;
  }

  /** The only manager a lone GUI listener reaches is its own. */
  lemma SingleListener(w: WebUIEventListener)
    ensures Managers([WebUI(w)]) == {w.manager}
  {
    assert WebUI(w) in [WebUI(w)];
  }

  /** With the GUI listener alone attached, a run makes its manager broadcast
      the start event and then the completion or error event. */
  lemma RunFanout(w: WebUIEventListener, request: RunRequest, outcome: Result<string, string>)
    ensures FanoutAll(w.manager, [WebUI(w)], RunEvents(request.prompt, Some(request.model), outcome))
            == RunAgentMessages(request, outcome)[..2]
  {
    var events := RunEvents(request.prompt, Some(request.model), outcome);
    FanoutSingle(w.manager, w, events[0]);
    FanoutSingle(w.manager, w, events[1]);
    var tail := events[1..];
    assert tail[0] == events[1] && tail[1..] == [];
    assert FanoutAll(w.manager, [WebUI(w)], tail) == Fanout(w.manager, [WebUI(w)], events[1]) + [];
  }

  /** A lone GUI listener on `m` makes `m` broadcast the event once. */
  lemma FanoutSingle(m: WebSocketManager, w: WebUIEventListener, e: Event)
    requires w.manager == m
    ensures Fanout(m, [WebUI(w)], e) == [EventMessage(e.kind, e.data)]
  {
    assert [WebUI(w)][..0] == [];
  }

  /** The server state that `create_app` builds: one manager shared by every
      connection and every run, and the runs scheduled but not yet started. */
  class App {
    const manager: WebSocketManager
    /** Runs handed to `asyncio.create_task`, oldest first. */
    var tasks: seq<RunRequest>

    /** The server's connection list holds each client at most once: every
        accepted connection is a new socket object, and a broadcast only ever
        removes entries. */
    ghost predicate Valid()
      reads this, manager
    {
      NoDup(manager.active)
    }

    constructor ()
      ensures fresh(manager) && manager.active == [] && manager.delivered == []
      ensures tasks == []
      ensures Valid()
    {
      manager := new WebSocketManager();
      tasks := [];
    }

    /** `websocket_endpoint`: register the client, then read and dispatch until
        the client goes away (then unregister it) or a `KeyError` escapes (then
        it stays registered). Returns how the session ended and how many items
        it read. */
    method WebsocketEndpoint(ws: Socket, inbound: seq<Inbound>) returns (exit: Exit, read: nat)
      requires Valid() && ws !in manager.active
      modifies this, manager
      ensures Valid()
      ensures exit == Serve(inbound).exit && read == Serve(inbound).read
      ensures tasks == old(tasks) + Serve(inbound).spawned
      ensures read <= |inbound| && tasks == old(tasks) + Requests(inbound[..read])
      ensures exit == Disconnected <==> 0 < read && inbound[read - 1] == ClientDisconnect
      ensures manager.active == if exit == Disconnected then RemoveFirst(old(manager.active) + [ws], ws)
                                else old(manager.active) + [ws]
      ensures exit == Disconnected ==> manager.active == old(manager.active)
      ensures manager.delivered == old(manager.delivered)
    {
      manager.Connect(ws);
      exit, read := ReadRequests(inbound);
      ServeExits(inbound);
      if exit == Disconnected {
        manager.Disconnect(ws);
        RemoveFirstAppended(old(manager.active), ws);
      }
    }

    /** The `while True` loop of `websocket_endpoint`: read one item at a time
        and dispatch it, until a disconnect, a `KeyError`, or the end of what
        the client sent. */
    method ReadRequests(inbound: seq<Inbound>) returns (exit: Exit, read: nat)
      modifies this
      ensures exit == Serve(inbound).exit && read == Serve(inbound).read
      ensures tasks == old(tasks) + Serve(inbound).spawned
    {
      exit := Reading;
      read := 0;
      ghost var spawned: seq<RunRequest> := [];
      while exit == Reading && read < |inbound|
        invariant read <= |inbound|
        invariant Serve(inbound[..read]) == Session(exit, spawned, read)
        invariant tasks == old(tasks) + spawned
        decreases |inbound| - read
      {
        var item := inbound[read];
        ServeAppend(inbound[..read], [item]);
        assert inbound[..read] + [item] == inbound[..read + 1];
        ServeSingle(item);
        match item {
          case ClientDisconnect =>
            exit := Disconnected;
          case Received(data) =>
            match Dispatch(data) {
              case MissingKey(key) =>
                exit := Raised(key);
              case Spawn(request) =>
                tasks := tasks + [request];
                spawned := spawned + [request];
              case Ignore =>
                assert spawned + [] == spawned;
            }
        }
        read := read + 1;
      }
      ServeAppend(inbound[..read], inbound[read..]);
      assert inbound[..read] + inbound[read..] == inbound;
    }

    /** The oldest scheduled run, carried out in full; `None` when nothing is
        scheduled. */
    method RunNextTask(cap: Capability, failing: set<Socket>) returns (ran: Option<RunRequest>)
      requires Valid()
      modifies this, manager
      ensures Valid()
      ensures old(tasks) == [] ==> ran == None && tasks == [] && manager.active == old(manager.active)
                                   && manager.delivered == old(manager.delivered)
      ensures old(tasks) != [] ==>
                && ran == Some(old(tasks)[0]) && tasks == old(tasks)[1..]
                && var request := old(tasks)[0];
                   var outcome := Invoke(cap, Agent(Some(request.model), None, None), request.prompt);
                   var t := BroadcastAll(old(manager.active), RunAgentMessages(request, outcome), failing);
                   manager.active == t.survivors && manager.delivered == old(manager.delivered) + t.deliveries
      ensures old(tasks) != [] ==>
                var request := old(tasks)[0];
                var outcome := Invoke(cap, Agent(Some(request.model), None, None), request.prompt);
                forall c :: IsSubseq(ReceivedBy(c, manager.delivered[|old(manager.delivered)|..]),
                                     RunAgentMessages(request, outcome))
    {
      if tasks == [] {
        ran := None;
      } else {
        var request := tasks[0];
        tasks := tasks[1..];
        ran := Some(request);
        var _, outcome := RunAgent(request, manager, cap, failing);
        var t := BroadcastAll(old(manager.active), RunAgentMessages(request, outcome), failing);
        BroadcastAllKeepsNoDup(old(manager.active), RunAgentMessages(request, outcome), failing);
        assert manager.delivered[|old(manager.delivered)|..] == t.deliveries;
        forall c
          ensures IsSubseq(ReceivedBy(c, manager.delivered[|old(manager.delivered)|..]),
                           RunAgentMessages(request, outcome))
        {
          RunReachesClientInOrder(c, old(manager.active), request, outcome, failing);
        }
      }
    }
  }
}
