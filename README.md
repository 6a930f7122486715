# fast-agent GUI event broadcast, modelled in Dafny

This project models the event path of the fast-agent web GUI. It covers four
pieces:

- **`WebSocketManager`** keeps the list of connected browser clients. It can
  register a client, unregister one, send to one, and broadcast to all.
- **`FastAgent`** keeps an ordered list of event listeners. `run` tells every
  listener when a run starts and when it completes or fails, and one failing
  listener never disturbs the others.
- **The GUI server** contributes three parts:
  - the `WebUIEventListener`, which turns every event into a broadcast;
  - the `/ws` endpoint's read-and-dispatch loop;
  - the `run_agent` background task, which runs a `FastAgent` and broadcasts
    its final answer or error.
- **The placeholder `Agent`** answers `"This is a response to: "` followed by
  the prompt.

The outside world is modelled by parameters:

- **Socket sends.** A send to a socket fails exactly when that socket is in the
  set `failing`, meaning the peer has gone away.
- **Other listeners.** An `External(id)` listener raises when `id` is in the
  set `faulty`.
- **The agent.** The agent call is a `Capability`. It is either the source's
  placeholder or a given outcome, `Ok(response)` or `Err(message)`.
- **Incoming messages.** What a client sends is a sequence of `Inbound` items,
  each a JSON object or a disconnect.

What reached which client is recorded in the manager's ghost log `delivered`.
Every `on_event` call is recorded in the agent's ghost log `emitted`.

The broadcast loop is modelled as Python runs it. The `for` loop walks the list
by position, and a failed send removes that connection from the list being
walked. The next connection slides into the current position, and the position
counter moves past it, so that connection is not tried in this broadcast
(`SweepSkipsSuccessor`, `SkippedClientExample`). Exactly which connections one
broadcast tries is pinned down by a reference definition, `Reach`: take the
first connection; if its send fails, jump over the one after it; then go on
with the rest (`ReachExact`, `IsolationExample`). The model therefore does not
claim that every registered client receives every broadcast. It proves three
weaker facts instead:

- that claim holds when every registered client is reachable and none is
  registered twice (`AllReachableAllReceive`);
- when no socket is registered twice, each client receives a subsequence of
  what was broadcast, in order, never a message twice
  (`ClientSeesSubsequence`);
- no reachable client is ever dropped: a connection whose peer is not gone
  stays registered (`BroadcastContract`, `FailedUnreachable`).

The no-duplicate premise holds of the server: every accepted connection is a
new socket object, so `websocket_endpoint` never registers a socket that is
already in the list, and a broadcast only removes entries
(`BroadcastKeepsNoDup`, `BroadcastAllKeepsNoDup`). The server's state `App`
keeps the list free of duplicates as an invariant (`App.Valid`), and
`WebsocketEndpoint` and `RunNextTask` preserve it.

Two more behaviours follow the code. A request that lacks `"type"`, or a
`run_agent` request that lacks `"prompt"` or `"model"`, ends the endpoint with a
`KeyError`, and the client stays registered, because only `WebSocketDisconnect`
unregisters it. And `connect` itself does not check for duplicates: the manager
alone would register the same socket twice.

Modules:

| module | contents |
|---|---|
| `Lists` | `Option`, `Result`, `list.remove` (`RemoveFirst`), subsequences |
| `Events` | `EventType`, payloads, outbound messages, sockets, deliveries |
| `Connections` | `WebSocketManager` and the specification of one broadcast (`SweepFrom`) and of a series of broadcasts (`BroadcastAll`) |
| `BroadcastProperties` | what a broadcast keeps, drops, tries and delivers |
| `Agents` | `Agent`, `Agent.run`, the agent capability |
| `Listeners` | `WebUIEventListener`, the listener kinds |
| `Core` | `FastAgent`, its emission loop and `run` |
| `WebApp` | request dispatch, the endpoint loop, `run_agent`, the task queue |

## Model

| member | source | states |
|---|---|---|
| Lists.RemoveFirst | src/mcp_agent/gui/websocket_manager.py:19-22 | removing a socket that is absent leaves the list unchanged; removing one that is present shortens the list by exactly one |
| Lists.RemoveFirstMultiset | src/mcp_agent/gui/websocket_manager.py:21-22 | exactly one copy of the removed element goes, and every other element is kept |
| Lists.RemoveFirstAt | src/mcp_agent/gui/websocket_manager.py:21-22 | the removal cuts the list at the first occurrence; the entries before and after it keep their order |
| Lists.RemoveFirstSubseq | src/mcp_agent/gui/websocket_manager.py:21-22 | the remaining list is a subsequence of the original, so the relative order is kept |
| Lists.RemoveFirstTwice | src/mcp_agent/gui/websocket_manager.py:19-22 | a second `disconnect` of a socket registered once changes nothing |
| Lists.RemoveFirstSuffix | src/mcp_agent/gui/websocket_manager.py:30-35 | after removing the connection at the loop's position, the list from that position on is what used to follow it |
| Lists.RemoveFirstAppended | src/mcp_agent/gui/web_app.py:61-72 | registering a socket that was not in the list and later unregistering it (`connect` then `disconnect`, websocket_manager.py lines 17 and 22) restores the connection list |
| Connections.WebSocketManager.constructor | src/mcp_agent/gui/websocket_manager.py:11-12 | a new manager has no connections and has delivered nothing |
| Connections.WebSocketManager.Connect | src/mcp_agent/gui/websocket_manager.py:14-17 | the socket is appended at the end, duplicates included; earlier entries and deliveries are unchanged |
| Connections.WebSocketManager.Disconnect | src/mcp_agent/gui/websocket_manager.py:19-22 | the list becomes the old list with the first occurrence of the socket removed (unchanged when absent) |
| Connections.WebSocketManager.Send | src/mcp_agent/gui/websocket_manager.py:26 | the send succeeds exactly when the peer is reachable; only then is it delivered; the list is untouched |
| Connections.WebSocketManager.SendPersonalMessage | src/mcp_agent/gui/websocket_manager.py:24-26 | sends only to the given socket, reports failure to the caller, and never changes the connection list |
| Connections.WebSocketManager.Broadcast | src/mcp_agent/gui/websocket_manager.py:28-35 | the new list and the deliveries are those of `SweepFrom` on the old list: the position-counter loop with removal on failure, which never raises |
| Connections.SweepAdvance | src/mcp_agent/gui/websocket_manager.py:30-35 | one loop turn tries the connection at the current position; the rest of the broadcast continues from the next position on the list as the turn left it |
| Connections.SweepFrom | src/mcp_agent/gui/websocket_manager.py:30-35 | defines one broadcast from list position `i` on: try the connection there, on failure remove its first occurrence, move the counter on; its properties are the `BroadcastProperties` lemmas below |
| Connections.BroadcastAll | src/mcp_agent/gui/websocket_manager.py:28-35 | defines a series of broadcasts, each starting from the list the previous one left, with one `failing` set for the whole series; its properties are `BroadcastAllAppend`, `BroadcastAllKeepsNoDup` and `ClientSeesSubsequence` |
| BroadcastProperties.SweepOutcomes | src/mcp_agent/gui/websocket_manager.py:31-35 | each attempted send fails exactly when its peer is unreachable |
| BroadcastProperties.SweepConserves | src/mcp_agent/gui/websocket_manager.py:30-35 | the survivors are a subsequence of the list; the survivors plus the failed sockets are exactly the old list, as a multiset |
| BroadcastProperties.FailedAreTried | src/mcp_agent/gui/websocket_manager.py:33-35 | only sockets whose send was attempted are removed |
| BroadcastProperties.SweepTriesInOrder | src/mcp_agent/gui/websocket_manager.py:30-32 | the attempted sockets form a subsequence of the list from the starting position, so each entry is tried at most once and in list order |
| BroadcastProperties.BroadcastContract | src/mcp_agent/gui/websocket_manager.py:28-35 | one broadcast tries a subsequence of the list; outcomes follow reachability; nothing is added; survivors keep their order; every connection that did not fail survives, and so does every connection whose peer is reachable; without duplicates no failed connection survives |
| BroadcastProperties.FailedUnreachable | src/mcp_agent/gui/websocket_manager.py:31-35 | when each send fails exactly if its peer is gone, every socket removed as a failed send is one whose peer is gone |
| BroadcastProperties.SplitMembers | src/mcp_agent/gui/websocket_manager.py:30-35 | when a list is split into kept and lost parts, anything not lost is kept, and without duplicates nothing lost is kept |
| BroadcastProperties.BroadcastKeepsNoDup | src/mcp_agent/gui/websocket_manager.py:28-35 | a broadcast on a list without duplicates leaves a list without duplicates |
| BroadcastProperties.BroadcastAllKeepsNoDup | src/mcp_agent/gui/websocket_manager.py:28-35 | a series of broadcasts on a list without duplicates leaves a list without duplicates |
| BroadcastProperties.SweepAllReachable | src/mcp_agent/gui/websocket_manager.py:30-35 | when every peer is reachable, every connection is tried, in order, every send succeeds, and the list is unchanged |
| BroadcastProperties.SweepSkipsSuccessor | src/mcp_agent/gui/websocket_manager.py:30-35 | on a list without duplicates, when the send at position i fails, the connection after it is not tried in this broadcast, yet it stays registered |
| BroadcastProperties.SkippedNotTried | src/mcp_agent/gui/websocket_manager.py:30-35 | on a list without duplicates, the connection after a failed one is never among the attempted sockets of that broadcast |
| BroadcastProperties.Reach | src/mcp_agent/gui/websocket_manager.py:30-35 | an independent reference definition of the connections one broadcast tries: the first, then, after a failure, skip one |
| BroadcastProperties.ReachExact | src/mcp_agent/gui/websocket_manager.py:30-35 | the sockets a broadcast tries, in order, are exactly those of `Reach` on the list from the starting position: every connection not right after a failed one is tried, and a failure does not end the broadcast |
| BroadcastProperties.IsolationExample | src/mcp_agent/gui/websocket_manager.py:30-35 | with clients A, B, C and only A gone: A is tried and removed, B is skipped but kept, C is still tried and its send succeeds; the list becomes B, C |
| BroadcastProperties.SkippedClientExample | src/mcp_agent/gui/websocket_manager.py:30-35 | with two clients whose first is gone, only the first is tried; the second survives without receiving the message |
| BroadcastProperties.BroadcastAllAppend | src/mcp_agent/gui/websocket_manager.py:28-35 | broadcasting one series of messages and then another is the same as broadcasting their concatenation |
| BroadcastProperties.BroadcastAllSnoc | src/mcp_agent/gui/websocket_manager.py:28-35 | one more broadcast after a series continues from the list that series left |
| BroadcastProperties.ReceivedByAppend | src/mcp_agent/gui/websocket_manager.py:32 | what a client received from two runs of deliveries is what it received from each, in order |
| BroadcastProperties.ReceivedFromSweep | src/mcp_agent/gui/websocket_manager.py:30-32 | a client tried at most once receives the message once if its send went through, otherwise not at all |
| BroadcastProperties.NotTriedReceivesNothing | src/mcp_agent/gui/websocket_manager.py:30-32 | a client that a broadcast never tried receives nothing from it |
| BroadcastProperties.SweepReceivesAtMostOnce | src/mcp_agent/gui/websocket_manager.py:28-35 | without duplicates, one broadcast delivers to a client at most once, exactly when its send succeeded |
| BroadcastProperties.ClientSeesSubsequence | src/mcp_agent/gui/websocket_manager.py:28-35 | when the list holds no socket twice, over any series of broadcasts each client receives a subsequence of the messages, in broadcast order, never a message twice |
| BroadcastProperties.AllReachableAllReceive | src/mcp_agent/gui/websocket_manager.py:28-35 | when all registered peers are reachable and none is registered twice, every client receives every message, in order, and nobody is dropped |
| Agents.Run | src/mcp_agent/agents/agent.py:33-44 | the response is the fixed prefix followed by the prompt |
| Agents.PrefixLength | src/mcp_agent/agents/agent.py:44 | the prefix is 23 characters long |
| Agents.RunInjective | src/mcp_agent/agents/agent.py:44 | two responses are equal exactly when their prompts are, whatever the agent's configuration |
| Agents.Invoke | src/mcp_agent/core/fastagent.py:87-89 | defines the outcome of `await agent.run(prompt)`: the placeholder's answer, or the given response or failure; proved about in `PlaceholderNeverFails` |
| Agents.PlaceholderNeverFails | src/mcp_agent/agents/agent.py:33-44 | the placeholder agent never fails, and its answer ends with the prompt |
| Listeners.EventMessage | src/mcp_agent/gui/web_app.py:32-35 | defines the message `{"type": event type, "data": data}` that the GUI listener broadcasts |
| Listeners.WebUIEventListener.constructor | src/mcp_agent/gui/web_app.py:27-28 | the listener is bound to the given manager |
| Listeners.WebUIEventListener.OnEvent | src/mcp_agent/gui/web_app.py:30-35 | exactly one broadcast of `{"type": event type, "data": data}`, with the data passed through, and it never fails |
| Core.Emissions | src/mcp_agent/core/fastagent.py:63-67 | defines the calls one `_emit_event` makes: each listener in list order, with whether its call raised; proved about in `EmissionsShape` |
| Core.Fanout | src/mcp_agent/core/fastagent.py:63-65 | defines the broadcasts one manager receives from one `_emit_event`: one per GUI listener bound to it, in list order; proved about in `FanoutShape` and `FanoutCount` |
| Core.StartPayload | src/mcp_agent/core/fastagent.py:82-85 | the start payload has exactly the keys `prompt` and `model`; the prompt is passed through; the model is the configured one when it is non-empty and `"default"` otherwise (`self.model or "default"`) |
| Core.RunEvents | src/mcp_agent/core/fastagent.py:82-103 | defines the two events of one `run`: the start, then the completion or the error; proved about in `RunEmissions` |
| Core.FinishEvent | src/mcp_agent/core/fastagent.py:92-103 | defines the event after the agent call: `AGENT_COMPLETE` with the response, or `ERROR` with the failure's text |
| Core.FanoutStep | src/mcp_agent/core/fastagent.py:63-65 | one more listener adds one broadcast to a manager exactly when it is a GUI listener bound to that manager |
| Core.EmissionsStep | src/mcp_agent/core/fastagent.py:63-67 | one more listener adds exactly its own call, with the event's type and data, at the end of the emissions |
| Core.FanoutBroadcastStep | src/mcp_agent/core/fastagent.py:63-65 | a GUI listener bound to a manager adds one broadcast of the event after the earlier ones; any other listener leaves that manager's list and deliveries alone |
| Core.EmissionsPair | src/mcp_agent/core/fastagent.py:82-104 | the emissions of a run are those of its start event followed by those of its finishing event |
| Core.RunBroadcasts | src/mcp_agent/core/fastagent.py:82-104 | a manager's broadcasts from the two emissions of a run are those of the start event, then those of the finishing event, starting from the list the first left |
| Core.EmissionsShape | src/mcp_agent/core/fastagent.py:63-67 | `_emit_event` calls every listener exactly once, in list order, with the same type and data; whether a call fails depends on that listener alone |
| Core.FanoutShape | src/mcp_agent/core/fastagent.py:63-67 | a manager receives only copies of the event, and receives none exactly when no GUI listener bound to it is attached |
| Core.FanoutCount | src/mcp_agent/core/fastagent.py:63-65 | a manager receives as many copies of the event as there are GUI listeners bound to it |
| Core.RunEmissions | src/mcp_agent/core/fastagent.py:69-104 | a run calls every listener twice: first with the start event, then with the completion event (response) or the error event (message) |
| Core.FastAgent.constructor | src/mcp_agent/core/fastagent.py:20-36 | model, settings and config path are stored as given, and no listener is attached |
| Core.CallListener | src/mcp_agent/core/fastagent.py:64-67 | one listener call returns normally exactly when the listener does not raise; a GUI listener makes its manager broadcast the event once; nothing escapes |
| Core.FastAgent.AddEventListener | src/mcp_agent/core/fastagent.py:39-45 | the listener is appended at the end; nothing else changes |
| Core.FastAgent.RemoveEventListener | src/mcp_agent/core/fastagent.py:47-54 | the first occurrence is removed if there is one, otherwise nothing changes |
| Core.FastAgent.EmitEvent | src/mcp_agent/core/fastagent.py:56-67 | the calls made are those of `Emissions` (every listener, in order, failures contained) and each bound manager receives its `Fanout` as broadcasts; it never raises |
| Core.FastAgent.Run | src/mcp_agent/core/fastagent.py:69-104 | the result is exactly the agent's outcome (a response, or the same failure re-raised), whatever the listeners do; the emitted events are the start followed by the completion or the error |
| WebApp.Dispatch | src/mcp_agent/gui/web_app.py:63-70 | a run is scheduled exactly for type `run_agent` with both `prompt` and `model`, carrying those values; other types are ignored; a missing key is reported, in the order `type`, `prompt`, `model` |
| WebApp.Serve | src/mcp_agent/gui/web_app.py:62-72 | defines the endpoint's session over the items a client sends: how it ends, the runs it schedules in order, and how many items it reads; proved about in `ServeExits`, `ServeReads` and `ServeAppend` |
| WebApp.Requests | src/mcp_agent/gui/web_app.py:65-67 | defines the runs a sequence of items asks for: one `(prompt, model)` run per complete `run_agent` request, in order |
| WebApp.ServeExits | src/mcp_agent/gui/web_app.py:62-72 | the session ends as `Disconnected` exactly when the last item read is a disconnect, and with `KeyError(key)` exactly when the last item read is a request missing `key`; the runs scheduled are exactly the `run_agent` requests read, in order |
| WebApp.ServeSingle | src/mcp_agent/gui/web_app.py:62-72 | one item is read; a disconnect ends the loop as `Disconnected`, a missing key as that `KeyError`, anything else lets it continue; only a complete `run_agent` request schedules a run |
| WebApp.ServeReads | src/mcp_agent/gui/web_app.py:62-72 | the loop reads at most what was sent; it is still reading exactly when every item read let it continue; otherwise the last item read is the disconnect or the malformed request |
| WebApp.ServeAppend | src/mcp_agent/gui/web_app.py:62-72 | after the loop stops, later items are never read and nothing more is scheduled; while it is reading, later items continue the same session |
| WebApp.RunAgentMessages | src/mcp_agent/gui/web_app.py:84-100 | defines the three broadcasts of one `run_agent`: the start event, the outcome event, and the final message; proved about in `RunAgentMessagesShape` |
| WebApp.FinalMessage | src/mcp_agent/gui/web_app.py:87-100 | defines the final broadcast: `agent_response` with `{"response": …}` on success, `error` with `{"message": …}` on failure |
| WebApp.RunAgentMessagesShape | src/mcp_agent/gui/web_app.py:84-100 | a run broadcasts three messages: the `AGENT_START` event with the start payload (prompt, and model or `"default"`), then the outcome event, `AGENT_COMPLETE` on success and `ERROR` on failure, and the final message; the final type is `agent_response` exactly on success and `error` exactly on failure, and both carry the outcome's text |
| WebApp.PlaceholderRunReachesEveryClient | src/mcp_agent/gui/web_app.py:74-92 | with the placeholder agent, every client reachable and no socket registered twice, each client receives the start, the completion and `agent_response` with the prefixed prompt, and nobody is dropped |
| WebApp.RunReachesClientInOrder | src/mcp_agent/gui/web_app.py:74-100 | when no socket is registered twice, whatever fails, each registered client receives the run's messages as a subsequence, in order |
| WebApp.RunAgent | src/mcp_agent/gui/web_app.py:74-100 | a fresh agent for the requested model with exactly one fresh GUI listener on the shared manager; the listener is called with exactly the run's start and outcome events; the clients get the three run messages as broadcasts; the failure, if any, stops there |
| WebApp.FinalBroadcast | src/mcp_agent/gui/web_app.py:84-100 | the final `agent_response` or `error` broadcast continues from the list that the run's two event broadcasts left |
| WebApp.SingleListener | src/mcp_agent/gui/web_app.py:81 | a lone GUI listener reaches only its own manager |
| WebApp.RunFanout | src/mcp_agent/gui/web_app.py:81-84 | with only the GUI listener attached, a run makes its manager broadcast the start event and then the outcome event |
| WebApp.FanoutSingle | src/mcp_agent/gui/web_app.py:30-35 | a lone GUI listener makes its manager broadcast the event once |
| WebApp.App.constructor | src/mcp_agent/gui/web_app.py:47-48 | one new manager with no connections, and no scheduled runs; the no-duplicate invariant holds |
| WebApp.App.WebsocketEndpoint | src/mcp_agent/gui/web_app.py:58-72 | the client is registered; the session is that of `Serve`; the runs appended to the queue are exactly the `run_agent` requests read, in order; the session ends as `Disconnected` exactly when the last item read is a disconnect (`ServeExits`), and only then is the client unregistered, not on a `KeyError`; a client new to the list leaves it as it was on disconnect, and the no-duplicate invariant is kept |
| WebApp.App.ReadRequests | src/mcp_agent/gui/web_app.py:62-70 | the read-and-dispatch loop computes the session of `Serve`: how it ends, how many items it reads, and the runs it appends to the queue |
| WebApp.App.RunNextTask | src/mcp_agent/gui/web_app.py:65-67 | the oldest scheduled run is taken off the queue and carried out as `RunAgent` does; with nothing scheduled nothing changes; the no-duplicate invariant is kept, and so each client's new deliveries are a subsequence of the run's three messages, in order |

## Left out

- The FastAPI application around the endpoint is not modelled. That covers the
  static mounts, the templates, the `/` page, the `/models` list and
  `run_gui`/uvicorn: they serve files and start the server.
- Concurrency is not modelled. Runs scheduled with `asyncio.create_task` are
  queued and each is later carried out in full by `RunNextTask`. So a broadcast
  from one run never interleaves with another run or with a client connecting,
  disconnecting or sending, and runs are never cancelled.
- WebApp.App.WebsocketEndpoint: because of the sequential model, the list seen
  at disconnect is the list right after the connect. A broadcast running
  concurrently could have dropped the socket in between.
- `stop_agent` is a placeholder in the source. It is dispatched and ignored, as
  any unknown type is.
- JSON encoding is not modelled. Payloads are maps from strings to strings, and
  a request's `type`, `prompt` and `model` are strings. Other JSON values, and a
  message that is not an object, are not covered.
- A failure of `receive_json` other than a disconnect is not modelled, and
  neither is a failure of the `accept` handshake in `connect`.
- The string values of `EventType` (from the logging package, which is not part
  of this model) are left opaque. An event message carries the event type
  itself.
- Logger calls are not modelled.
- Listeners other than the GUI one are modelled only by whether their
  `on_event` raises. What they do is outside the model. One `faulty` set covers
  both emissions of a run and every copy of a listener attached twice. So the
  model cannot express an external listener that raises on `AGENT_START` but
  not on `AGENT_COMPLETE`.
- `Settings` and configuration loading are not modelled. Settings are an
  opaque value that the agent stores.
- `Agent.__init__` only stores its three arguments, so it is the datatype
  constructor `Agents.Agent` and has no member of its own.
- Send and receive are driven by the `failing` set and the `Inbound` sequence.
  A peer is either reachable or not for a whole operation. One `failing` set is
  shared by the three broadcasts of one `run_agent`, and by every message of a
  `BroadcastAll` series. So the model cannot express a client that leaves
  between the start broadcast and the final broadcast of a run.
- WebApp.App.WebsocketEndpoint: it requires that the socket is not yet
  registered, because the server accepts each connection as a new socket
  object. Registering one socket twice is modelled only for
  `WebSocketManager.Connect` itself.

## Notes on intended behaviour

- Broadcast: the docstring of `broadcast` (src/mcp_agent/gui/websocket_manager.py:29)
  promises delivery "to all connected clients". The loop skips the connection
  that follows a failed one (`BroadcastProperties.SweepSkipsSuccessor`). The
  model follows the code, and the rest of the model is built on the code's
  behaviour.
- Malformed requests: a request that lacks a key raises a `KeyError` out of the
  endpoint. The client stays registered until a later broadcast to it fails
  (`WebApp.App.WebsocketEndpoint`).
