/** `FastAgent` (src/mcp_agent/core/fastagent.py): an ordered list of event
    listeners, an emission loop that keeps one listener's failure from reaching
    the others, and `run`, which announces the start, calls the agent, and
    announces completion or failure.

    Every call of a listener's `on_event` is recorded in the ghost log
    `emitted`. The GUI listener's calls also show up as broadcasts on its
    manager; an external listener's effects are outside the model. */
module Core {
  import opened Lists
  import opened Events
  import opened Connections
  import opened Listeners
  import opened Agents
  import opened BroadcastProperties

  /** One event as `_emit_event` receives it. */
  datatype Event = Event(kind: EventType, data: Payload)

  /** One call of `listener.on_event(kind, data)`, and whether it returned
      normally. */
  datatype Emission = Emission(listener: Listener, kind: EventType, data: Payload, ok: bool)

  /** The calls one `_emit_event` makes: every listener of `ls`, in order. */
  function Emissions(ls: seq<Listener>, e: Event, faulty: set<nat>): seq<Emission> {
    if ls == [] then []
    else
      var last := ls[|ls| - 1];
      Emissions(ls[..|ls| - 1], e, faulty) + [Emission(last, e.kind, e.data, Succeeds(last, faulty))]
  }

  /** The calls made by emitting each event of `events` in turn. */
  function EmissionsAll(ls: seq<Listener>, events: seq<Event>, faulty: set<nat>): seq<Emission> {
    if events == [] then [] else Emissions(ls, events[0], faulty) + EmissionsAll(ls, events[1..], faulty)
  }

  /** The managers that the GUI listeners of `ls` broadcast to. */
  function Managers(ls: seq<Listener>): set<WebSocketManager> {
    set l | l in ls && l.WebUI? :: l.w.manager
  }

  /** The broadcasts manager `m` receives when `e` is emitted to `ls`: one per
      GUI listener of `ls` bound to `m`. */
  function Fanout(m: WebSocketManager, ls: seq<Listener>, e: Event): seq<Message> {
    if ls == [] then []
    else
      var last := ls[|ls| - 1];
      Fanout(m, ls[..|ls| - 1], e)
      + (if last.WebUI? && last.w.manager == m then [EventMessage(e.kind, e.data)] else [])
  }

  /** One more listener adds its own broadcast, if it is bound to `m`. */
  lemma FanoutStep(m: WebSocketManager, ls: seq<Listener>, i: nat, e: Event)
    requires i < |ls|
    ensures Fanout(m, ls[..i + 1], e)
            == Fanout(m, ls[..i], e) + (if ls[i].WebUI? && ls[i].w.manager == m then [EventMessage(e.kind, e.data)] else [])
  {
    assert ls[..i + 1][..i] == ls[..i];
    assert ls[..i + 1][i] == ls[i];
  }

  function FanoutAll(m: WebSocketManager, ls: seq<Listener>, events: seq<Event>): seq<Message> {
    if events == [] then [] else Fanout(m, ls, events[0]) + FanoutAll(m, ls, events[1..])
  }

  /** The start payload `{"prompt": prompt, "model": self.model or "default"}`:
      Python's `or` replaces both `None` and the empty string. */
  function StartPayload(prompt: string, model: Option<string>): (p: Payload)
    ensures p.Keys == {"prompt", "model"} && p["prompt"] == prompt
    ensures p["model"] != ""
    ensures model.Some? && model.value != "" ==> p["model"] == model.value
    ensures !(model.Some? && model.value != "") ==> p["model"] == "default"
  {
    map["prompt" := prompt, "model" := if model.Some? && model.value != "" then model.value else "default"]
  }

  /** The events one `run` emits, given what the agent call produced. */
  function RunEvents(prompt: string, model: Option<string>, outcome: Result<string, string>): seq<Event> {
    [Event(AgentStart, StartPayload(prompt, model)), FinishEvent(outcome)]
  }

  /** The event emitted once the agent call is over: the completion with the
      response from the `try` branch, or the error with the failure's text from
      the `except` branch. */
  function FinishEvent(outcome: Result<string, string>): Event {
    match outcome
    case Ok(response) => Event(AgentComplete, map["response" := response])
    case Err(message) => Event(Error, map["error" := message])
  }

  /** `_emit_event` calls each listener exactly once, in attachment order, with
      the event's own type and data. Whether a call fails depends only on that
      listener, so a listener that raises keeps no later listener from being
      called. */
  lemma {:induction false} EmissionsShape(ls: seq<Listener>, e: Event, faulty: set<nat>)
    ensures |Emissions(ls, e, faulty)| == |ls|
    ensures forall j :: 0 <= j < |ls| ==>
              Emissions(ls, e, faulty)[j] == Emission(ls[j], e.kind, e.data, Succeeds(ls[j], faulty))
  {
    if ls != [] {
      var init := ls[..|ls| - 1];
      EmissionsShape(init, e, faulty);
      assert forall j :: 0 <= j < |init| ==> init[j] == ls[j];
    }
  }

  /** A manager receives copies of the event and nothing else; it receives
      none exactly when no GUI listener bound to it is attached. */
  lemma {:induction false} FanoutShape(m: WebSocketManager, ls: seq<Listener>, e: Event)
    ensures forall k :: 0 <= k < |Fanout(m, ls, e)| ==> Fanout(m, ls, e)[k] == EventMessage(e.kind, e.data)
    ensures Fanout(m, ls, e) == [] <==> forall j :: 0 <= j < |ls| ==> !(ls[j].WebUI? && ls[j].w.manager == m)
  {
    if ls != [] {
      var init := ls[..|ls| - 1];
      FanoutShape(m, init, e);
      assert forall j :: 0 <= j < |init| ==> init[j] == ls[j];
    }
  }

  /** The number of copies a manager receives is the number of GUI listeners
      bound to it. */
  lemma {:induction false} FanoutCount(m: WebSocketManager, ls: seq<Listener>, e: Event)
    ensures |Fanout(m, ls, e)| == |set j | 0 <= j < |ls| && ls[j].WebUI? && ls[j].w.manager == m|
  {
    var bound := set j | 0 <= j < |ls| && ls[j].WebUI? && ls[j].w.manager == m;
    if ls != [] {
      var n := |ls| - 1;
      var init := ls[..n];
      FanoutCount(m, init, e);
      var before := set j | 0 <= j < |init| && init[j].WebUI? && init[j].w.manager == m;
      if ls[n].WebUI? && ls[n].w.manager == m {
        assert bound == before + {n};
      } else {
        assert bound == before;
      }
    } else {
      assert bound == {};
    }
  }

  /** A run makes two rounds of calls over the same listeners: first every
      listener hears the start (prompt and model), then every listener hears
      either the completion with the response or the error with its message. */
  lemma RunEmissions(ls: seq<Listener>, prompt: string, model: Option<string>,
                     outcome: Result<string, string>, faulty: set<nat>)
    ensures var em := EmissionsAll(ls, RunEvents(prompt, model, outcome), faulty);
            && |em| == 2 * |ls|
            && (forall j :: 0 <= j < |ls| ==>
                  em[j] == Emission(ls[j], AgentStart, StartPayload(prompt, model), Succeeds(ls[j], faulty)))
            && (forall j :: 0 <= j < |ls| ==>
                  em[|ls| + j] == match outcome
                                  case Ok(response) =>
                                    Emission(ls[j], AgentComplete, map["response" := response], Succeeds(ls[j], faulty))
                                  case Err(message) =>
                                    Emission(ls[j], Error, map["error" := message], Succeeds(ls[j], faulty)))
  {
    var events := RunEvents(prompt, model, outcome);
    var tail := events[1..];
    assert tail[0] == events[1] && tail[1..] == [];
    assert EmissionsAll(ls, tail, faulty) == Emissions(ls, events[1], faulty) + [];
    var start := Emissions(ls, events[0], faulty);
    var finish := Emissions(ls, events[1], faulty);
    assert EmissionsAll(ls, events, faulty) == start + finish;
    EmissionsShape(ls, events[0], faulty);
    EmissionsShape(ls, events[1], faulty);
    assert events[1] == FinishEvent(outcome);
    forall j | 0 <= j < |ls|
      ensures (start + finish)[|ls| + j] == finish[j]
    {
    }
  }

  /** Emitting to one more listener: a GUI listener bound to `m` adds one
      broadcast of the event after the earlier ones; any other listener leaves
      `m` alone. */
  lemma FanoutBroadcastStep(conns: seq<Socket>, log: seq<Delivery>, m: WebSocketManager,
                            ls: seq<Listener>, i: nat, e: Event, failing: set<Socket>)
    requires i < |ls|
    ensures var t := BroadcastAll(conns, Fanout(m, ls[..i], e), failing);
            var u := BroadcastAll(conns, Fanout(m, ls[..i + 1], e), failing);
            var s := SweepFrom(t.survivors, 0, failing);
            if ls[i].WebUI? && ls[i].w.manager == m
            then u.survivors == s.survivors
                 && log + u.deliveries == (log + t.deliveries) + Deliveries(s.attempts, EventMessage(e.kind, e.data))
            else u == t
  {
    FanoutStep(m, ls, i, e);
    if ls[i].WebUI? && ls[i].w.manager == m {
      BroadcastAllSnoc(conns, Fanout(m, ls[..i], e), EventMessage(e.kind, e.data), failing);
    } else {
      assert Fanout(m, ls[..i], e) + [] == Fanout(m, ls[..i], e);
    }
  }

  /** The two emissions of a run, one after the other, are the emissions of
      its two events. */
  lemma EmissionsPair(ls: seq<Listener>, start: Event, finish: Event, faulty: set<nat>)
    ensures EmissionsAll(ls, [start, finish], faulty) == Emissions(ls, start, faulty) + Emissions(ls, finish, faulty)
  {
    assert [start, finish][1..] == [finish] && [finish][1..] == [];
    assert EmissionsAll(ls, [finish], faulty) == Emissions(ls, finish, faulty) + [];
  }

  /** The broadcasts of a run's two emissions, one after the other, are those of
      its two events in order. */
  lemma RunBroadcasts(conns: seq<Socket>, log: seq<Delivery>, m: WebSocketManager,
                      ls: seq<Listener>, start: Event, finish: Event, failing: set<Socket>)
    ensures var t1 := BroadcastAll(conns, Fanout(m, ls, start), failing);
            var t2 := BroadcastAll(t1.survivors, Fanout(m, ls, finish), failing);
            var t := BroadcastAll(conns, FanoutAll(m, ls, [start, finish]), failing);
            t.survivors == t2.survivors && log + t.deliveries == (log + t1.deliveries) + t2.deliveries
  {
    assert [start, finish][1..] == [finish] && [finish][1..] == [];
    assert FanoutAll(m, ls, [finish]) == Fanout(m, ls, finish) + [];
    assert FanoutAll(m, ls, [start, finish]) == Fanout(m, ls, start) + Fanout(m, ls, finish);
    BroadcastAllAppend(conns, Fanout(m, ls, start), Fanout(m, ls, finish), failing);
    var t1 := BroadcastAll(conns, Fanout(m, ls, start), failing);
    var t2 := BroadcastAll(t1.survivors, Fanout(m, ls, finish), failing);
    assert log + (t1.deliveries + t2.deliveries) == (log + t1.deliveries) + t2.deliveries;
  }

  /** One more listener adds its own call to the emissions. */
  lemma EmissionsStep(ls: seq<Listener>, i: nat, e: Event, faulty: set<nat>)
    requires i < |ls|
    ensures Emissions(ls[..i + 1], e, faulty)
            == Emissions(ls[..i], e, faulty) + [Emission(ls[i], e.kind, e.data, Succeeds(ls[i], faulty))]
  {
    assert ls[..i + 1][..i] == ls[..i];
    assert ls[..i + 1][i] == ls[i];
  }

  /** One turn of `_emit_event`: `await listener.on_event(event_type, data)`
      inside `try`, with the exception logged and dropped. The GUI listener
      broadcasts the event; `ok` tells whether the call returned normally. */
  method CallListener(listener: Listener, kind: EventType, data: Payload, failing: set<Socket>, faulty: set<nat>)
    returns (ok: bool)
    modifies if listener.WebUI? then {listener.w.manager} else {}
    ensures ok == Succeeds(listener, faulty)
    ensures listener.WebUI? ==>
              var m := listener.w.manager;
              var s := SweepFrom(old(m.active), 0, failing);
              m.active == s.survivors && m.delivered == old(m.delivered) + Deliveries(s.attempts, EventMessage(kind, data))
  {
    match listener {
      case WebUI(w) =>
        w.OnEvent(kind, data, failing);
        ok := true;
      case External(id) =>
        // An external listener runs outside the model; when it raises, the
        // error is logged and dropped.
        ok := id !in faulty;
    }
  }

  class FastAgent {
    const model: Option<string>
    const settings: Option<Settings>
    const configPath: Option<string>
    /** `_event_listeners`, in attachment order. */
    var listeners: seq<Listener>
    /** Every `on_event` call made so far, in order. */
    ghost var emitted: seq<Emission>

    constructor (model: Option<string>, settings: Option<Settings>, configPath: Option<string>)
      ensures this.model == model && this.settings == settings && this.configPath == configPath
      ensures listeners == [] && emitted == []
    {
      this.model := model;
      this.settings := settings;
      this.configPath := configPath;
      listeners := [];
      emitted := [];
    }

    /** `add_event_listener`: appended at the end, even if already attached. */
    method AddEventListener(listener: Listener)
      modifies this
      ensures listeners == old(listeners) + [listener]
      ensures emitted == old(emitted)
    {
      listeners := listeners + [listener];
    }

    /** `remove_event_listener`: the first occurrence goes, if there is one. */
    method RemoveEventListener(listener: Listener)
      modifies this
      ensures listeners == RemoveFirst(old(listeners), listener)
      ensures emitted == old(emitted)
    {
      if listener in listeners {
        listeners := RemoveFirst(listeners, listener);
      }
    }

    /** `_emit_event`: calls every listener once, in order, with the same type
        and data; a listener that raises is logged and skipped over, so later
        listeners are still called and nothing reaches the caller. */
    method EmitEvent(kind: EventType, data: Payload, failing: set<Socket>, faulty: set<nat>)
      modifies this, Managers(listeners)
      ensures listeners == old(listeners)
      ensures emitted == old(emitted) + Emissions(listeners, Event(kind, data), faulty)
      ensures forall m :: m in Managers(listeners) ==>
                var t := BroadcastAll(old(m.active), Fanout(m, listeners, Event(kind, data)), failing);
                m.active == t.survivors && m.delivered == old(m.delivered) + t.deliveries
    {
      var ls := listeners;
      var e := Event(kind, data);
      var i := 0;
      while i < |ls|
        invariant i <= |ls| && listeners == ls
        invariant emitted == old(emitted) + Emissions(ls[..i], e, faulty)
        invariant forall m :: m in Managers(ls) ==>
                    var t := BroadcastAll(old(m.active), Fanout(m, ls[..i], e), failing);
                    m.active == t.survivors && m.delivered == old(m.delivered) + t.deliveries
      {
        ghost var listener := ls[i];
        assert listener.WebUI? ==> listener.w.manager in Managers(ls);
        var ok := CallListener(ls[i], kind, data, failing, faulty);
        emitted := emitted + [Emission(ls[i], kind, data, ok)];
        EmissionsStep(ls, i, e, faulty);
        forall m | m in Managers(ls)
          ensures var t := BroadcastAll(old(m.active), Fanout(m, ls[..i + 1], e), failing);
                  m.active == t.survivors && m.delivered == old(m.delivered) + t.deliveries
        {
          FanoutBroadcastStep(old(m.active), old(m.delivered), m, ls, i, e, failing);
        }
        i := i + 1;
      }
      assert ls[..i] == ls;
    }

    /** `run`: emit the start event, call the agent, then either emit the
        completion event and return the response, or emit the error event and
        re-raise the same failure (returned here as `Err`). Listener failures
        change neither outcome. */
    method Run(prompt: string, cap: Capability, failing: set<Socket>, faulty: set<nat>)
      returns (r: Result<string, string>)
      modifies this, Managers(listeners)
      ensures listeners == old(listeners)
      ensures r == Invoke(cap, Agent(model, settings, configPath), prompt)
      ensures emitted == old(emitted) + EmissionsAll(listeners, RunEvents(prompt, model, r), faulty)
      ensures forall m :: m in Managers(listeners) ==>
                var t := BroadcastAll(old(m.active), FanoutAll(m, listeners, RunEvents(prompt, model, r)), failing);
                m.active == t.survivors && m.delivered == old(m.delivered) + t.deliveries
    {
      var agent := Agent(model, settings, configPath);
      var start := Event(AgentStart, StartPayload(prompt, model));
      EmitEvent(start.kind, start.data, failing, faulty);
      r := Invoke(cap, agent, prompt);
      var finish := FinishEvent(r);
      EmitEvent(finish.kind, finish.data, failing, faulty);
      EmissionsPair(listeners, start, finish, faulty);
      forall m | m in Managers(listeners)
        ensures var t := BroadcastAll(old(m.active), FanoutAll(m, listeners, [start, finish]), failing);
                m.active == t.survivors && m.delivered == old(m.delivered) + t.deliveries
      {
        RunBroadcasts(old(m.active), old(m.delivered), m, listeners, start, finish, failing);
      }
    }
  }
}
