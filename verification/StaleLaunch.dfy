/**
  When a harness can start in a restarted sandbox for a session that read its agent before the stop:
  whenever a session can launch as its agent's stop is lost, refused its record or with the sessions
  not listed, and the agent is to run.
*/
module StaleLaunch {
  import opened Wrappers
  import opened AgentStore
  import opened AgentLifecycle
  import opened Runs
  import opened SessionSettling

  /** A run of the world extended by one event. */
  lemma Extended(w: World, events: seq<SessionSettling.Event>, v: World, e: SessionSettling.Event)
      returns (more: seq<SessionSettling.Event>, u: World)
    requires Leads(SessionSettling.Step, w, events, v) && SessionSettling.Enabled(v, e)
    ensures Leads(SessionSettling.Step, w, more, u) && u == SessionSettling.Next(v, e)
  {
    more, u := events + [e], SessionSettling.Next(v, e);
    Then(SessionSettling.Step, w, events, v, e, u);
  }

  /** The agent's own steps: those that change nothing of its sessions. */
  predicate Plain(e: AgentLifecycle.Event) {
    !(e.ListSessions? && e.ok) && !e.SettleReturns? && !e.Crash?
  }

  ghost predicate PlainLeads(a: Agent, steps: seq<AgentLifecycle.Event>, b: Agent) {
    Leads(G.Step, a, steps, b) && forall i :: 0 <= i < |steps| ==> Plain(steps[i])
  }

  lemma PlainNone(a: Agent)
    ensures PlainLeads(a, [], a)
  {
    NoEvents(G.Step, a);
  }

  lemma PlainThen(a: Agent, steps: seq<AgentLifecycle.Event>, b: Agent, e: AgentLifecycle.Event)
      returns (more: seq<AgentLifecycle.Event>, c: Agent)
    requires PlainLeads(a, steps, b) && AgentLifecycle.Enabled(b, e) && Plain(e)
    ensures PlainLeads(a, more, c) && c == AgentLifecycle.Next(b, e)
  {
    more, c := G.Extended(a, steps, b, e);
  }

  lemma PlainJoined(a: Agent, first: seq<AgentLifecycle.Event>, b: Agent, second: seq<AgentLifecycle.Event>, c: Agent)
    requires PlainLeads(a, first, b) && PlainLeads(b, second, c)
    ensures PlainLeads(a, first + second, c)
  {
    Joined(G.Step, a, first, b, second, c);
  }

  /** A run of the agent alone is a run of the world that leaves its sessions alone. */
  lemma Lifted(w: World, steps: seq<AgentLifecycle.Event>, b: Agent) returns (events: seq<SessionSettling.Event>)
    requires PlainLeads(w.agent, steps, b)
    ensures Leads(SessionSettling.Step, w, events, w.(agent := b))
  {
    var states :| Run(G.Step, states, steps) && states[0] == w.agent && states[|steps|] == b;
    events := seq(|steps|, i requires 0 <= i < |steps| => AgentStep(steps[i]));
    var worlds := seq(|states|, i requires 0 <= i < |states| => w.(agent := states[i]));
    forall i | 0 <= i < |events|
      ensures SessionSettling.Step(worlds[i], events[i], worlds[i + 1])
    {
      assert Plain(steps[i]) && G.Step(states[i], steps[i], states[i + 1]);
    }
    assert Run(SessionSettling.Step, worlds, events);
  }

  // ----- a lost stop lets a stale launch through -----

  /** A row of an agent that is to run, and whose pass starts it without another stop. */
  predicate ToRun(row: Row) {
    !row.deleting && !StopPath(row)
  }

  /** The sandbox runs again, no stop later than at `a` came, and the pass is under way that started it. */
  predicate RunsAgain(a: Agent, b: Agent) {
    b.history.up && b.history.boot == a.history.boot
  }

  /** The pass can store what it observes, and is past any stop. */
  predicate GoesOn(a: Agent) {
    && a.pass.At? && ToRun(a.pass.record)
    && a.row.Some? && !a.row.value.deleting && a.row.value.desired.generation == a.pass.record.desired.generation
  }

  /** From a pass that is to set the sandbox up. */
  lemma SetUpBoots(a: Agent) returns (steps: seq<AgentLifecycle.Event>, b: Agent)
    requires Is(a, SettingUp)
    ensures PlainLeads(a, steps, b) && RunsAgain(a, b)
  {
    PlainNone(a);
    steps, b := PlainThen(a, [], a, Boot);
  }

  /** From a pass that has no sandbox assigned yet. */
  lemma ResolvingBoots(a: Agent) returns (steps: seq<AgentLifecycle.Event>, b: Agent)
    requires Is(a, Resolving) && GoesOn(a)
    ensures PlainLeads(a, steps, b) && RunsAgain(a, b)
  {
    PlainNone(a);
    steps, b := PlainThen(a, [], a, Resolve(true, Transient, ""));
    assert b == a.(pass := At(a.pass.record, SelectingProvider));
    steps, b := PlainThen(a, steps, b, SelectProvider(true));
    assert Is(b, SettingUp) && b.history == a.history;
    var more, c := SetUpBoots(b);
    PlainJoined(a, steps, b, more, c);
    steps, b := steps + more, c;
  }

  /** From a pass whose record a stop left. */
  lemma MarkingStartBoots(a: Agent) returns (steps: seq<AgentLifecycle.Event>, b: Agent)
    requires Is(a, MarkingStart) && GoesOn(a)
    ensures PlainLeads(a, steps, b) && RunsAgain(a, b)
  {
    PlainNone(a);
    steps, b := PlainThen(a, [], a, MarkStart(true));
    assert Is(b, SettingUp) && b.history == a.history;
    var more, c := SetUpBoots(b);
    PlainJoined(a, steps, b, more, c);
    steps, b := steps + more, c;
  }

  /** From a pass past any stop, whatever its sandbox assignment. */
  lemma ProceedingBoots(a: Agent) returns (steps: seq<AgentLifecycle.Event>, b: Agent)
    requires (Is(a, Proceeding) || Is(a, Dispatching)) && GoesOn(a)
    ensures PlainLeads(a, steps, b) && RunsAgain(a, b)
  {
    var record := a.pass.record;
    PlainNone(a);
    var c: Agent;
    steps, c := PlainThen(a, [], a, if Is(a, Proceeding) then Proceed else Dispatch);
    assert c == AfterProceed(a, record);
    var more: seq<AgentLifecycle.Event>;
    if record.status.sandbox.Unassigned? { more, b := ResolvingBoots(c); }
    else if record.status.RecordedByStop() { more, b := MarkingStartBoots(c); }
    else { more, b := SetUpBoots(c); }
    PlainJoined(a, steps, c, more, b);
    steps := steps + more;
  }

  /** From no pass at all: the next one reads a row that is to run. */
  lemma RestBoots(a: Agent) returns (steps: seq<AgentLifecycle.Event>, b: Agent)
    requires a.pass.NoPass? && a.row.Some? && ToRun(a.row.value)
    ensures PlainLeads(a, steps, b) && RunsAgain(a, b)
  {
    PlainNone(a);
    var c: Agent;
    steps, c := PlainThen(a, [], a, Begin);
    assert c == a.(pass := Reading);
    steps, c := PlainThen(a, steps, c, AgentLifecycle.Event.Read);
    assert c == a.(pass := At(a.row.value, Dispatching));
    var more;
    more, b := ProceedingBoots(c);
    PlainJoined(a, steps, c, more, b);
    steps := steps + more;
  }

  /** A stop that is refused its record, of an agent that is to run. */
  lemma RefusedStopBoots(a: Agent, db: bool) returns (steps: seq<AgentLifecycle.Event>, b: Agent)
    requires Is(a, RecordingStop) && a.row.Some? && ToRun(a.row.value)
    requires Update(a, a.pass.record, StoppedStatus(a.pass.record), None, db).Err?
    ensures PlainLeads(a, steps, b) && RunsAgain(a, b)
  {
    PlainNone(a);
    var c: Agent;
    steps, c := PlainThen(a, [], a, RecordStop(db));
    assert c == End(Botched(a));
    var more;
    more, b := RestBoots(c);
    PlainJoined(a, steps, c, more, b);
    steps := steps + more;
  }

  /** A session that can launch, from a read before the latest stop of a sandbox that runs again. */
  predicate StaleLaunchPossible(w: World, id: SessionId) {
    && w.agent.history.up && SessionSettling.Enabled(w, Launch(id))
    && w.phases[id].Approved? && w.phases[id].boot < w.agent.history.boot
  }

  /**
    The converse of `NoLaunchFromBeforeTheStop`. Wherever a stop is about to be refused its record
    and the agent is to run, each session that can launch may go on to start its harness in the
    sandbox that runs again, on the strength of a read from before the stop.
  */
  lemma RefusedStopLetsAnyStaleLaunchThrough(w: World, id: SessionId, db: bool)
    requires SessionSettling.Kept(w) && ReadsBefore(w) && CanLaunch(w, id)
    requires Is(w.agent, RecordingStop) && ToRun(w.agent.row.value) && LosesStop(w, AgentStep(RecordStop(db)))
    ensures exists events, v :: Leads(SessionSettling.Step, w, events, v) && StaleLaunchPossible(v, id)
  {
    var steps, b := RefusedStopBoots(w.agent, db);
    var events := Lifted(w, steps, b);
    assert StaleLaunchPossible(w.(agent := b), id);
  }

  /** A stop whose sessions cannot be listed, of an agent stopped for good: it is started again. */
  lemma UnlistedStopBoots(a: Agent) returns (steps: seq<AgentLifecycle.Event>, b: Agent)
    requires Invariant(a) && a.pass.At? && a.pass.place.ListingSessions? && IsStopped(a.pass.record)
    requires !a.row.value.deleting && a.row.value.desired.generation == a.pass.record.desired.generation
    ensures PlainLeads(a, steps, b) && RunsAgain(a, b)
  {
    PlainNone(a);
    var c: Agent;
    steps, c := PlainThen(a, [], a, ListSessions(false));
    assert c == End(Botched(a));
    steps, c := PlainThen(a, steps, c, RunStateSet(Running, false));
    assert c.pass.NoPass? && c.history.boot == a.history.boot && ToRun(c.row.value);
    var more;
    more, b := RestBoots(c);
    PlainJoined(a, steps, c, more, b);
    steps := steps + more;
  }

  /** A restart's stop whose sessions cannot be listed: the same pass starts it again. */
  lemma UnlistedRestartBoots(a: Agent) returns (steps: seq<AgentLifecycle.Event>, b: Agent)
    requires Invariant(a) && a.pass.At? && a.pass.place.ListingSessions? && !IsStopped(a.pass.record)
    requires !a.row.value.deleting && a.row.value.desired.generation == a.pass.record.desired.generation
    ensures PlainLeads(a, steps, b) && RunsAgain(a, b)
  {
    PlainNone(a);
    var c: Agent;
    steps, c := PlainThen(a, [], a, ListSessions(false));
    assert c == Botched(a).(pass := At(a.pass.record.(status := a.pass.place.stored), MarkingRestart));
    steps, c := PlainThen(a, steps, c, MarkRestart(true));
    assert Is(c, Proceeding) && GoesOn(c) && c.history.boot == a.history.boot;
    var more;
    more, b := ProceedingBoots(c);
    PlainJoined(a, steps, c, more, b);
    steps := steps + more;
  }

  /** The same when the stop is recorded and its sessions cannot be listed. */
  lemma UnlistedSessionsLetAnyStaleLaunchThrough(w: World, id: SessionId)
    requires SessionSettling.Kept(w) && ReadsBefore(w) && CanLaunch(w, id)
    requires w.agent.pass.At? && w.agent.pass.place.ListingSessions? && !w.agent.row.value.deleting
    requires w.agent.row.value.desired.generation == w.agent.pass.record.desired.generation
    ensures exists events, v :: Leads(SessionSettling.Step, w, events, v) && StaleLaunchPossible(v, id)
  {
    var steps, b;
    if IsStopped(w.agent.pass.record) { steps, b := UnlistedStopBoots(w.agent); }
    else { steps, b := UnlistedRestartBoots(w.agent); }
    var events := Lifted(w, steps, b);
    assert StaleLaunchPossible(w.(agent := b), id);
  }

  /** Every world a run reaches from a new agent meets what the two converses ask. */
  lemma ReachedWell(name: string, runState: RunState, spec: string, events: seq<SessionSettling.Event>, w: World)
    requires Leads(SessionSettling.Step, SessionSettling.Initial(name, runState, spec), events, w)
    ensures SessionSettling.Kept(w) && ReadsBefore(w)
  {
    var worlds :| Runs.Run(SessionSettling.Step, worlds, events)
      && worlds[0] == SessionSettling.Initial(name, runState, spec) && worlds[|events|] == w;
    FullRunKeeps(worlds, events, |events|);
    ReadsBeforeAt(worlds, events, |events|);
  }

  // ----- the agent's states on the way -----

  const HARNESS := "h"

  function RowAt(generation: nat, runState: RunState, observed: nat, ready: Ready): Row {
    Row("a", Desired(generation, runState, None, ""), false,
        Status(observed, None, Materialized({HARNESS}), ready, false, None, ""))
  }

  /** Running and Ready. */
  function Served(): Agent {
    Agent(Some(RowAt(1, Running, 1, True)), NoPass, None, multiset{},
          History(0, true, None, false, 0, true, false, {}, {1}, false, false))
  }

  /** A pass has stopped the sandbox and is about to record it. */
  function StopUnderWay(): Agent {
    Agent(Some(RowAt(2, Stopped, 2, False(StoppingNow))),
      At(RowAt(2, Stopped, 1, True), RecordingStop), None, multiset{},
          History(1, false, None, false, 0, true, false, {2}, {1}, false, false))
  }

  /** A start was stored meanwhile, which refuses the stop its record. */
  function Overtaken(): Agent {
    StopUnderWay().(row := Some(RowAt(3, Running, 2, False(StoppingNow))))
  }

  /** A new agent whose pass has chosen a provider and starts the sandbox. */
  function Booting(): Agent {
    var a := AgentLifecycle.Initial("a", Running, "");
    var row := a.row.value.(status := Status(1, None, Selected, False(ProviderSelected), false, None, ""));
    a.(row := Some(row), pass := At(row, SettingUp))
  }

  /** A new agent whose pass is about to resolve its image. */
  function ResolvingFirst(): Agent {
    var a := AgentLifecycle.Initial("a", Running, "");
    a.(pass := At(a.row.value, Resolving))
  }

  lemma ReadsFirst() returns (steps: seq<AgentLifecycle.Event>)
    ensures PlainLeads(AgentLifecycle.Initial("a", Running, ""), steps, ResolvingFirst())
  {
    var a := AgentLifecycle.Initial("a", Running, "");
    var row := a.row.value;
    var b := a;
    steps := [];
    PlainNone(a);
    steps, b := PlainThen(a, steps, b, Begin);
    steps, b := PlainThen(a, steps, b, AgentLifecycle.Event.Read);
    assert b == a.(pass := At(row, Dispatching));
    steps, b := PlainThen(a, steps, b, Dispatch);
  }

  lemma BootsFirst() returns (steps: seq<AgentLifecycle.Event>)
    ensures PlainLeads(ResolvingFirst(), steps, Booting())
  {
    var a := ResolvingFirst();
    var b := a;
    steps := [];
    PlainNone(a);
    steps, b := PlainThen(a, steps, b, Resolve(true, Transient, ""));
    assert b == a.(pass := At(a.row.value, SelectingProvider));
    steps, b := PlainThen(a, steps, b, SelectProvider(true));
  }

  lemma BecomesReady() returns (steps: seq<AgentLifecycle.Event>)
    ensures PlainLeads(Booting(), steps, Served())
  {
    var a := Booting();
    var b := a;
    steps := [];
    PlainNone(a);
    steps, b := PlainThen(a, steps, b, Boot);
    steps, b := PlainThen(a, steps, b, SetUpSucceeds({HARNESS}, ""));
    var ready := Status(1, None, Materialized({HARNESS}), True, false, None, "");
    assert b == a.(history := a.history.(up := true), pass := At(a.pass.record, RecordingSetUp(ready)));
    steps, b := PlainThen(a, steps, b, RecordSetUp(true));
    assert b == Served();
  }

  /** A stop was stored, and a pass that read it is about to record that it stops. */
  function StopRead(): Agent {
    var read := RowAt(2, Stopped, 1, True);
    Served().(row := Some(read), pass := At(read, MarkingStop))
  }

  lemma ReadsStop() returns (steps: seq<AgentLifecycle.Event>)
    ensures PlainLeads(Served(), steps, StopRead())
  {
    var a := Served();
    var read := RowAt(2, Stopped, 1, True);
    var b := a;
    steps := [];
    PlainNone(a);
    steps, b := PlainThen(a, steps, b, RunStateSet(Stopped, false));
    assert b == a.(row := Some(read));
    steps, b := PlainThen(a, steps, b, Begin);
    steps, b := PlainThen(a, steps, b, AgentLifecycle.Event.Read);
    assert b == a.(row := Some(read), pass := At(read, Dispatching));
    steps, b := PlainThen(a, steps, b, Dispatch);
  }

  lemma StopsSandboxOf() returns (steps: seq<AgentLifecycle.Event>)
    ensures PlainLeads(StopRead(), steps, StopUnderWay())
  {
    var a := StopRead();
    var read := a.row.value;
    var b := a;
    steps := [];
    PlainNone(a);
    steps, b := PlainThen(a, steps, b, MarkStop(true));
    assert b == a.(row := StopUnderWay().row, pass := At(read, TakingStop));
    steps, b := PlainThen(a, steps, b, TakeStop);
    assert b == a.(row := StopUnderWay().row, pass := At(read, StoppingSandbox(None)));
    steps, b := PlainThen(a, steps, b, StopReturns(true, Transient, ""));
    assert b == StopUnderWay();
  }

  lemma IsOvertaken() returns (steps: seq<AgentLifecycle.Event>)
    ensures PlainLeads(StopUnderWay(), steps, Overtaken())
  {
    PlainNone(StopUnderWay());
    var b;
    steps, b := PlainThen(StopUnderWay(), [], StopUnderWay(), RunStateSet(Running, false));
  }

  // ----- the run -----

  /** A pass of session 1 has read its agent Ready. */
  function Approving(agent: Agent): World {
    World(agent, {1}, S.State(map[], {1}, [S.Pass(1, [], 0)], 1, map[], []), map[1 := Approved(0)], {}, {})
  }

  lemma SessionReads() returns (events: seq<SessionSettling.Event>)
    ensures Leads(SessionSettling.Step, World(Served(), {}, S.Initial(), map[], {}, {}), events, Approving(Served()))
  {
    var w := World(Served(), {}, S.Initial(), map[], {}, {});
    var v := w;
    events := [];
    NoEvents(SessionSettling.Step, w);
    events, v := Extended(w, events, v, CreateSession(1));
    assert v == w.(sessions := {1});
    events, v := Extended(w, events, v, Hint(1));
    assert v.sched == S.State(map[1 := []], {}, [], 0, map[], []);
    events, v := Extended(w, events, v, StartPass(1));
    assert v == Approving(Served()).(phases := map[1 := Fetching]);
    events, v := Extended(w, events, v, ReadAgent(1, HARNESS));
  }

  lemma BecomesServed() returns (events: seq<SessionSettling.Event>)
    ensures Leads(SessionSettling.Step, SessionSettling.Initial("a", Running, ""), events,
      SessionSettling.Initial("a", Running, "").(agent := Served()))
  {
    var start := SessionSettling.Initial("a", Running, "");
    var reading := ReadsFirst();
    events := Lifted(start, reading, ResolvingFirst());
    var boots := BootsFirst();
    var more := Lifted(start.(agent := ResolvingFirst()), boots, Booting());
    Joined(SessionSettling.Step, start, events, start.(agent := ResolvingFirst()), more, start.(agent := Booting()));
    events := events + more;
    var ready := BecomesReady();
    more := Lifted(start.(agent := Booting()), ready, Served());
    Joined(SessionSettling.Step, start, events, start.(agent := Booting()), more, start.(agent := Served()));
    events := events + more;
  }

  lemma StopIsOvertaken() returns (events: seq<SessionSettling.Event>)
    ensures Leads(SessionSettling.Step, Approving(Served()), events, Approving(Overtaken()))
  {
    var start := Approving(Served());
    var reading := ReadsStop();
    events := Lifted(start, reading, StopRead());
    var stops := StopsSandboxOf();
    var more := Lifted(Approving(StopRead()), stops, StopUnderWay());
    Joined(SessionSettling.Step, start, events, Approving(StopRead()), more, Approving(StopUnderWay()));
    events := events + more;
    var overtaken := IsOvertaken();
    more := Lifted(Approving(StopUnderWay()), overtaken, Overtaken());
    Joined(SessionSettling.Step, start, events, Approving(StopUnderWay()), more, Approving(Overtaken()));
    events := events + more;
  }

  lemma OvertakenIsReached() returns (events: seq<SessionSettling.Event>)
    ensures Leads(SessionSettling.Step, SessionSettling.Initial("a", Running, ""), events, Approving(Overtaken()))
  {
    var start := SessionSettling.Initial("a", Running, "");
    events := BecomesServed();
    var more := SessionReads();
    Joined(SessionSettling.Step, start, events, start.(agent := Served()), more, Approving(Served()));
    events := events + more;
    more := StopIsOvertaken();
    Joined(SessionSettling.Step, start, events, Approving(Served()), more, Approving(Overtaken()));
    events := events + more;
  }

  lemma OvertakenGoesOn() returns (events: seq<SessionSettling.Event>, w: World)
    requires SessionSettling.Kept(Approving(Overtaken())) && ReadsBefore(Approving(Overtaken()))
    ensures Leads(SessionSettling.Step, Approving(Overtaken()), events, w) && StaleLaunchPossible(w, 1)
  {
    var overtaken := Approving(Overtaken());
    RefusedStopLetsAnyStaleLaunchThrough(overtaken, 1, true);
    events, w :| Leads(SessionSettling.Step, overtaken, events, w) && StaleLaunchPossible(w, 1);
  }

  /**
    And it happens: from a new agent a run leads to a session from before a stop that can start its
    harness in the sandbox that runs again.
  */
  lemma RefusedStopLetsAStaleLaunchThrough()
    ensures exists events, w ::
      Leads(SessionSettling.Step, SessionSettling.Initial("a", Running, ""), events, w) && StaleLaunchPossible(w, 1)
  {
    var start := SessionSettling.Initial("a", Running, "");
    var overtaken := Approving(Overtaken());
    var events := OvertakenIsReached();
    ReachedWell("a", Running, "", events, overtaken);
    var more, w := OvertakenGoesOn();
    Joined(SessionSettling.Step, start, events, overtaken, more, w);
  }
}
