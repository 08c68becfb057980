/**
  An agent's passes together with the passes of its sessions
  (agentctl/src/sessions/controller.rs, agentctl/src/sessions/reconciler.rs).

  Session passes are scheduled by their own `Scheduler`, one at a time for a session. A session
  pass reads its agent once; when that read lets it go on it may, any number of awaits later, start
  the session's harness in the agent's sandbox. After a stop the agent's pass wakes every session
  and waits for a pass of each (`settle`).
*/
module SessionSettling {
  import opened Wrappers
  import opened AgentStore
  import opened AgentLifecycle
  import G = AgentGuarantees
  import S = Scheduler
  import Runs

  type SessionId = S.Key

  /** How far a session's pass is. `Approved` remembers how many sandbox stops its read came after. */
  datatype Phase = Fetching | Approved(boot: nat) | Launched | Finished

  datatype World = World(
    agent: Agent,
    sessions: set<SessionId>,
    sched: S.State,
    phases: map<SessionId, Phase>,
    toWake: set<SessionId>,        // what `settle` has listed and not yet woken
    awaited: set<S.Waiter>)        // what it has woken

  datatype Event =
    | AgentStep(e: AgentLifecycle.Event)
    | CreateSession(id: SessionId)
    | Hint(id: SessionId)
    | ScanSessions(keys: set<SessionId>)
    | Request(id: SessionId, waiter: S.Waiter)
    | Wake(id: SessionId, waiter: S.Waiter)
    | StartPass(id: SessionId)
    | ReadAgent(id: SessionId, harness: string)
    | Launch(id: SessionId)
    | EndPass(id: SessionId)
    | RemoveSession(id: SessionId)
    | FinishPass(index: nat, outcome: S.Outcome)

  predicate SettleDone(w: World) {
    w.toWake == {} && forall waiter :: waiter in w.awaited ==> S.Answered(w.sched, waiter)
  }

  predicate In(w: World, id: SessionId, phase: Phase) {
    id in w.phases && w.phases[id] == phase
  }

  predicate Enabled(w: World, e: Event) {
    match e
    case AgentStep(e) => AgentLifecycle.Enabled(w.agent, e) && (e.SettleReturns? ==> SettleDone(w))
    case CreateSession(_) => w.agent.row.Some?
    case Hint(_) => true
    case ScanSessions(_) => true
    case Request(_, waiter) => waiter !in w.sched.accepted
    case Wake(id, waiter) =>
      w.agent.pass.At? && w.agent.pass.place.Settling? && id in w.toWake && waiter !in w.sched.accepted
    case StartPass(id) => S.Startable(w.sched, id)
    case ReadAgent(id, _) => In(w, id, Fetching)
    case Launch(id) => id in w.phases && w.phases[id].Approved?
    case EndPass(id) => id in w.phases && w.phases[id] != Finished
    case RemoveSession(id) => In(w, id, Fetching)
    case FinishPass(index, _) => index < |w.sched.flight| && In(w, w.sched.flight[index].key, Finished)
  }

  // ----- what a session pass makes of its agent -----

  predicate LaunchBlocked(row: Row, harness: string) {
    || row.deleting
    || !row.status.IsReady()
    || !row.status.sandbox.Materialized?
    || harness !in row.status.sandbox.harnesses
  }

  /** The agent is gone, stopped or recorded stopped, or cannot run the harness: the pass goes no further. */
  function Judged(w: World, harness: string): Phase {
    match w.agent.row
    case None => Finished
    case Some(row) =>
      if IsStopped(row) || row.status.IsStopped() || LaunchBlocked(row, harness) then Finished
      else Approved(w.agent.history.boot)
  }

  // ----- steps -----

  function AfterAgent(w: World, e: AgentLifecycle.Event): World
    requires AgentLifecycle.Enabled(w.agent, e)
  {
    var v := w.(agent := AgentLifecycle.Next(w.agent, e));
    if e.ListSessions? && e.ok then v.(toWake := w.sessions, awaited := {})
    else if e.Crash? then v.(sched := S.Initial(), phases := map[], toWake := {}, awaited := {})
    else v
  }

  function WithWaiter(w: World, id: SessionId, waiter: S.Waiter): World {
    w.(sched := S.Enqueued(w.sched, S.Request(id, Some(waiter))))
  }

  function Moved(w: World, id: SessionId, phase: Phase): World {
    w.(phases := w.phases[id := phase])
  }

  function Next(w: World, e: Event): World
    requires Enabled(w, e)
  {
    match e
    case AgentStep(e) => AfterAgent(w, e)
    case CreateSession(id) => w.(sessions := w.sessions + {id})
    case Hint(id) => w.(sched := S.Enqueued(w.sched, S.Request(id, None)))
    case ScanSessions(keys) => w.(sched := S.Scan(w.sched, keys))
    case Request(id, waiter) => WithWaiter(w, id, waiter)
    case Wake(id, waiter) => WithWaiter(w, id, waiter).(toWake := w.toWake - {id}, awaited := w.awaited + {waiter})
    case StartPass(id) => Moved(w.(sched := S.Start(w.sched, id)), id, Fetching)
    case ReadAgent(id, harness) =>
      if id in w.sessions then Moved(w, id, Judged(w, harness)) else Moved(w, id, Finished)
    case Launch(id) => Moved(w, id, Launched)
    case EndPass(id) => Moved(w, id, Finished)
    case RemoveSession(id) => Moved(w, id, Finished).(sessions := w.sessions - {id})
    case FinishPass(index, outcome) =>
      w.(sched := S.Finish(w.sched, index, outcome), phases := w.phases - {w.sched.flight[index].key})
  }

  // ----- invariant -----

  predicate CanLaunch(w: World, id: SessionId) {
    id in w.phases && w.phases[id].Approved?
  }

  ghost predicate NoneCanLaunch(w: World) {
    forall id :: !CanLaunch(w, id)
  }

  /** Every session that can launch read its agent after the latest sandbox stop. */
  ghost predicate AllFresh(w: World) {
    forall id :: CanLaunch(w, id) ==> w.phases[id].boot == w.agent.history.boot
  }

  predicate AwaitedFor(w: World, id: SessionId, waiter: S.Waiter) {
    waiter in w.awaited && S.Pending(w.sched, waiter) && w.sched.accepted[waiter].key == id
  }

  /** While sessions settle, each that can launch is still to be woken or has a pass to come. */
  ghost predicate Covered(w: World) {
    forall id :: CanLaunch(w, id) ==> id in w.toWake || exists waiter :: AwaitedFor(w, id, waiter)
  }

  ghost predicate SchedulingWell(w: World) {
    && S.Invariant(w.sched)
    && w.phases.Keys == w.sched.running
    && (forall id :: CanLaunch(w, id) ==> id in w.sessions)
    && (w.agent.pass.At? && w.agent.pass.place.Settling? ==> Covered(w))
  }

  predicate At(a: Agent, stopping: bool) {
    && a.pass.At?
    && (a.pass.place.ListingSessions? || a.pass.place.Settling? || (stopping && a.pass.place.RecordingStop?))
  }

  /** The sandbox is gone for good with the agent's deletion. */
  predicate Gone(a: Agent) {
    && !a.history.up
    && (a.row.None? || (a.row.value.deleting && (a.pass.At? ==> a.pass.record.deleting)))
  }

  /**
    What keeps launches safe, of an agent: `newer` says that every session that can launch read it
    after its latest stop, and `none` that no session can launch.
  */
  predicate LaunchesSafe(a: Agent, newer: bool, none: bool) {
    && (a.history.settled ==> none)
    && (At(a, true) ==> !a.history.up)
    && (!a.history.botched ==> newer || At(a, true) || Gone(a))
    && (!a.history.botched && a.row.Some? && a.row.value.status.IsStopped() && !At(a, false) ==> none)
  }

  ghost predicate LaunchesWell(w: World) {
    LaunchesSafe(w.agent, AllFresh(w), NoneCanLaunch(w))
  }

  ghost predicate Kept(w: World) {
    G.Kept(w.agent) && SchedulingWell(w) && LaunchesWell(w)
  }

  function Initial(name: string, runState: RunState, spec: string): World {
    World(AgentLifecycle.Initial(name, runState, spec), {}, S.Initial(), map[], {}, {})
  }

  lemma InitialKept(name: string, runState: RunState, spec: string)
    ensures Kept(Initial(name, runState, spec))
  {
    S.InitialKeeps();
  }

  // ----- the scheduler's part -----

  predicate IsScheduling(e: Event) {
    e.Hint? || e.ScanSessions? || e.Request? || e.Wake? || e.StartPass? || e.FinishPass?
  }

  /** Scheduling keeps every pending waiter of a session whose pass is under way. */
  lemma PendingStays(w: World, e: Event, id: SessionId, waiter: S.Waiter)
    requires SchedulingWell(w) && Enabled(w, e) && IsScheduling(e)
    requires S.Pending(w.sched, waiter) && w.sched.accepted[waiter].key == id && id in w.phases
    ensures S.Pending(Next(w, e).sched, waiter) && Next(w, e).sched.accepted[waiter].key == id
  {
    match e {
      case Hint(_) =>
      case ScanSessions(_) =>
      case Request(_, _) =>
      case Wake(_, _) =>
      case StartPass(_) =>
      case FinishPass(_, _) =>
    }
  }

  lemma SchedulingKeepsQueue(w: World, e: Event)
    requires S.Invariant(w.sched) && Enabled(w, e) && IsScheduling(e)
    ensures S.Invariant(Next(w, e).sched)
  {
    match e {
      case Hint(id) => S.EnqueueKeeps(w.sched, S.Request(id, None));
      case ScanSessions(keys) => S.ScanKeeps(w.sched, keys);
      case Request(id, waiter) => S.EnqueueKeeps(w.sched, S.Request(id, Some(waiter)));
      case Wake(id, waiter) => S.EnqueueKeeps(w.sched, S.Request(id, Some(waiter)));
      case StartPass(id) => S.StartKeeps(w.sched, id);
      case FinishPass(index, outcome) => S.FinishKeeps(w.sched, index, outcome);
    }
  }

  lemma SchedulingKeepsPhases(w: World, e: Event)
    requires w.phases.Keys == w.sched.running && Enabled(w, e) && IsScheduling(e)
    ensures Next(w, e).phases.Keys == Next(w, e).sched.running
    ensures forall id :: CanLaunch(Next(w, e), id) ==> CanLaunch(w, id) && Next(w, e).phases[id] == w.phases[id]
    ensures Next(w, e).agent == w.agent && Next(w, e).sessions == w.sessions
  {
    if e.StartPass? { StartKeepsPhases(w, e); }
    if e.FinishPass? { FinishKeepsPhases(w, e); }
  }

  lemma StartKeepsPhases(w: World, e: Event)
    requires w.phases.Keys == w.sched.running && Enabled(w, e) && e.StartPass?
    ensures Next(w, e).phases.Keys == Next(w, e).sched.running
    ensures forall id :: CanLaunch(Next(w, e), id) ==> CanLaunch(w, id) && Next(w, e).phases[id] == w.phases[id]
  {
  }

  lemma FinishKeepsPhases(w: World, e: Event)
    requires w.phases.Keys == w.sched.running && Enabled(w, e) && e.FinishPass?
    ensures Next(w, e).phases.Keys == Next(w, e).sched.running
    ensures forall id :: CanLaunch(Next(w, e), id) ==> CanLaunch(w, id) && Next(w, e).phases[id] == w.phases[id]
  {
  }

  lemma SchedulingKeepsCovered(w: World, e: Event)
    requires SchedulingWell(w) && Covered(w) && Enabled(w, e) && IsScheduling(e)
    ensures Covered(Next(w, e))
  {
    var v := Next(w, e);
    SchedulingKeepsPhases(w, e);
    forall id | CanLaunch(v, id)
      ensures id in v.toWake || exists waiter :: AwaitedFor(v, id, waiter)
    {
      if waiter :| AwaitedFor(w, id, waiter) {
        PendingStays(w, e, id, waiter);
        assert AwaitedFor(v, id, waiter);
      } else if e.Wake? && e.id == id {
        var entry := S.Entry(v.sched.pending, id);
        assert entry[|entry| - 1] == e.waiter;
        assert AwaitedFor(v, id, e.waiter);
      }
    }
  }

  lemma SchedulingKeeps(w: World, e: Event)
    requires Kept(w) && Enabled(w, e) && IsScheduling(e)
    ensures Kept(Next(w, e))
  {
    SchedulingKeepsQueue(w, e);
    SchedulingKeepsPhases(w, e);
    if w.agent.pass.At? && w.agent.pass.place.Settling? {
      SchedulingKeepsCovered(w, e);
    }
  }

  // ----- the sessions' own part -----

  predicate IsSessionStep(e: Event) {
    e.CreateSession? || e.ReadAgent? || e.Launch? || e.EndPass? || e.RemoveSession?
  }

  /** What the sessions' steps need to know of the agent's state. */
  predicate StoppedIsNotReady(a: Agent) {
    && (At(a, false) ==> a.row.Some? && a.row.value.status.IsStopped())
    && (a.history.settled && a.row.Some? ==> !a.row.value.status.IsReady())
  }

  lemma KeptIsNotReady(a: Agent)
    requires G.Kept(a)
    ensures StoppedIsNotReady(a)
  {
  }

  /** A session becomes able to launch only by reading its agent Ready. */
  lemma ApprovedByReading(w: World, e: Event, id: SessionId)
    requires Enabled(w, e) && IsSessionStep(e) && CanLaunch(Next(w, e), id)
    ensures (CanLaunch(w, id) && Next(w, e).phases[id] == w.phases[id]) ||
      (id in w.sessions && Next(w, e).phases[id] == Approved(w.agent.history.boot) && w.agent.row.Some? &&
       w.agent.row.value.status.IsReady() && !w.agent.row.value.deleting)
    ensures Next(w, e).agent == w.agent && Next(w, e).sched == w.sched
    ensures Next(w, e).toWake == w.toWake && Next(w, e).awaited == w.awaited
    ensures id in w.sessions ==> id in Next(w, e).sessions
  {
  }

  lemma SessionStepKeepsScheduling(w: World, e: Event)
    requires SchedulingWell(w) && StoppedIsNotReady(w.agent) && Enabled(w, e) && IsSessionStep(e)
    ensures SchedulingWell(Next(w, e))
  {
    var v := Next(w, e);
    assert v.phases.Keys == w.phases.Keys;
    forall id | CanLaunch(v, id)
      ensures id in v.sessions
      ensures At(w.agent, false) ==> CanLaunch(w, id)
    {
      ApprovedByReading(w, e, id);
    }
    if w.agent.pass.At? && w.agent.pass.place.Settling? { SessionStepKeepsCovered(w, e); }
  }

  lemma SessionStepKeepsCovered(w: World, e: Event)
    requires SchedulingWell(w) && StoppedIsNotReady(w.agent) && Enabled(w, e) && IsSessionStep(e)
    requires w.agent.pass.At? && w.agent.pass.place.Settling?
    ensures Covered(Next(w, e))
  {
    var v := Next(w, e);
    forall id | CanLaunch(v, id)
      ensures id in v.toWake || exists waiter :: AwaitedFor(v, id, waiter)
    {
      ApprovedByReading(w, e, id);
      if waiter :| AwaitedFor(w, id, waiter) {
        assert AwaitedFor(v, id, waiter);
      }
    }
  }

  lemma SessionStepKeepsLaunches(w: World, e: Event)
    requires LaunchesWell(w) && StoppedIsNotReady(w.agent) && Enabled(w, e) && IsSessionStep(e)
    ensures LaunchesWell(Next(w, e))
  {
    var v := Next(w, e);
    forall id | CanLaunch(v, id)
      ensures (CanLaunch(w, id) && v.phases[id] == w.phases[id]) ||
        (v.phases[id].boot == w.agent.history.boot && w.agent.row.Some? && w.agent.row.value.status.IsReady())
    {
      ApprovedByReading(w, e, id);
    }
  }

  lemma SessionStepKeeps(w: World, e: Event)
    requires Kept(w) && Enabled(w, e) && IsSessionStep(e)
    ensures Kept(Next(w, e))
  {
    KeptIsNotReady(w.agent);
    SessionStepKeepsScheduling(w, e);
    SessionStepKeepsLaunches(w, e);
    assert Next(w, e).agent == w.agent;
  }

  // ----- the agent's part -----

  /** The scheduler, the sessions and their phases are the same in both worlds. */
  predicate SameSessions(w: World, v: World) {
    v.sessions == w.sessions && v.sched == w.sched && v.phases == w.phases && v.toWake == w.toWake &&
      v.awaited == w.awaited
  }

  lemma SchedulingFrame(w: World, v: World)
    requires SchedulingWell(w) && SameSessions(w, v)
    requires v.agent.pass.At? && v.agent.pass.place.Settling? ==> w.agent.pass.At? && w.agent.pass.place.Settling?
    ensures SchedulingWell(v)
  {
    if v.agent.pass.At? && v.agent.pass.place.Settling? {
      CoveredFrame(w, v);
    }
  }

  lemma CoveredFrame(w: World, v: World)
    requires Covered(w) && SameSessions(w, v)
    ensures Covered(v)
  {
    forall id | CanLaunch(v, id)
      ensures id in v.toWake || exists waiter :: AwaitedFor(v, id, waiter)
    {
      assert CanLaunch(w, id);
      if waiter :| AwaitedFor(w, id, waiter) {
        assert AwaitedFor(v, id, waiter);
      }
    }
  }

  lemma ListingKeepsScheduling(w: World, a: Agent)
    requires SchedulingWell(w)
    ensures SchedulingWell(w.(agent := a, toWake := w.sessions, awaited := {}))
  {
  }

  lemma NewDaemonSchedules(w: World, a: Agent)
    requires a.pass.NoPass?
    ensures SchedulingWell(w.(agent := a, sched := S.Initial(), phases := map[], toWake := {}, awaited := {}))
  {
    S.InitialKeeps();
  }

  lemma StaysSettling(a: Agent, e: AgentLifecycle.Event)
    requires AgentLifecycle.Enabled(a, e) && !(e.ListSessions? && e.ok) && !FromOutside(e)
    requires AgentLifecycle.Next(a, e).pass.At? && AgentLifecycle.Next(a, e).pass.place.Settling?
    ensures a.pass.At? && a.pass.place.Settling?
  {
  }

  /** API calls and registrations leave the pass where it is. */
  lemma CallsLeaveThePass(a: Agent, e: AgentLifecycle.Event)
    requires AgentLifecycle.Enabled(a, e) && FromOutside(e) && !e.Crash?
    ensures AgentLifecycle.Next(a, e).pass == a.pass
  {
  }

  lemma AgentStepKeepsScheduling(w: World, e: AgentLifecycle.Event)
    requires SchedulingWell(w) && Enabled(w, AgentStep(e))
    ensures SchedulingWell(Next(w, AgentStep(e)))
  {
    var v := Next(w, AgentStep(e));
    var a := AgentLifecycle.Next(w.agent, e);
    if e.Crash? {
      NewDaemonSchedules(w, a);
    } else if e.ListSessions? && e.ok {
      ListingKeepsScheduling(w, a);
    } else {
      if FromOutside(e) { CallsLeaveThePass(w.agent, e); }
      else if a.pass.At? && a.pass.place.Settling? { StaysSettling(w.agent, e); }
      SchedulingFrame(w, v);
    }
  }

  /** Settling ends with no session able to launch. */
  lemma SettleLeavesNone(w: World)
    requires SchedulingWell(w) && w.agent.pass.At? && w.agent.pass.place.Settling? && SettleDone(w)
    ensures NoneCanLaunch(w)
  {
    forall waiter, id
      ensures !AwaitedFor(w, id, waiter)
    {
      if waiter in w.awaited && waiter in w.sched.accepted {
        assert S.Answered(w.sched, waiter);
        assert S.InOnePlace(w.sched, waiter);
      }
    }
  }

  /** Whether the reads are still fresh after a step of the agent alone. */
  predicate FreshAfter(a: Agent, b: Agent, newer: bool, none: bool) {
    none || (newer && b.history.boot == a.history.boot)
  }

  lemma CallsKeepLaunchesSafe(a: Agent, e: AgentLifecycle.Event, newer: bool, none: bool)
    requires Invariant(a) && LaunchesSafe(a, newer, none) && AgentLifecycle.Enabled(a, e)
    requires FromOutside(e) && !e.Crash?
    ensures LaunchesSafe(AgentLifecycle.Next(a, e), FreshAfter(a, AgentLifecycle.Next(a, e), newer, none), none)
  {
  }

  lemma ReadKeepsLaunchesSafe(a: Agent, e: AgentLifecycle.Event, newer: bool, none: bool)
    requires Invariant(a) && LaunchesSafe(a, newer, none) && AgentLifecycle.Enabled(a, e)
    requires e.Begin? || e.Read? || e.Dispatch? || e.Proceed?
    ensures LaunchesSafe(AgentLifecycle.Next(a, e), FreshAfter(a, AgentLifecycle.Next(a, e), newer, none), none)
  {
  }

  lemma StopKeepsLaunchesSafe(a: Agent, e: AgentLifecycle.Event, newer: bool, none: bool)
    requires Invariant(a) && LaunchesSafe(a, newer, none) && AgentLifecycle.Enabled(a, e)
    requires StopsSandbox(e)
    ensures LaunchesSafe(AgentLifecycle.Next(a, e), FreshAfter(a, AgentLifecycle.Next(a, e), newer, none), none)
  {
    if e.MarkStop? || e.RecordStopFailure? { MarkStopKeepsLaunchesSafe(a, e, newer, none); }
  }

  lemma MarkStopKeepsLaunchesSafe(a: Agent, e: AgentLifecycle.Event, newer: bool, none: bool)
    requires Invariant(a) && LaunchesSafe(a, newer, none) && AgentLifecycle.Enabled(a, e)
    requires e.MarkStop? || e.RecordStopFailure?
    ensures LaunchesSafe(AgentLifecycle.Next(a, e), FreshAfter(a, AgentLifecycle.Next(a, e), newer, none), none)
  {
  }

  lemma RecordStopKeepsLaunchesSafe(a: Agent, e: AgentLifecycle.Event, newer: bool, none: bool)
    requires Invariant(a) && LaunchesSafe(a, newer, none) && AgentLifecycle.Enabled(a, e)
    requires e.RecordStop?
    ensures LaunchesSafe(AgentLifecycle.Next(a, e), FreshAfter(a, AgentLifecycle.Next(a, e), newer, none), none)
  {
  }

  lemma SettleKeepsLaunchesSafe(a: Agent, e: AgentLifecycle.Event, newer: bool, none: bool)
    requires Invariant(a) && LaunchesSafe(a, newer, none) && AgentLifecycle.Enabled(a, e)
    requires (e.ListSessions? || e.SettleReturns?) && (e.SettleReturns? ==> none)
    ensures LaunchesSafe(AgentLifecycle.Next(a, e), FreshAfter(a, AgentLifecycle.Next(a, e), newer, none), none)
  {
  }

  lemma StartKeepsLaunchesSafe(a: Agent, e: AgentLifecycle.Event, newer: bool, none: bool)
    requires Invariant(a) && LaunchesSafe(a, newer, none) && AgentLifecycle.Enabled(a, e)
    requires e.MarkRestart? || e.MarkStart? || e.Resolve? || e.RecordUnresolved? || e.SelectProvider?
    ensures LaunchesSafe(AgentLifecycle.Next(a, e), FreshAfter(a, AgentLifecycle.Next(a, e), newer, none), none)
  {
  }

  lemma SetUpKeepsLaunchesSafe(a: Agent, e: AgentLifecycle.Event, newer: bool, none: bool)
    requires Invariant(a) && LaunchesSafe(a, newer, none) && AgentLifecycle.Enabled(a, e)
    requires e.Boot? || e.SetUpSucceeds? || e.SetUpFails? || e.Abandon? || e.RecordSetUp?
    ensures LaunchesSafe(AgentLifecycle.Next(a, e), FreshAfter(a, AgentLifecycle.Next(a, e), newer, none), none)
  {
  }

  lemma ReleaseKeepsLaunchesSafe(a: Agent, e: AgentLifecycle.Event, newer: bool, none: bool)
    requires Invariant(a) && LaunchesSafe(a, newer, none) && AgentLifecycle.Enabled(a, e)
    requires e.KillReturns? || e.ReleaseReturns? || e.Finalize?
    ensures LaunchesSafe(AgentLifecycle.Next(a, e), FreshAfter(a, AgentLifecycle.Next(a, e), newer, none), none)
  {
  }

  lemma StepKeepsLaunchesSafe(a: Agent, e: AgentLifecycle.Event, newer: bool, none: bool)
    requires Invariant(a) && LaunchesSafe(a, newer, none) && AgentLifecycle.Enabled(a, e)
    requires !e.Crash? && (e.SettleReturns? ==> none)
    ensures LaunchesSafe(AgentLifecycle.Next(a, e), FreshAfter(a, AgentLifecycle.Next(a, e), newer, none), none)
  {
    if FromOutside(e) { CallsKeepLaunchesSafe(a, e, newer, none); }
    else if StopsSandbox(e) { StopKeepsLaunchesSafe(a, e, newer, none); }
    else if e.RecordStop? { RecordStopKeepsLaunchesSafe(a, e, newer, none); }
    else if e.ListSessions? || e.SettleReturns? { SettleKeepsLaunchesSafe(a, e, newer, none); }
    else if e.MarkRestart? || e.MarkStart? || e.Resolve? || e.RecordUnresolved? || e.SelectProvider? {
      StartKeepsLaunchesSafe(a, e, newer, none);
    }
    else if e.KillReturns? || e.ReleaseReturns? || e.Finalize? { ReleaseKeepsLaunchesSafe(a, e, newer, none); }
    else if e.Begin? || e.Read? || e.Dispatch? || e.Proceed? { ReadKeepsLaunchesSafe(a, e, newer, none); }
    else { SetUpKeepsLaunchesSafe(a, e, newer, none); }
  }

  /** With the phases left as they are, a safe agent makes a safe world. */
  lemma LaunchesFrame(w: World, v: World)
    requires v.phases == w.phases
    requires LaunchesSafe(v.agent, FreshAfter(w.agent, v.agent, AllFresh(w), NoneCanLaunch(w)), NoneCanLaunch(w))
    ensures LaunchesWell(v)
  {
    assert forall id :: CanLaunch(v, id) <==> CanLaunch(w, id);
  }

  lemma AgentStepKeepsLaunches(w: World, e: AgentLifecycle.Event)
    requires Invariant(w.agent) && SchedulingWell(w) && LaunchesWell(w) && Enabled(w, AgentStep(e)) && !e.Crash?
    ensures LaunchesWell(Next(w, AgentStep(e)))
  {
    if e.SettleReturns? { SettleLeavesNone(w); }
    StepKeepsLaunchesSafe(w.agent, e, AllFresh(w), NoneCanLaunch(w));
    LaunchesFrame(w, Next(w, AgentStep(e)));
  }

  lemma NewDaemonLaunchesNothing(w: World)
    ensures LaunchesWell(Next(w, AgentStep(AgentLifecycle.Crash)))
  {
  }

  lemma AgentStepKeeps(w: World, e: AgentLifecycle.Event)
    requires Kept(w) && Enabled(w, AgentStep(e))
    ensures Kept(Next(w, AgentStep(e)))
  {
    G.NextKeepsAll(w.agent, e);
    AgentStepKeepsScheduling(w, e);
    if e.Crash? { NewDaemonLaunchesNothing(w); }
    else { AgentStepKeepsLaunches(w, e); }
  }

  lemma NextKeeps(w: World, e: Event)
    requires Kept(w) && Enabled(w, e)
    ensures Kept(Next(w, e))
  {
    if e.AgentStep? { AgentStepKeeps(w, e.e); }
    else if IsScheduling(e) { SchedulingKeeps(w, e); }
    else { SessionStepKeeps(w, e); }
  }

  // ----- every run -----

  predicate Step(w: World, e: Event, v: World) {
    Enabled(w, e) && v == Next(w, e)
  }

  /** A run from a new agent with no sessions yet. */
  ghost predicate FullRun(worlds: seq<World>, events: seq<Event>) {
    && Runs.Run(Step, worlds, events)
    && exists name, runState, spec :: worlds[0] == Initial(name, runState, spec)
  }

  lemma RunKeeps(worlds: seq<World>, events: seq<Event>, i: nat)
    requires Runs.Run(Step, worlds, events) && Kept(worlds[0]) && i < |worlds|
    ensures Kept(worlds[i])
  {
    forall w, e, v | Kept(w) && Step(w, e, v)
      ensures Kept(v)
    {
      NextKeeps(w, e);
    }
    Runs.Keeps(Step, Kept, worlds, events, i);
  }

  lemma FullRunKeeps(worlds: seq<World>, events: seq<Event>, i: nat)
    requires FullRun(worlds, events) && i < |worlds|
    ensures Kept(worlds[i])
  {
    var name, runState, spec :| worlds[0] == Initial(name, runState, spec);
    InitialKept(name, runState, spec);
    RunKeeps(worlds, events, i);
  }

  /** The step from `w` to `v` stored Ready where it was not stored before. */
  predicate StoresReady(w: World, v: World) {
    && v.agent.row.Some? && v.agent.row.value.status.IsReady()
    && !(w.agent.row.Some? && w.agent.row.value.status.IsReady())
  }

  lemma AgentSettledUntilReady(a: Agent, e: AgentLifecycle.Event)
    requires Invariant(a) && AgentLifecycle.Enabled(a, e) && a.history.settled
    ensures
      var b := AgentLifecycle.Next(a, e);
      || b.history.settled
      || (b.row.Some? && b.row.value.status.IsReady() && !(a.row.Some? && a.row.value.status.IsReady()))
  {
    if !e.RecordSetUp? { OnlySetUpUnsettles(a, e); }
  }

  lemma OnlySetUpUnsettles(a: Agent, e: AgentLifecycle.Event)
    requires AgentLifecycle.Enabled(a, e) && a.history.settled && !e.RecordSetUp?
    ensures AgentLifecycle.Next(a, e).history.settled
  {
    if FromOutside(e) { CallsKeepRecord(a, e); }
  }

  lemma SettledUntilReady(w: World, e: Event)
    requires Invariant(w.agent) && Enabled(w, e) && w.agent.history.settled && !StoresReady(w, Next(w, e))
    ensures Next(w, e).agent.history.settled
  {
    if e.AgentStep? { AgentSettledUntilReady(w.agent, e.e); }
  }

  lemma SettleSettles(w: World)
    requires Enabled(w, AgentStep(SettleReturns))
    ensures Next(w, AgentStep(SettleReturns)).agent.history.settled
  {
  }

  lemma AgentWell(worlds: seq<World>, events: seq<Event>, i: nat)
    requires FullRun(worlds, events) && i < |worlds|
    ensures Invariant(worlds[i].agent)
  {
    FullRunKeeps(worlds, events, i);
  }

  lemma {:induction false} StaysSettled(worlds: seq<World>, events: seq<Event>, i: nat, j: nat)
    requires FullRun(worlds, events) && i < j < |events| && events[i] == AgentStep(SettleReturns)
    requires forall k :: i < k < j ==> !StoresReady(worlds[k], worlds[k + 1])
    ensures worlds[j].agent.history.settled
    decreases j
  {
    var k := j - 1;
    assert Step(worlds[k], events[k], worlds[j]);
    if k == i {
      SettleSettles(worlds[i]);
    } else {
      StaysSettled(worlds, events, i, k);
      AgentWell(worlds, events, k);
      assert !StoresReady(worlds[k], worlds[k + 1]);
      SettledUntilReady(worlds[k], events[k]);
    }
  }

  /**
    Once a stop was recorded and its sessions settled, no session pass, one begun before the stop
    included, starts a harness until Ready is stored again.
  */
  lemma NoLaunchUntilReady(worlds: seq<World>, events: seq<Event>, i: nat, j: nat)
    requires FullRun(worlds, events) && i < j < |events| && events[i] == AgentStep(SettleReturns)
    requires forall k :: i < k < j ==> !StoresReady(worlds[k], worlds[k + 1])
    ensures forall id :: events[j] != Launch(id)
    ensures NoneCanLaunch(worlds[j])
  {
    StaysSettled(worlds, events, i, j);
    FullRunKeeps(worlds, events, j);
    assert NoneCanLaunch(worlds[j]);
    assert Step(worlds[j], events[j], worlds[j + 1]);
    forall id
      ensures events[j] != Launch(id)
    {
      assert !CanLaunch(worlds[j], id);
    }
  }

  /** The stop at this step is refused its record, or its sessions cannot be listed: they are not settled. */
  predicate LosesStop(w: World, e: Event)
    requires Enabled(w, e)
  {
    e.AgentStep? &&
    match e.e
    case RecordStop(db) => Update(w.agent, w.agent.pass.record, StoppedStatus(w.agent.pass.record), None, db).Err?
    case ListSessions(ok) => !ok
    case _ => false
  }

  /** Sessions are settled, or a new daemon begins without any pass under way. */
  predicate Settles(e: Event) {
    e == AgentStep(SettleReturns) || e == AgentStep(AgentLifecycle.Crash)
  }

  /** A stop was lost at `k`, and no sessions have settled since. */
  predicate LostAt(worlds: seq<World>, events: seq<Event>, k: nat, j: nat)
    requires |worlds| == |events| + 1
  {
    && k < j <= |events| && Enabled(worlds[k], events[k]) && LosesStop(worlds[k], events[k])
    && forall m :: k < m < j ==> !Settles(events[m])
  }

  lemma OnlyStopEndsBotch(a: Agent, e: AgentLifecycle.Event)
    requires AgentLifecycle.Enabled(a, e) && !a.history.botched && !e.RecordStop?
    ensures AgentLifecycle.Next(a, e).history.botched <==> e.ListSessions? && !e.ok
  {
    if FromOutside(e) { CallsKeepRecord(a, e); }
  }

  lemma BotchedByALostStop(w: World, e: Event)
    requires Enabled(w, e) && !w.agent.history.botched && Next(w, e).agent.history.botched
    ensures LosesStop(w, e)
  {
    if e.AgentStep? && !e.e.RecordStop? { OnlyStopEndsBotch(w.agent, e.e); }
  }

  lemma SettlingClears(w: World, e: Event)
    requires Enabled(w, e) && Settles(e)
    ensures !Next(w, e).agent.history.botched
  {
  }

  lemma BotchStep(w: World, e: Event, v: World)
    requires Step(w, e, v) && v.agent.history.botched
    ensures !Settles(e) && (!w.agent.history.botched ==> LosesStop(w, e))
  {
    if Settles(e) { SettlingClears(w, e); }
    else if !w.agent.history.botched { BotchedByALostStop(w, e); }
  }

  lemma BotchAt(worlds: seq<World>, events: seq<Event>, j: nat)
    requires Runs.Run(Step, worlds, events) && j < |events| && worlds[j + 1].agent.history.botched
    ensures !Settles(events[j]) && (worlds[j].agent.history.botched || LostAt(worlds, events, j, j + 1))
  {
    assert Step(worlds[j], events[j], worlds[j + 1]);
    BotchStep(worlds[j], events[j], worlds[j + 1]);
  }

  lemma StillLost(worlds: seq<World>, events: seq<Event>, k: nat, j: nat)
    requires |worlds| == |events| + 1 && j < |events| && LostAt(worlds, events, k, j) && !Settles(events[j])
    ensures LostAt(worlds, events, k, j + 1)
  {
  }

  lemma LostNext(worlds: seq<World>, events: seq<Event>, k: nat, j: nat)
    requires Runs.Run(Step, worlds, events) && j < |events| && worlds[j + 1].agent.history.botched
    requires worlds[j].agent.history.botched ==> LostAt(worlds, events, k, j)
    ensures LostAt(worlds, events, if worlds[j].agent.history.botched then k else j, j + 1)
  {
    BotchAt(worlds, events, j);
    if worlds[j].agent.history.botched { StillLost(worlds, events, k, j); }
  }

  lemma {:induction false} BotchedSince(worlds: seq<World>, events: seq<Event>, j: nat) returns (k: nat)
    requires Runs.Run(Step, worlds, events) && !worlds[0].agent.history.botched
    requires j < |worlds| && worlds[j].agent.history.botched
    ensures LostAt(worlds, events, k, j)
    decreases j
  {
    k := j - 1;
    if worlds[j - 1].agent.history.botched {
      k := BotchedSince(worlds, events, j - 1);
    }
    LostNext(worlds, events, k, j - 1);
  }

  /**
    What the settling is for: a harness that starts in a running sandbox belongs to a session that
    read its agent after the latest stop of that sandbox, unless a stop was lost and no sessions have
    settled since. Such a stop was refused its record, or its sessions could not be listed.
  */
  lemma NoLaunchFromBeforeTheStop(worlds: seq<World>, events: seq<Event>, j: nat)
    requires FullRun(worlds, events) && j < |events| && events[j].Launch? && worlds[j].agent.history.up
    requires forall k :: !LostAt(worlds, events, k, j)
    ensures In(worlds[j], events[j].id, Approved(worlds[j].agent.history.boot))
  {
    FullRunKeeps(worlds, events, j);
    assert Step(worlds[j], events[j], worlds[j + 1]);
    assert CanLaunch(worlds[j], events[j].id);
    if worlds[j].agent.history.botched {
      var k := BotchedSince(worlds, events, j);
    }
  }

  // ----- reads from before a stop -----

  /**
    No session's read is newer than the latest stop, and while that stop is recorded and its sessions
    are settled, every one that can launch read its agent before it.
  */
  ghost predicate ReadsBefore(w: World) {
    forall id :: CanLaunch(w, id) ==>
      if At(w.agent, true) then w.phases[id].boot < w.agent.history.boot else w.phases[id].boot <= w.agent.history.boot
  }

  /** A step stops the sandbox or leaves the count of stops; only a stop leads to recording one. */
  predicate CountsStops(a: Agent, b: Agent) {
    || b.history.boot == a.history.boot + 1
    || (b.history.boot == a.history.boot && (At(b, true) ==> At(a, true)))
  }

  lemma CallsCountStops(a: Agent, e: AgentLifecycle.Event)
    requires AgentLifecycle.Enabled(a, e) && FromOutside(e)
    ensures CountsStops(a, AgentLifecycle.Next(a, e))
  {
  }

  lemma StopStepsCountStops(a: Agent, e: AgentLifecycle.Event)
    requires AgentLifecycle.Enabled(a, e) &&
      (StopsSandbox(e) || e.RecordStop? || e.ListSessions? || e.SettleReturns? || e.MarkRestart?)
    ensures CountsStops(a, AgentLifecycle.Next(a, e))
  {
  }

  lemma StepsCountStops(a: Agent, e: AgentLifecycle.Event)
    requires AgentLifecycle.Enabled(a, e)
    ensures CountsStops(a, AgentLifecycle.Next(a, e))
  {
    if FromOutside(e) { CallsCountStops(a, e); }
    else if StopsSandbox(e) || e.RecordStop? || e.ListSessions? || e.SettleReturns? || e.MarkRestart? {
      StopStepsCountStops(a, e);
    }
  }

  lemma RecordingIsNotReady(a: Agent)
    requires Invariant(a) && At(a, true)
    ensures a.row.Some? && !a.row.value.status.IsReady()
  {
  }

  lemma NextKeepsReads(w: World, e: Event)
    requires Kept(w) && ReadsBefore(w) && Enabled(w, e)
    ensures ReadsBefore(Next(w, e))
  {
    if e.AgentStep? {
      StepsCountStops(w.agent, e.e);
    } else if IsScheduling(e) {
      SchedulingKeepsPhases(w, e);
    } else {
      forall id | CanLaunch(Next(w, e), id)
        ensures if At(w.agent, true) then Next(w, e).phases[id].boot < w.agent.history.boot
                else Next(w, e).phases[id].boot <= w.agent.history.boot
      {
        ApprovedByReading(w, e, id);
        if At(w.agent, true) { RecordingIsNotReady(w.agent); }
        assert CanLaunch(w, id) || !At(w.agent, true);
      }
    }
  }

  ghost predicate KeptWithReads(w: World) {
    Kept(w) && ReadsBefore(w)
  }

  lemma ReadsBeforeAt(worlds: seq<World>, events: seq<Event>, i: nat)
    requires FullRun(worlds, events) && i < |worlds|
    ensures ReadsBefore(worlds[i])
  {
    forall w, e, v | KeptWithReads(w) && Step(w, e, v)
      ensures KeptWithReads(v)
    {
      NextKeeps(w, e);
      NextKeepsReads(w, e);
    }
    FullRunKeeps(worlds, events, 0);
    Runs.Keeps(Step, KeptWithReads, worlds, events, i);
  }
}
