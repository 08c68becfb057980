/**
  What every run of an agent keeps: a restart is never skipped, an immediate stop is not lost, and
  what counts as achieved was achieved by a pass. Two of these need a condition on the run, and each
  has a run that shows why.
*/
module AgentGuarantees {
  import opened Wrappers
  import opened AgentStore
  import opened AgentLifecycle
  import opened Runs

  // ----- runs -----

  predicate Step(a: Agent, e: Event, b: Agent) {
    Enabled(a, e) && b == Next(a, e)
  }

  /** A state some run of a new agent reaches. */
  ghost predicate Reached(a: Agent) {
    exists name, runState, spec, events :: Leads(Step, Initial(name, runState, spec), events, a)
  }

  /** A run extended by one event. */
  lemma Extended(a: Agent, events: seq<Event>, b: Agent, e: Event) returns (more: seq<Event>, c: Agent)
    requires Leads(Step, a, events, b) && Enabled(b, e)
    ensures Leads(Step, a, more, c) && c == Next(b, e) && more == events + [e]
  {
    more, c := events + [e], Next(b, e);
    Then(Step, a, events, b, e, c);
  }

  // ----- immediate stops -----

  /** The row is one that a pass stops before anything that forgets a request. */
  predicate BoundToStop(a: Agent)
    requires a.row.Some?
  {
    var row := a.row.value;
    match a.pass
    case NoPass => row.deleting || StopPath(row)
    case Reading => row.deleting || StopPath(row)
    case At(record, Dispatching) => record.desired == row.desired && (record.deleting || StopPath(record))
    case At(record, MarkingStop) => record.desired == row.desired
    case At(record, TakingStop) => record.desired == row.desired
    case At(record, RecordingStopFailure(_, _)) => row.deleting || StopPath(row)
    case _ => false
  }

  /** A request for `generation` was made for a stop, or for a restart that asked for one. */
  predicate AsksForStop(a: Agent, generation: nat)
    requires a.row.Some?
  {
    generation == a.row.value.desired.generation ==> IsStopped(a.row.value) || a.history.restartedAt == generation
  }

  predicate Known(a: Agent, generation: nat)
    requires a.row.Some?
  {
    generation <= a.row.value.desired.generation
  }

  predicate RequestsWell(a: Agent) {
    a.row.Some? ==>
      && (forall g :: g in a.late ==> Known(a, g) && AsksForStop(a, g))
      && (a.requested.Some? ==> Known(a, a.requested.value))
      && (a.pass.At? && a.pass.place.StoppingSandbox? && a.pass.place.killed.Some? ==>
           Known(a, a.pass.place.killed.value))
      && (a.pass.At? && a.pass.place.KillingReleased? ==> Known(a, a.pass.place.generation))
  }

  /**
    The conditions under which an owed stop is kept: no older registration took its place, and it is
    not that of a restart whose timestamp was already observed, which no pass stops for.
  */
  predicate InOrder(a: Agent) {
    !a.history.disordered && !(a.history.collided && a.history.owed == Some(a.history.restartedAt))
  }

  predicate OwedWell(a: Agent) {
    a.history.owed.Some? ==>
      && a.row.Some?
      && a.history.owed.value == a.row.value.desired.generation
      && AsksForStop(a, a.history.owed.value)
      && (InOrder(a) ==> a.requested.Some? && (a.requested == a.history.owed || BoundToStop(a)))
  }

  predicate Kept(a: Agent) {
    Invariant(a) && RequestsWell(a) && OwedWell(a)
  }

  lemma RunStateSetKeepsRequests(a: Agent, e: Event)
    requires Kept(a) && Enabled(a, e) && e.RunStateSet?
    ensures RequestsWell(Next(a, e)) && OwedWell(Next(a, e))
  {
  }

  lemma RestartedKeepsRequests(a: Agent, e: Event)
    requires Kept(a) && Enabled(a, e) && e.Restarted?
    ensures RequestsWell(Next(a, e)) && OwedWell(Next(a, e))
  {
  }

  lemma AppliedKeepsRequests(a: Agent, e: Event)
    requires Kept(a) && Enabled(a, e) && e.Applied?
    ensures RequestsWell(Next(a, e)) && OwedWell(Next(a, e))
  {
  }

  lemma RegistrationKeepsRequests(a: Agent, e: Event)
    requires Kept(a) && Enabled(a, e) && e.Registered?
    ensures RequestsWell(Next(a, e)) && OwedWell(Next(a, e))
  {
  }

  lemma EndKeepsRequests(a: Agent, e: Event)
    requires Kept(a) && Enabled(a, e) && (e.Deleted? || e.Crash?)
    ensures RequestsWell(Next(a, e)) && OwedWell(Next(a, e))
  {
  }

  lemma ReadKeepsRequests(a: Agent, e: Event)
    requires Kept(a) && Enabled(a, e) && (e.Begin? || e.Read?)
    ensures RequestsWell(Next(a, e)) && OwedWell(Next(a, e))
  {
  }

  lemma ProceedKeepsRequests(a: Agent)
    requires Kept(a) && Enabled(a, Proceed)
    ensures RequestsWell(Next(a, Proceed)) && OwedWell(Next(a, Proceed))
  {
    ProceedingKeepsRequests(a);
  }

  lemma DispatchStopKeepsRequests(a: Agent)
    requires Kept(a) && Enabled(a, Dispatch) && !a.pass.record.deleting && StopPath(a.pass.record)
    ensures RequestsWell(Next(a, Dispatch)) && OwedWell(Next(a, Dispatch))
  {
  }

  lemma DispatchReleaseKeepsRequests(a: Agent)
    requires Kept(a) && Enabled(a, Dispatch) && a.pass.record.deleting
    ensures RequestsWell(Next(a, Dispatch)) && OwedWell(Next(a, Dispatch))
  {
  }

  /** A start read by the pass forgets no owed request while requests came in order. */
  lemma ProceedingKeepsRequests(a: Agent)
    requires Kept(a) && a.pass.At? && (a.pass.place.Dispatching? || a.pass.place.Proceeding?)
    requires !a.pass.record.deleting && !StopPath(a.pass.record)
    ensures RequestsWell(AfterProceed(a, a.pass.record)) && OwedWell(AfterProceed(a, a.pass.record))
  {
  }

  lemma DispatchKeepsRequests(a: Agent)
    requires Kept(a) && Enabled(a, Dispatch)
    ensures RequestsWell(Next(a, Dispatch)) && OwedWell(Next(a, Dispatch))
  {
    if a.pass.record.deleting { DispatchReleaseKeepsRequests(a); }
    else if StopPath(a.pass.record) { DispatchStopKeepsRequests(a); }
    else { ProceedingKeepsRequests(a); }
  }

  lemma MarkStopKeepsRequests(a: Agent, e: Event)
    requires Kept(a) && Enabled(a, e) && e.MarkStop?
    ensures RequestsWell(Next(a, e)) && OwedWell(Next(a, e))
  {
  }

  lemma StopFailureKeepsRequests(a: Agent, e: Event)
    requires Kept(a) && Enabled(a, e) && e.RecordStopFailure?
    ensures RequestsWell(Next(a, e)) && OwedWell(Next(a, e))
  {
  }

  lemma TakeKeepsRequests(a: Agent, e: Event)
    requires Kept(a) && Enabled(a, e) && (e.TakeStop? || e.CutShort?)
    ensures RequestsWell(Next(a, e)) && OwedWell(Next(a, e))
  {
  }

  /** A kill that failed asks again, perhaps over a newer request; the next pass still stops first. */
  lemma StopReturnsKeepsRequests(a: Agent, e: Event)
    requires Kept(a) && Enabled(a, e) && e.StopReturns?
    ensures RequestsWell(Next(a, e)) && OwedWell(Next(a, e))
  {
  }

  lemma KillKeepsRequests(a: Agent, ok: bool)
    requires Kept(a) && Enabled(a, KillReturns(ok))
    ensures RequestsWell(Next(a, KillReturns(ok))) && OwedWell(Next(a, KillReturns(ok)))
  {
  }

  lemma FinalizeKeepsRequests(a: Agent, db: bool)
    requires Kept(a) && Enabled(a, Event.Finalize(db))
    ensures RequestsWell(Next(a, Event.Finalize(db))) && OwedWell(Next(a, Event.Finalize(db)))
  {
    if Next(a, Event.Finalize(db)).row.Some? {
      assert Next(a, Event.Finalize(db)) == End(a);
      RestKeepsRequests(a, End(a));
    }
  }

  /** `b` leaves desired state, requests and what is owed as `a` has them, and attempts no kill. */
  predicate LeavesRequests(a: Agent, b: Agent) {
    && a.row.Some? && b.row.Some? && b.row.value.desired == a.row.value.desired
    && b.requested == a.requested && b.late == a.late
    && b.history.owed == a.history.owed && b.history.restartedAt == a.history.restartedAt
    && b.history.disordered == a.history.disordered && b.history.collided == a.history.collided
    && b.history.served == a.history.served && b.history.stoppedFor == a.history.stoppedFor
    && (b.pass.At? ==> !b.pass.place.StoppingSandbox? && !b.pass.place.KillingReleased?)
  }

  predicate IsRest(e: Event) {
    || e.RecordStop? || e.ListSessions? || e.SettleReturns? || e.MarkRestart? || e.Resolve? || e.RecordUnresolved?
    || e.SelectProvider? || e.MarkStart? || e.Boot? || e.SetUpSucceeds? || e.SetUpFails? || e.Abandon? || e.RecordSetUp?
    || e.ReleaseReturns?
  }

  lemma RecordStopLeavesRequests(a: Agent, db: bool)
    requires a.row.Some? && Enabled(a, RecordStop(db))
    ensures LeavesRequests(a, Next(a, RecordStop(db)))
  {
  }

  lemma SettlingLeavesRequests(a: Agent, e: Event)
    requires a.row.Some? && Enabled(a, e) && (e.ListSessions? || e.SettleReturns? || e.MarkRestart?)
    ensures LeavesRequests(a, Next(a, e))
  {
  }

  lemma StartLeavesRequests(a: Agent, e: Event)
    requires a.row.Some? && Enabled(a, e) && (e.Resolve? || e.RecordUnresolved? || e.SelectProvider? || e.MarkStart?)
    ensures LeavesRequests(a, Next(a, e))
  {
  }

  lemma SetUpLeavesRequests(a: Agent, e: Event)
    requires a.row.Some? && Enabled(a, e)
    requires e.Boot? || e.SetUpSucceeds? || e.SetUpFails? || e.Abandon? || e.RecordSetUp? || e.ReleaseReturns?
    ensures LeavesRequests(a, Next(a, e))
  {
  }

  lemma RestIsNotBound(a: Agent, e: Event)
    requires a.row.Some? && Enabled(a, e) && IsRest(e)
    ensures !BoundToStop(a)
  {
  }

  lemma RestLeavesRequests(a: Agent, e: Event)
    requires a.row.Some? && Enabled(a, e) && IsRest(e)
    ensures LeavesRequests(a, Next(a, e))
  {
    if e.RecordStop? { RecordStopLeavesRequests(a, e.db); }
    else if e.ListSessions? || e.SettleReturns? || e.MarkRestart? { SettlingLeavesRequests(a, e); }
    else if e.Resolve? || e.RecordUnresolved? || e.SelectProvider? || e.MarkStart? { StartLeavesRequests(a, e); }
    else { SetUpLeavesRequests(a, e); }
  }

  lemma RestKeepsRequests(a: Agent, b: Agent)
    requires Kept(a) && LeavesRequests(a, b) && !BoundToStop(a)
    ensures RequestsWell(b) && OwedWell(b)
  {
  }

  lemma OutsideKeepsRequests(a: Agent, e: Event)
    requires Kept(a) && Enabled(a, e) && FromOutside(e)
    ensures RequestsWell(Next(a, e)) && OwedWell(Next(a, e))
  {
    if e.RunStateSet? { RunStateSetKeepsRequests(a, e); }
    else if e.Restarted? { RestartedKeepsRequests(a, e); }
    else if e.Applied? { AppliedKeepsRequests(a, e); }
    else if e.Registered? { RegistrationKeepsRequests(a, e); }
    else { EndKeepsRequests(a, e); }
  }

  lemma StopKeepsRequests(a: Agent, e: Event)
    requires Kept(a) && Enabled(a, e) && StopsSandbox(e)
    ensures RequestsWell(Next(a, e)) && OwedWell(Next(a, e))
  {
    if e.MarkStop? { MarkStopKeepsRequests(a, e); }
    else if e.RecordStopFailure? { StopFailureKeepsRequests(a, e); }
    else if e.StopReturns? { StopReturnsKeepsRequests(a, e); }
    else { TakeKeepsRequests(a, e); }
  }

  lemma NextKeepsAll(a: Agent, e: Event)
    requires Kept(a) && Enabled(a, e)
    ensures Kept(Next(a, e))
  {
    NextKeeps(a, e);
    if IsRest(e) {
      RestLeavesRequests(a, e);
      RestIsNotBound(a, e);
      RestKeepsRequests(a, Next(a, e));
    }
    else if FromOutside(e) { OutsideKeepsRequests(a, e); }
    else if StopsSandbox(e) { StopKeepsRequests(a, e); }
    else if e.KillReturns? { KillKeepsRequests(a, e.ok); }
    else if e.Finalize? { FinalizeKeepsRequests(a, e.db); }
    else if e.Dispatch? { DispatchKeepsRequests(a); }
    else if e.Proceed? { ProceedKeepsRequests(a); }
    else { ReadKeepsRequests(a, e); }
  }

  lemma RunKeeps(states: seq<Agent>, events: seq<Event>, i: nat)
    requires Run(Step, states, events) && Kept(states[0]) && i < |states|
    ensures Kept(states[i])
  {
    forall a, e, b | Kept(a) && Step(a, e, b)
      ensures Kept(b)
    {
      NextKeepsAll(a, e);
    }
    Keeps(Step, Kept, states, events, i);
  }

  lemma ReachedKeeps(a: Agent)
    requires Reached(a)
    ensures Kept(a)
  {
    var name, runState, spec, events :| Leads(Step, Initial(name, runState, spec), events, a);
    var states :| Run(Step, states, events) && states[0] == Initial(name, runState, spec) && states[|events|] == a;
    RunKeeps(states, events, |events|);
  }

  // ----- an immediate stop is not lost -----

  /**
    From the moment it is registered, while no later registration was for an older generation, an
    immediate stop stays requested until a kill is attempted or a newer desired state is stored.
  */
  lemma ImmediateStopIsNotLost(a: Agent)
    requires Reached(a) && InOrder(a) && a.history.owed.Some?
    ensures a.requested.Some? && a.row.Some? && a.history.owed.value == a.row.value.desired.generation
  {
    ReachedKeeps(a);
  }

  predicate AttemptsKill(a: Agent) {
    a.pass.At? && ((a.pass.place.StoppingSandbox? && a.pass.place.killed.Some?) || a.pass.place.KillingReleased?)
  }

  predicate MetBetween(a: Agent, b: Agent)
    requires a.history.owed.Some?
  {
    || b.row.None?
    || (AttemptsKill(b) && !AttemptsKill(a))
    || b.row.value.desired.generation > a.history.owed.value
  }

  lemma OwedThroughCalls(a: Agent, e: Event)
    requires OwedWell(a) && Enabled(a, e) && FromOutside(e) && !e.Crash?
    requires a.history.owed.Some? && Next(a, e).history.owed.None?
    ensures MetBetween(a, Next(a, e))
  {
  }

  lemma OwedThroughPass(a: Agent, e: Event)
    requires Enabled(a, e) && !FromOutside(e) && !IsRest(e)
    requires a.history.owed.Some? && Next(a, e).history.owed.None?
    ensures MetBetween(a, Next(a, e))
  {
  }

  /**
    What a registered stop waits for: only a kill attempt, a newer desired state, the end of the
    agent's deletion or a crash ends it.
  */
  lemma OwedUntilMet(a: Agent, e: Event)
    requires Kept(a) && Enabled(a, e) && !e.Crash?
    requires a.history.owed.Some? && Next(a, e).history.owed.None?
    ensures MetBetween(a, Next(a, e))
  {
    if FromOutside(e) { OwedThroughCalls(a, e); }
    else if IsRest(e) { RestLeavesRequests(a, e); }
    else { OwedThroughPass(a, e); }
  }

  /** A request still owed disappears only when an older one had replaced it. */
  lemma LostOnlyWhenReplaced(a: Agent, e: Event)
    requires Kept(a) && Enabled(a, e) && a.requested.Some? && a.history.owed.Some?
    requires Next(a, e).history.owed.Some?
    ensures Next(a, e).requested.None? <==>
      && (e.Proceed? || (e.Dispatch? && !a.pass.record.deleting && !StopPath(a.pass.record)))
      && a.requested.value < a.pass.record.desired.generation
    ensures Next(a, e).requested.None? ==> !InOrder(a) && a.requested.value < a.history.owed.value
  {
    if IsRest(e) { RestLeavesRequests(a, e); }
    else if FromOutside(e) { CallsLoseNoRequest(a, e); }
  }

  lemma CallsLoseNoRequest(a: Agent, e: Event)
    requires Enabled(a, e) && FromOutside(e) && a.requested.Some? && Next(a, e).history.owed.Some?
    ensures Next(a, e).requested.Some?
  {
  }

  /** A pass has read the start that came after one immediate stop, still to be registered. */
  function StartRead(): Agent {
    var a := Initial("a", Running, "");
    var start := a.row.value.(desired := Desired(3, Running, None, ""));
    a.(row := Some(start), late := multiset{2}, pass := At(start, Dispatching))
  }

  lemma StartIsRead() returns (events: seq<Event>)
    ensures Leads(Step, Initial("a", Running, ""), events, StartRead())
  {
    var a := Initial("a", Running, "");
    var b := a;
    events := [];
    NoEvents(Step, a);
    events, b := Extended(a, events, b, RunStateSet(Stopped, true));
    assert b == a.(row := Some(a.row.value.(desired := Desired(2, Stopped, None, ""))), late := multiset{2});
    events, b := Extended(a, events, b, RunStateSet(Running, false));
    assert b == StartRead().(pass := NoPass);
    events, b := Extended(a, events, b, Begin);
    events, b := Extended(a, events, b, Read);
  }

  /**
    Without that order a stop is lost. Two immediate stops are stored with a start between them; a
    pass reads the start; the newer stop registers, then the older one late, over it; and the pass
    forgets the older one as superseded by its start.
  */
  lemma LateRequestLosesAStop() returns (events: seq<Event>, b: Agent)
    ensures Leads(Step, Initial("a", Running, ""), events, b)
    ensures b.history.owed == Some(4) && b.requested.None? && b.row.Some? && IsStopped(b.row.value)
    ensures !b.history.collided && b.late == multiset{}
  {
    var a := StartRead();
    events, b := [], a;
    NoEvents(Step, a);
    events, b := Extended(a, events, b, RunStateSet(Stopped, true));
    var stored := a.(row := Some(a.row.value.(desired := Desired(4, Stopped, None, ""))));
    assert b == stored.(late := multiset{2, 4});
    events, b := Extended(a, events, b, Registered(4));
    assert b == stored.(requested := Some(4), late := multiset{2}, history := a.history.(owed := Some(4)));
    events, b := Extended(a, events, b, Registered(2));
    var history := a.history.(owed := Some(4), disordered := true);
    assert b == stored.(requested := Some(2), late := multiset{}, history := history);
    events, b := Extended(a, events, b, Dispatch);
    var before := StartIsRead();
    Joined(Step, Initial("a", Running, ""), before, a, events, b);
    events := before + events;
  }

  // ----- a restart is never skipped -----

  /**
    Ready recorded for the current generation means no restart is pending; and where the latest
    restart counts as observed, a pass that read that restart had stopped the sandbox, whatever
    conflicts, failures and crashes came between. The timestamp of the restart must differ from the
    one observed when it was stored.
  */
  lemma RestartIsNeverSkipped(a: Agent)
    requires Reached(a) && a.row.Some?
    ensures a.row.value.status.IsReady() && Current(a.row.value) ==> !RestartPending(a.row.value)
    ensures
      var row := a.row.value;
      row.desired.restart.Some? && !a.history.collided &&
        (!RestartPending(row) || (row.status.IsReady() && Current(row))) ==>
        a.history.served
  {
    ReachedKeeps(a);
  }

  /**
    Before a pass is past its stop, and outside of passes, only a stop that succeeds serves a restart
    or stops for a generation.
  */
  lemma OnlyStopsServe(a: Agent, e: Event)
    requires Enabled(a, e) && !IsRest(e) && !(e.StopReturns? && e.ok)
    ensures Next(a, e).history.served ==> a.history.served
    ensures Next(a, e).history.stoppedFor <= a.history.stoppedFor
  {
    if FromOutside(e) { CallsKeepRecord(a, e); }
  }

  /** Only a stop that succeeded, in a pass that read the latest restart, serves it. */
  lemma OnlyItsOwnStopServes(a: Agent, e: Event)
    requires Kept(a) && Enabled(a, e) && !a.history.served && Next(a, e).history.served
    ensures e.StopReturns? && e.ok && a.pass.record.desired.restart == a.row.value.desired.restart
    ensures a.pass.record.desired.generation >= a.history.restartedAt
  {
    if IsRest(e) {
      RestLeavesRequests(a, e);
    } else if !(e.StopReturns? && e.ok) {
      OnlyStopsServe(a, e);
    }
  }

  /** A restart takes hold exactly when its timestamp is not the one already observed. */
  lemma RestartTakesHoldExactlyWhen(a: Agent, timestamp: nat, now: bool)
    requires Enabled(a, Restarted(timestamp, now))
    ensures RestartPending(Next(a, Restarted(timestamp, now)).row.value) <==>
      a.row.value.status.observedRestart != Some(timestamp)
    ensures Next(a, Restarted(timestamp, now)).history.collided <==>
      a.row.value.status.observedRestart == Some(timestamp)
  {
  }

  // A run of two restarts at timestamp 7, in parts.

  function RowWith(generation: nat, status: Status): Row {
    Row("a", Desired(generation, Running, Some(7), ""), false, status)
  }

  function NewStatus(): Status {
    Status(0, None, Unassigned, Unreported, false, None, "")
  }

  function StatusFor(reason: Reason, observed: Option<nat>): Status {
    Status(2, observed, Unassigned, False(reason), false, None, "")
  }

  /** The first restart's pass has stopped the sandbox. */
  function StoppedOnce(): Agent {
    Agent(Some(RowWith(2, StatusFor(StoppingNow, None))), At(RowWith(2, NewStatus()), RecordingStop), None, multiset{},
          History(1, false, None, false, 2, true, false, {2}, {}, false, false))
  }

  /** The first restart was carried out, and the daemon ended before the start. */
  function RestartedOnce(): Agent {
    Agent(Some(RowWith(2, StatusFor(StartingNow, Some(7)))), NoPass, None, multiset{},
          History(1, false, None, false, 2, true, false, {2}, {}, true, false))
  }

  /** The second restart's pass read it, and is past any stop. */
  function SkippedStop(): Agent {
    var row := RowWith(3, StatusFor(StartingNow, Some(7)));
    Agent(Some(row), At(row, Resolving), None, multiset{},
      History(1, false, None, false, 3, false, true, {2}, {}, true, false))
  }

  /** The first restart's pass is about to stop the sandbox. */
  function AskedOnce(): Agent {
    var read := RowWith(2, NewStatus());
    var a := Initial("a", Running, "");
    a.(row := Some(read), pass := At(read, MarkingStop), history := a.history.(restartedAt := 2, served := false))
  }

  lemma FirstRestartIsRead() returns (events: seq<Event>)
    ensures Leads(Step, Initial("a", Running, ""), events, AskedOnce())
  {
    var a := Initial("a", Running, "");
    var b := a;
    events := [];
    NoEvents(Step, a);
    var read := RowWith(2, NewStatus());
    events, b := Extended(a, events, b, Restarted(7, false));
    assert b == AskedOnce().(pass := NoPass);
    events, b := Extended(a, events, b, Begin);
    events, b := Extended(a, events, b, Read);
    assert b == AskedOnce().(pass := At(read, Dispatching));
    events, b := Extended(a, events, b, Dispatch);
  }

  lemma FirstRestartStops() returns (events: seq<Event>)
    ensures Leads(Step, AskedOnce(), events, StoppedOnce())
  {
    var asked := AskedOnce();
    var a := asked;
    var read := RowWith(2, NewStatus());
    var b := a;
    events := [];
    NoEvents(Step, a);
    events, b := Extended(a, events, b, MarkStop(true));
    assert b == asked.(row := StoppedOnce().row, pass := At(read, TakingStop));
    events, b := Extended(a, events, b, TakeStop);
    assert b == asked.(row := StoppedOnce().row, pass := At(read, StoppingSandbox(None)));
    events, b := Extended(a, events, b, StopReturns(true, Transient, ""));
  }

  lemma FirstRestartSettles() returns (events: seq<Event>)
    ensures Leads(Step, StoppedOnce(), events, SettledOnce())
  {
    var a := StoppedOnce();
    var b := a;
    events := [];
    NoEvents(Step, a);
    events, b := Extended(a, events, b, RecordStop(true));
    var stopped := StatusFor(StoppedNow, None);
    assert b == a.(row := Some(RowWith(2, stopped)), pass := At(RowWith(2, NewStatus()), ListingSessions(stopped)));
    events, b := Extended(a, events, b, ListSessions(true));
    assert b == a.(row := Some(RowWith(2, stopped)), pass := At(RowWith(2, NewStatus()), Settling(stopped)));
    events, b := Extended(a, events, b, SettleReturns);
  }

  /** Its sessions have settled, so the restart counts as carried out. */
  function SettledOnce(): Agent {
    var row := RowWith(2, StatusFor(StoppedNow, None));
    var a := StoppedOnce();
    a.(row := Some(row), pass := At(row, MarkingRestart), history := a.history.(settled := true))
  }

  lemma FirstRestartIsMarked() returns (events: seq<Event>)
    ensures Leads(Step, SettledOnce(), events, RestartedOnce())
  {
    var a := SettledOnce();
    var b := a;
    events := [];
    NoEvents(Step, a);
    events, b := Extended(a, events, b, MarkRestart(true));
    assert b.row == RestartedOnce().row;
    events, b := Extended(a, events, b, Crash);
  }

  lemma SecondRestartSkips() returns (events: seq<Event>)
    ensures Leads(Step, RestartedOnce(), events, SkippedStop())
  {
    var a := RestartedOnce();
    var b := a;
    events := [];
    NoEvents(Step, a);
    events, b := Extended(a, events, b, Restarted(7, false));
    events, b := Extended(a, events, b, Begin);
    events, b := Extended(a, events, b, Read);
    events, b := Extended(a, events, b, Dispatch);
  }

  /** The second restart's pass has chosen a provider. */
  function SettingUpAgain(): Agent {
    var selected := RowWith(3, Status(3, Some(7), Selected, False(ProviderSelected), false, None, ""));
    SkippedStop().(row := Some(selected), pass := At(selected, SettingUp))
  }

  lemma SecondRestartSetsUp() returns (events: seq<Event>)
    ensures Leads(Step, SkippedStop(), events, SettingUpAgain())
  {
    var a := SkippedStop();
    var b := a;
    events := [];
    NoEvents(Step, a);
    events, b := Extended(a, events, b, Resolve(true, Transient, ""));
    assert b == a.(pass := At(a.pass.record, SelectingProvider));
    events, b := Extended(a, events, b, SelectProvider(true));
  }

  /** The sandbox is set up, to be recorded Ready. */
  function SetUpAgain(): Agent {
    var a := SettingUpAgain();
    a.(pass := At(a.pass.record, RecordingSetUp(Status(3, None, Materialized({}), True, false, None, ""))),
      history := a.history.(up := true))
  }

  lemma SecondRestartBoots() returns (events: seq<Event>)
    ensures Leads(Step, SettingUpAgain(), events, SetUpAgain())
  {
    var a := SettingUpAgain();
    var b := a;
    events := [];
    NoEvents(Step, a);
    events, b := Extended(a, events, b, Boot);
    events, b := Extended(a, events, b, SetUpSucceeds({}, ""));
  }

  lemma SecondRestartIsReady() returns (events: seq<Event>, b: Agent)
    ensures Leads(Step, SetUpAgain(), events, b)
    ensures b.history.restartedAt == 3 && b.history.boot == 1 && !b.history.served
    ensures b.row.Some? && b.row.value.status.IsReady() && Current(b.row.value) && b.pass.NoPass?
  {
    var a := SetUpAgain();
    events, b := [], a;
    NoEvents(Step, a);
    events, b := Extended(a, events, b, RecordSetUp(true));
  }

  lemma FirstRestartIsCarriedOut() returns (events: seq<Event>)
    ensures Leads(Step, Initial("a", Running, ""), events, RestartedOnce())
  {
    var start := Initial("a", Running, "");
    events := FirstRestartIsRead();
    var more := FirstRestartStops();
    Joined(Step, start, events, AskedOnce(), more, StoppedOnce());
    events := events + more;
    more := FirstRestartSettles();
    Joined(Step, start, events, StoppedOnce(), more, SettledOnce());
    events := events + more;
    more := FirstRestartIsMarked();
    Joined(Step, start, events, SettledOnce(), more, RestartedOnce());
    events := events + more;
  }

  /** Two restarts within one clock reading: the second is answered Ready without a stop of its own. */
  lemma RepeatedTimestampSkipsARestart() returns (events: seq<Event>, b: Agent)
    ensures Leads(Step, Initial("a", Running, ""), events, b)
    ensures b.history.restartedAt == 3 && b.history.boot == 1 && !b.history.served
    ensures b.row.Some? && b.row.value.status.IsReady() && Current(b.row.value) && b.pass.NoPass?
  {
    var start := Initial("a", Running, "");
    events := FirstRestartIsCarriedOut();
    var more := SecondRestartSkips();
    Joined(Step, start, events, RestartedOnce(), more, SkippedStop());
    events := events + more;
    more := SecondRestartSetsUp();
    Joined(Step, start, events, SkippedStop(), more, SettingUpAgain());
    events := events + more;
    more := SecondRestartBoots();
    Joined(Step, start, events, SettingUpAgain(), more, SetUpAgain());
    events := events + more;
    more, b := SecondRestartIsReady();
    Joined(Step, start, events, SetUpAgain(), more, b);
    events := events + more;
  }

  // ----- what passes achieve -----

  /** A generation counts as stopped only through a stop that succeeded in a pass that read it. */
  lemma OnlyStopsStop(a: Agent, e: Event, generation: nat)
    requires Kept(a) && Enabled(a, e)
    requires generation in Next(a, e).history.stoppedFor && generation !in a.history.stoppedFor
    ensures e.StopReturns? && e.ok && a.pass.record.desired.generation == generation
  {
    if IsRest(e) {
      RestLeavesRequests(a, e);
    } else if !(e.StopReturns? && e.ok) {
      OnlyStopsServe(a, e);
    }
  }

  lemma OnlySetUpMakesReady(a: Agent, e: Event)
    requires Enabled(a, e) && !e.RecordSetUp?
    ensures Next(a, e).history.readyFor == a.history.readyFor
  {
    if FromOutside(e) { CallsKeepRecord(a, e); }
  }

  /** A generation counts as ready only through a pass that read it, was to start it, and recorded it Ready. */
  lemma OnlyPassesMakeReady(a: Agent, e: Event, generation: nat)
    requires Kept(a) && Enabled(a, e)
    requires generation in Next(a, e).history.readyFor && generation !in a.history.readyFor
    ensures e.RecordSetUp? && a.pass.record.desired.generation == generation && !StopPath(a.pass.record)
    ensures
      var b := Next(a, e);
      b.row.Some? && b.row.value.status.IsReady() && b.row.value.status.observedGeneration == generation
  {
    if !e.RecordSetUp? { OnlySetUpMakesReady(a, e); }
  }
}
