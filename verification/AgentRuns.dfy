/**
  The agent's guarantees told over runs: which earlier event of the run each of them rests on. The
  record that `AgentGuarantees` keeps in `History` does not appear in what is stated here.
*/
module AgentRuns {
  import opened Wrappers
  import opened AgentStore
  import opened ImmediateStops
  import opened AgentLifecycle
  import opened AgentGuarantees

  /** A run of an agent from its creation. */
  ghost predicate FromNew(states: seq<Agent>, events: seq<AgentLifecycle.Event>) {
    Runs.Run(Step, states, events) &&
      exists name, runState, spec :: states[0] == AgentLifecycle.Initial(name, runState, spec)
  }

  lemma KeptAt(states: seq<Agent>, events: seq<AgentLifecycle.Event>, i: nat)
    requires FromNew(states, events) && i < |states|
    ensures AgentGuarantees.Kept(states[i])
  {
    AgentGuarantees.RunKeeps(states, events, i);
  }

  lemma StepAt(states: seq<Agent>, events: seq<AgentLifecycle.Event>, i: nat)
    requires Runs.Run(Step, states, events) && i < |events|
    ensures AgentLifecycle.Enabled(states[i], events[i]) && states[i + 1] == AgentLifecycle.Next(states[i], events[i])
  {
    assert Step(states[i], events[i], states[i + 1]);
  }

  // ----- what one step leaves as it is -----

  /**
    Desired state only goes on, a restart alone changes the restart, and only registrations upset the
    order of requests.
  */
  predicate Frames(a: Agent, e: AgentLifecycle.Event, b: Agent) {
    && (b.row.Some? ==> a.row.Some? && a.row.value.desired.generation <= b.row.value.desired.generation)
    && (!e.Restarted? ==>
          && (b.row.Some? ==> b.row.value.desired.restart == a.row.value.desired.restart)
          && b.history.restartedAt == a.history.restartedAt && b.history.collided == a.history.collided)
    && (b.history.disordered ==> a.history.disordered || e.Registered?)
  }

  lemma ChangesFrame(a: Agent, e: AgentLifecycle.Event)
    requires AgentLifecycle.Enabled(a, e) && (e.RunStateSet? || e.Restarted? || e.Applied?)
    ensures Frames(a, e, AgentLifecycle.Next(a, e))
  {
  }

  lemma CallsFrame(a: Agent, e: AgentLifecycle.Event)
    requires AgentLifecycle.Enabled(a, e) && FromOutside(e)
    ensures Frames(a, e, AgentLifecycle.Next(a, e))
  {
    if e.RunStateSet? || e.Restarted? || e.Applied? { ChangesFrame(a, e); }
  }

  lemma PassFrames(a: Agent, e: AgentLifecycle.Event)
    requires AgentLifecycle.Enabled(a, e) && !FromOutside(e) && !IsRest(e)
    ensures Frames(a, e, AgentLifecycle.Next(a, e))
  {
  }

  lemma StepFrames(a: Agent, e: AgentLifecycle.Event)
    requires AgentGuarantees.Kept(a) && AgentLifecycle.Enabled(a, e)
    ensures Frames(a, e, AgentLifecycle.Next(a, e))
  {
    if FromOutside(e) { CallsFrame(a, e); }
    else if IsRest(e) { RestLeavesRequests(a, e); }
    else { PassFrames(a, e); }
  }

  lemma FramesAt(states: seq<Agent>, events: seq<AgentLifecycle.Event>, i: nat)
    requires FromNew(states, events) && i < |events|
    ensures Frames(states[i], events[i], states[i + 1])
  {
    StepAt(states, events, i);
    KeptAt(states, events, i);
    StepFrames(states[i], events[i]);
  }

  /** A restart is stored as a new generation, with nothing yet done for it. */
  lemma RestartStores(a: Agent, e: AgentLifecycle.Event)
    requires AgentLifecycle.Enabled(a, e) && e.Restarted?
    ensures
      var b := AgentLifecycle.Next(a, e);
      && a.row.Some? && b.row.Some? && !b.history.served
      && b.row.value.desired.restart == Some(e.timestamp)
      && b.history.restartedAt == b.row.value.desired.generation == a.row.value.desired.generation + 1
      && (b.history.collided <==> a.row.value.status.observedRestart == Some(e.timestamp))
  {
  }

  /** The restart at `r` is the latest one before `i`. */
  predicate LatestRestart(states: seq<Agent>, events: seq<AgentLifecycle.Event>, r: nat, i: nat)
    requires |states| == |events| + 1
  {
    && r < i <= |events| && events[r].Restarted? && states[r].row.Some? && states[r + 1].row.Some?
    && forall m :: r < m < i ==> !events[m].Restarted?
  }

  /** The restart carries the timestamp that its agent's status had already observed when it was stored. */
  predicate Repeated(states: seq<Agent>, events: seq<AgentLifecycle.Event>, r: nat)
    requires r < |events| && |states| == |events| + 1 && events[r].Restarted? && states[r].row.Some?
  {
    states[r].row.value.status.observedRestart == Some(events[r].timestamp)
  }

  /** The machine remembers of the latest restart what the run shows of it. */
  predicate Remembers(states: seq<Agent>, events: seq<AgentLifecycle.Event>, r: nat, i: nat)
    requires |states| == |events| + 1 && LatestRestart(states, events, r, i)
  {
    && states[i].history.restartedAt == states[r + 1].row.value.desired.generation
    && (states[i].history.collided <==> Repeated(states, events, r))
    && (states[i].row.Some? ==> states[i].row.value.desired.restart == Some(events[r].timestamp))
  }

  lemma RemembersAtFirst(states: seq<Agent>, events: seq<AgentLifecycle.Event>, r: nat)
    requires Runs.Run(Step, states, events) && LatestRestart(states, events, r, r + 1)
    ensures Remembers(states, events, r, r + 1)
  {
    StepAt(states, events, r);
    RestartStores(states[r], events[r]);
  }

  lemma RemembersOn(states: seq<Agent>, events: seq<AgentLifecycle.Event>, r: nat, i: nat)
    requires |states| == |events| + 1 && LatestRestart(states, events, r, i + 1) && r < i
    requires Remembers(states, events, r, i) && Frames(states[i], events[i], states[i + 1])
    ensures Remembers(states, events, r, i + 1)
  {
  }

  ghost predicate Framed(states: seq<Agent>, events: seq<AgentLifecycle.Event>) {
    |states| == |events| + 1 && forall i :: 0 <= i < |events| ==> Frames(states[i], events[i], states[i + 1])
  }

  lemma RunIsFramed(states: seq<Agent>, events: seq<AgentLifecycle.Event>)
    requires FromNew(states, events)
    ensures Framed(states, events)
    ensures !states[0].history.collided && states[0].row.Some? && states[0].row.value.desired.restart.None?
  {
    forall i | 0 <= i < |events|
      ensures Frames(states[i], events[i], states[i + 1])
    {
      FramesAt(states, events, i);
    }
  }

  lemma {:induction false} RemembersSince(states: seq<Agent>, events: seq<AgentLifecycle.Event>, r: nat, i: nat)
    requires Framed(states, events) && LatestRestart(states, events, r, i)
    requires LatestRestart(states, events, r, r + 1) && Remembers(states, events, r, r + 1)
    ensures Remembers(states, events, r, i)
    decreases i
  {
    if i > r + 1 {
      RemembersSince(states, events, r, i - 1);
      assert Frames(states[i - 1], events[i - 1], states[i]);
      RemembersOn(states, events, r, i - 1);
    }
  }

  lemma RestartRemembered(states: seq<Agent>, events: seq<AgentLifecycle.Event>, r: nat, i: nat)
    requires FromNew(states, events) && LatestRestart(states, events, r, i)
    ensures Remembers(states, events, r, i)
  {
    RunIsFramed(states, events);
    RemembersAtFirst(states, events, r);
    RemembersSince(states, events, r, i);
  }

  lemma {:induction false} SomeLatestRestart(states: seq<Agent>, events: seq<AgentLifecycle.Event>, i: nat)
      returns (r: nat)
    requires Framed(states, events) && i < |states|
    requires !states[0].history.collided && (states[0].row.Some? ==> states[0].row.value.desired.restart.None?)
    requires states[i].row.Some? && (states[i].history.collided || states[i].row.value.desired.restart.Some?)
    ensures LatestRestart(states, events, r, i)
    decreases i
  {
    assert Frames(states[i - 1], events[i - 1], states[i]);
    if events[i - 1].Restarted? {
      r := i - 1;
    } else {
      r := SomeLatestRestart(states, events, i - 1);
    }
  }

  // ----- immediate stops -----

  /** The step from `a` to `b` attempts a kill, stores a newer desired state or ends the agent. */
  predicate Meets(a: Agent, b: Agent) {
    || b.row.None?
    || (AttemptsKill(b) && !AttemptsKill(a))
    || (a.row.Some? && b.row.value.desired.generation > a.row.value.desired.generation)
  }

  /**
    At `i` a call registers the immediate stop of the stored desired state, and up to `j` nothing
    meets it and the daemon stays up.
  */
  ghost predicate Waits(states: seq<Agent>, events: seq<AgentLifecycle.Event>, i: nat, j: nat) {
    && FromNew(states, events) && i < j <= |events| && events[i].Registered?
    && states[i].row.Some? && states[i].row.value.desired.generation == events[i].generation
    && forall k :: i < k < j ==> !events[k].Crash? && !Meets(states[k], states[k + 1])
  }

  lemma {:induction false} StaysOwed(states: seq<Agent>, events: seq<AgentLifecycle.Event>, i: nat, j: nat)
    requires Waits(states, events, i, j)
    ensures states[j].row.Some? && states[j].row.value.desired.generation == events[i].generation
    ensures states[j].history.owed == Some(events[i].generation)
    decreases j
  {
    var k := j - 1;
    StepAt(states, events, k);
    KeptAt(states, events, j);
    if k > i {
      assert Waits(states, events, i, k);
      StaysOwed(states, events, i, k);
      KeptAt(states, events, k);
      StepFrames(states[k], events[k]);
      assert !Meets(states[k], states[k + 1]);
      if states[j].history.owed.None? {
        OwedUntilMet(states[k], events[k]);
      }
    }
  }

  /** No older registration comes while the stop waits. */
  predicate OnlyNewer(events: seq<AgentLifecycle.Event>, i: nat, j: nat)
    requires i < j <= |events| && events[i].Registered?
  {
    forall k :: i < k < j && events[k].Registered? ==> events[k].generation >= events[i].generation
  }

  lemma {:induction false} StaysInOrder(states: seq<Agent>, events: seq<AgentLifecycle.Event>, i: nat, j: nat)
    requires Waits(states, events, i, j) && OnlyNewer(events, i, j)
    ensures !states[j].history.disordered
    decreases j
  {
    var k := j - 1;
    StepAt(states, events, k);
    if k > i {
      assert Waits(states, events, i, k);
      StaysInOrder(states, events, i, k);
      StaysOwed(states, events, i, k);
      KeptAt(states, events, k);
      StepFrames(states[k], events[k]);
      if events[k].Registered? {
        assert events[k].generation in states[k].late;
      }
    }
  }

  /** The stop registered at `i` is that of a restart whose timestamp was already observed. */
  ghost predicate ForRepeatedRestart(states: seq<Agent>, events: seq<AgentLifecycle.Event>, i: nat)
    requires i < |events| && |states| == |events| + 1 && events[i].Registered?
  {
    exists r :: LatestRestart(states, events, r, i) && Repeated(states, events, r)
      && states[r + 1].row.value.desired.generation == events[i].generation
  }

  lemma {:induction false} NoRestartWhileWaiting(states: seq<Agent>, events: seq<AgentLifecycle.Event>, i: nat, j: nat)
    requires Waits(states, events, i, j)
    ensures states[j].history.restartedAt == states[i].history.restartedAt
    ensures states[j].history.collided == states[i].history.collided
    decreases j
  {
    var k := j - 1;
    FramesAt(states, events, k);
    if k > i {
      assert Waits(states, events, i, k);
      NoRestartWhileWaiting(states, events, i, k);
      assert !Meets(states[k], states[k + 1]);
      if events[k].Restarted? {
        StepAt(states, events, k);
        RestartStores(states[k], events[k]);
      }
    }
  }

  /**
    An immediate stop registered for the stored desired state stays requested, through set-ups that
    go on or are abandoned, kills that fail, and starts that supersede, until a kill is attempted, a
    newer desired state is stored, the agent ends or the daemon does; provided no older stop registers
    meanwhile, and it is not that of a restart whose timestamp was already observed.
  */
  lemma RegisteredStopStaysRequested(states: seq<Agent>, events: seq<AgentLifecycle.Event>, i: nat, j: nat)
    requires Waits(states, events, i, j) && OnlyNewer(events, i, j)
    requires !ForRepeatedRestart(states, events, i)
    ensures states[j].requested.Some?
  {
    StaysOwed(states, events, i, j);
    StaysInOrder(states, events, i, j);
    NoRestartWhileWaiting(states, events, i, j);
    KeptAt(states, events, j);
    if states[i].history.collided && states[i].history.restartedAt == events[i].generation {
      RunIsFramed(states, events);
      var r := SomeLatestRestart(states, events, i);
      RestartRemembered(states, events, r, i);
      assert ForRepeatedRestart(states, events, i);
    }
  }

  /** A pass goes on to start the agent and finds the request older than what it read. */
  predicate ForgetsRequest(a: Agent, e: AgentLifecycle.Event) {
    && a.pass.At? && a.requested.Some? && a.requested.value < a.pass.record.desired.generation
    && (e.Proceed? || (e.Dispatch? && !a.pass.record.deleting && !StopPath(a.pass.record)))
  }

  ghost predicate IsForgotten(states: seq<Agent>, i: nat, j: nat)
    requires j < |states|
  {
    exists k :: i < k <= j && states[k].requested.None?
  }

  ghost predicate IsOvertaken(states: seq<Agent>, events: seq<AgentLifecycle.Event>, i: nat, j: nat)
    requires j <= |events| < |states|
  {
    exists k :: i < k < j && ForgetsRequest(states[k], events[k])
  }

  lemma ForgottenOn(states: seq<Agent>, events: seq<AgentLifecycle.Event>, i: nat, k: nat)
    requires i < k < |events| < |states|
    requires IsForgotten(states, i, k) <==> IsOvertaken(states, events, i, k)
    requires states[k].requested.Some? ==> (states[k + 1].requested.None? <==> ForgetsRequest(states[k], events[k]))
    ensures IsForgotten(states, i, k + 1) <==> IsOvertaken(states, events, i, k + 1)
  {
  }

  /**
    Exactly when a waiting stop is without its request at some point: when meanwhile a pass that goes
    on to start the agent found a request older than what it had read.
  */
  lemma {:induction false} ForgottenExactlyWhen(states: seq<Agent>, events: seq<AgentLifecycle.Event>, i: nat, j: nat)
    requires Waits(states, events, i, j)
    ensures IsForgotten(states, i, j) <==> IsOvertaken(states, events, i, j)
    decreases j
  {
    var k := j - 1;
    if k > i {
      assert Waits(states, events, i, k);
      ForgottenExactlyWhen(states, events, i, k);
      if states[k].requested.Some? {
        ForgottenAt(states, events, i, k);
      }
      ForgottenOn(states, events, i, k);
    } else {
      RequestedAtFirst(states, events, i);
    }
  }

  lemma RequestedAtFirst(states: seq<Agent>, events: seq<AgentLifecycle.Event>, i: nat)
    requires Runs.Run(Step, states, events) && i < |events| && events[i].Registered?
    ensures states[i + 1].requested == Some(events[i].generation)
  {
    StepAt(states, events, i);
  }

  lemma ForgottenAt(states: seq<Agent>, events: seq<AgentLifecycle.Event>, i: nat, k: nat)
    requires Waits(states, events, i, k + 1) && i < k && states[k].requested.Some?
    ensures states[k + 1].requested.None? <==> ForgetsRequest(states[k], events[k])
  {
    assert Waits(states, events, i, k);
    StaysOwed(states, events, i, k);
    StaysOwed(states, events, i, k + 1);
    StepAt(states, events, k);
    KeptAt(states, events, k);
    LostOnlyWhenReplaced(states[k], events[k]);
  }

  /** And that takes a registration for an older stop meanwhile, unless the stop is a repeated restart's. */
  lemma ForgettingNeedsALateRequest(states: seq<Agent>, events: seq<AgentLifecycle.Event>, i: nat, k: nat)
    requires Waits(states, events, i, k + 1) && i < k && ForgetsRequest(states[k], events[k])
    requires !ForRepeatedRestart(states, events, i)
    ensures exists m :: i < m < k && events[m].Registered? && events[m].generation < events[i].generation
  {
    ForgottenAt(states, events, i, k);
    if OnlyNewer(events, i, k + 1) {
      RegisteredStopStaysRequested(states, events, i, k + 1);
    }
  }

  // ----- the requests of a run -----

  /** What a step does to the agent's entry among the requests. */
  function UseOf(a: Agent, e: AgentLifecycle.Event): Use {
    if !AgentLifecycle.Enabled(a, e) then Unrelated
    else
      match e
      case Registered(generation) => Request(generation)
      case StopReturns(ok, _, _) =>
        if !ok && a.pass.place.killed.Some? then Request(a.pass.place.killed.value) else Unrelated
      case KillReturns(ok) => if ok then Unrelated else Request(a.pass.place.generation)
      case TakeStop => Take
      case CutShort => Take
      case Dispatch =>
        if a.pass.record.deleting then Take
        else if StopPath(a.pass.record) then Unrelated
        else Supersede(a.pass.record.desired.generation)
      case Proceed => Supersede(a.pass.record.desired.generation)
      case Crash => Take
      case _ => Unrelated
  }

  lemma CallUses(a: Agent, e: AgentLifecycle.Event)
    requires AgentLifecycle.Enabled(a, e) && FromOutside(e)
    ensures AgentLifecycle.Next(a, e).requested == AfterUse(a.requested, UseOf(a, e))
  {
  }

  lemma PassUses(a: Agent, e: AgentLifecycle.Event)
    requires AgentLifecycle.Enabled(a, e) && !FromOutside(e) && !IsRest(e)
    ensures AgentLifecycle.Next(a, e).requested == AfterUse(a.requested, UseOf(a, e))
  {
  }

  lemma StepUses(a: Agent, e: AgentLifecycle.Event)
    requires AgentGuarantees.Kept(a) && AgentLifecycle.Enabled(a, e)
    ensures AgentLifecycle.Next(a, e).requested == AfterUse(a.requested, UseOf(a, e))
  {
    if FromOutside(e) { CallUses(a, e); }
    else if IsRest(e) { RestUses(a, e); }
    else { PassUses(a, e); }
  }

  lemma RestUses(a: Agent, e: AgentLifecycle.Event)
    requires AgentGuarantees.Kept(a) && AgentLifecycle.Enabled(a, e) && IsRest(e)
    ensures AgentLifecycle.Next(a, e).requested == a.requested && UseOf(a, e) == Unrelated
  {
    RestLeavesRequests(a, e);
  }

  function UsesOf(states: seq<Agent>, events: seq<AgentLifecycle.Event>): seq<Use>
    requires |states| == |events| + 1
  {
    seq(|events|, k requires 0 <= k < |events| => UseOf(states[k], events[k]))
  }

  lemma StepUsesAt(states: seq<Agent>, events: seq<AgentLifecycle.Event>, i: nat)
    requires FromNew(states, events) && i < |events|
    ensures states[i + 1].requested == AfterUse(states[i].requested, UseOf(states[i], events[i]))
  {
    StepAt(states, events, i);
    KeptAt(states, events, i);
    StepUses(states[i], events[i]);
  }

  lemma {:induction false} RequestsAreUsed(states: seq<Agent>, events: seq<AgentLifecycle.Event>, i: nat)
    requires FromNew(states, events) && i <= |events|
    ensures states[i].requested == AfterUses(UsesOf(states, events), i)
    decreases i
  {
    if i > 0 {
      RequestsAreUsed(states, events, i - 1);
      StepUsesAt(states, events, i - 1);
      assert UsesOf(states, events)[i - 1] == UseOf(states[i - 1], events[i - 1]);
    }
  }

  /**
    Exactly when an agent has a request, anywhere in a run, and for which generation: the last one
    put in, by a registration or a kill that failed, was not taken by a pass, lost with the daemon or
    found older than a start.
  */
  lemma RequestsOfARun(states: seq<Agent>, events: seq<AgentLifecycle.Event>, i: nat, generation: nat)
    requires FromNew(states, events) && i <= |events|
    ensures states[i].requested == Some(generation) <==>
      exists n: nat :: Stands(UsesOf(states, events), i, n, generation)
  {
    RequestsAreUsed(states, events, i);
    RequestedExactlyWhen(UsesOf(states, events), i, generation);
  }

  // ----- restarts -----

  /** The event ends a stop of the sandbox that succeeded, in a pass that read this restart, stored at `generation`. */
  predicate StopsFor(a: Agent, e: AgentLifecycle.Event, restart: nat, generation: nat) {
    && a.pass.At? && e.StopReturns? && e.ok
    && a.pass.record.desired.restart == Some(restart) && a.pass.record.desired.generation >= generation
  }

  lemma {:induction false} ServedByAStop(states: seq<Agent>, events: seq<AgentLifecycle.Event>, r: nat, i: nat)
    requires FromNew(states, events) && LatestRestart(states, events, r, i)
    requires states[i].row.Some? && states[i].history.served
    ensures exists k ::
      && r < k < i
      && StopsFor(states[k], events[k], events[r].timestamp, states[r + 1].row.value.desired.generation)
    decreases i
  {
    var k := i - 1;
    StepAt(states, events, k);
    KeptAt(states, events, k);
    if k == r {
      RestartStores(states[r], events[r]);
    } else {
      StepFrames(states[k], events[k]);
      RestartRemembered(states, events, r, k);
      if states[k].history.served {
        ServedByAStop(states, events, r, k);
      } else {
        OnlyItsOwnStopServes(states[k], events[k]);
        assert StopsFor(states[k], events[k], events[r].timestamp, states[r + 1].row.value.desired.generation);
      }
    }
  }

  /**
    A restart is never skipped. Wherever a run stands, if the latest restart counts as observed, or
    the agent is recorded Ready for its current generation, then since that restart was stored a pass
    that read it stopped the sandbox, across conflicts, failures and crashes. The restart's timestamp
    must not be one its agent's status had already observed.
  */
  lemma ObservedRestartWasCarriedOut(states: seq<Agent>, events: seq<AgentLifecycle.Event>, r: nat, i: nat)
    requires FromNew(states, events) && LatestRestart(states, events, r, i) && !Repeated(states, events, r)
    requires states[i].row.Some?
    requires !RestartPending(states[i].row.value) ||
      (states[i].row.value.status.IsReady() && Current(states[i].row.value))
    ensures exists k ::
      && r < k < i
      && StopsFor(states[k], events[k], events[r].timestamp, states[r + 1].row.value.desired.generation)
  {
    KeptAt(states, events, i);
    RestartRemembered(states, events, r, i);
    ServedByAStop(states, events, r, i);
  }

  // ----- convergence -----

  /** The event ends a stop of the sandbox that succeeded, in a pass that read this generation. */
  predicate StopsAt(a: Agent, e: AgentLifecycle.Event, generation: nat) {
    a.pass.At? && e.StopReturns? && e.ok && a.pass.record.desired.generation == generation
  }

  /** The event records Ready for this generation, in a pass that read it and had nothing to stop. */
  predicate RecordsReadyAt(a: Agent, e: AgentLifecycle.Event, b: Agent, generation: nat) {
    && a.pass.At? && e.RecordSetUp? && a.pass.record.desired.generation == generation && !StopPath(a.pass.record)
    && b.row.Some? && b.row.value.status.IsReady() && b.row.value.status.observedGeneration == generation
  }

  lemma {:induction false} StoppedForByAStop(
    states: seq<Agent>, events: seq<AgentLifecycle.Event>, i: nat, generation: nat
  )
    requires FromNew(states, events) && i < |states| && generation in states[i].history.stoppedFor
    ensures exists k :: 0 <= k < i && StopsAt(states[k], events[k], generation)
    decreases i
  {
    if i > 0 {
      StepAt(states, events, i - 1);
      KeptAt(states, events, i - 1);
      if generation in states[i - 1].history.stoppedFor {
        StoppedForByAStop(states, events, i - 1, generation);
      } else {
        OnlyStopsStop(states[i - 1], events[i - 1], generation);
        assert StopsAt(states[i - 1], events[i - 1], generation);
      }
    }
  }

  lemma {:induction false} ReadyForByAPass(
    states: seq<Agent>, events: seq<AgentLifecycle.Event>, i: nat, generation: nat
  )
    requires FromNew(states, events) && i < |states| && generation in states[i].history.readyFor
    ensures exists k :: 0 <= k < i && RecordsReadyAt(states[k], events[k], states[k + 1], generation)
    decreases i
  {
    if i > 0 {
      StepAt(states, events, i - 1);
      KeptAt(states, events, i - 1);
      if generation in states[i - 1].history.readyFor {
        ReadyForByAPass(states, events, i - 1, generation);
      } else {
        OnlyPassesMakeReady(states[i - 1], events[i - 1], generation);
        assert RecordsReadyAt(states[i - 1], events[i - 1], states[i], generation);
      }
    }
  }

  /** What the agent's current generation asks for was achieved before step `i`. */
  ghost predicate Achieved(states: seq<Agent>, events: seq<AgentLifecycle.Event>, i: nat)
    requires Runs.Run(Step, states, events) && i < |states| && states[i].row.Some?
  {
    var generation := states[i].row.value.desired.generation;
    if IsStopped(states[i].row.value) then exists k :: 0 <= k < i && StopsAt(states[k], events[k], generation)
    else
      && !RestartPending(states[i].row.value)
      && exists k :: 0 <= k < i && RecordsReadyAt(states[k], events[k], states[k + 1], generation)
  }

  /**
    A stored state that says the agent has what its current generation asks for rests on a pass that
    itself read that generation: it stopped the sandbox, or it recorded Ready with no restart left.
  */
  lemma ConvergedWasAchieved(states: seq<Agent>, events: seq<AgentLifecycle.Event>, i: nat)
    requires FromNew(states, events) && i < |states| && states[i].row.Some? && Current(states[i].row.value)
    requires if IsStopped(states[i].row.value) then states[i].row.value.status.IsStopped()
      else states[i].row.value.status.IsReady()
    ensures Achieved(states, events, i)
  {
    KeptAt(states, events, i);
    var generation := states[i].row.value.desired.generation;
    if IsStopped(states[i].row.value) {
      StoppedForByAStop(states, events, i, generation);
    } else {
      ReadyForByAPass(states, events, i, generation);
    }
  }
}
