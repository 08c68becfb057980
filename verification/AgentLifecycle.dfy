/**
  One agent's reconciliation passes against the API calls that change it
  (agentctl/src/control_plane/reconciler.rs, service.rs).

  A pass runs as a sequence of steps with an await between them: each database command is one step,
  each use of the immediate-stop requests is one step, and each sandbox call ends in a step that
  may succeed or fail. API calls, their registrations of immediate stops, a deletion and a crash of
  the daemon come between any two steps. At most one pass of an agent is under way, which is the
  scheduler's rule (`Scheduler.OnePassPerKey`).
*/
module AgentLifecycle {
  import opened Wrappers
  import opened AgentStore
  import opened DesiredWrites
  import opened ImmediateStops

  /** Where a pass that has read its record is. */
  datatype Place =
    | Dispatching
    | MarkingStop
    | TakingStop
    | StoppingSandbox(killed: Option<nat>)
    | RecordingStopFailure(failure: FailureKind, detail: string)
    | RecordingStop
    | ListingSessions(stored: Status)
    | Settling(stored: Status)
    | MarkingRestart
    | Proceeding
    | Resolving
    | RecordingUnresolved(failure: FailureKind, detail: string)
    | SelectingProvider
    | MarkingStart
    | SettingUp
    | RecordingSetUp(status: Status)
    | KillingReleased(generation: nat)
    | Releasing
    | Finalizing

  datatype Pass = NoPass | Reading | At(record: Row, place: Place)

  /** What happened so far, as far as the properties speak of it. */
  datatype History = History(
    boot: nat,                // sandbox stops that succeeded
    up: bool,                 // whether the sandbox runs
    owed: Option<nat>,        // the registered immediate stop no kill and no newer desired state has met
    disordered: bool,         // since the stored generation was last registered, an older one took its place
    restartedAt: nat,         // the generation of the latest restart
    served: bool,             // a pass that read that restart has stopped the sandbox
    collided: bool,           // that restart carries the timestamp already observed
    stoppedFor: set<nat>,     // generations for which a pass that read them stopped the sandbox
    readyFor: set<nat>,       // generations for which a pass that read them recorded Ready
    settled: bool,            // every session has seen the latest stop, and Ready was not stored since
    botched: bool)            // the latest stop was refused its record, or its sessions were not listed

  datatype Agent = Agent(
    row: Option<Row>,
    pass: Pass,
    requested: Option<nat>,   // this agent's entry in ImmediateStops
    late: multiset<nat>,      // calls that stored or read their stop and have yet to register it
    history: History)

  // ----- statuses a pass records -----

  function NotReady(record: Row, reason: Reason, detail: string): Status {
    Status(record.desired.generation, None, record.status.sandbox, False(reason), false, None, detail)
  }

  predicate Current(record: Row) {
    record.status.observedGeneration == record.desired.generation
  }

  predicate IsStopped(record: Row) {
    record.desired.runState == Stopped
  }

  /** The pass stops the sandbox: the agent is to be stopped or restarted. */
  predicate StopPath(record: Row) {
    IsStopped(record) || RestartPending(record)
  }

  predicate AlreadyStopped(record: Row) {
    Current(record) && record.status.IsStopped()
  }

  function StoppedStatus(record: Row): Status {
    var hint := if IsStopped(record) then "start it with `agentctl start`" else "";
    NotReady(record, StoppedNow, hint).(observedRestart := if IsStopped(record) then record.desired.restart else None)
  }

  /** Only a stop observes a restart; every other status keeps the one already observed. */
  function Kept(record: Row, status: Status, failure: Option<FailureKind>): Status {
    status.(failure := failure,
            observedRestart :=
              if status.observedRestart.Some? then status.observedRestart else record.status.observedRestart)
  }

  /**
    A status equal to the pass's own copy is not written again, nor checked for its generation.
    `db` says whether the database can be written.
  */
  function Update(
    a: Agent, record: Row, status: Status, failure: Option<FailureKind>, db: bool
  ): Result<Option<Row>, Error> {
    var kept := Kept(record, status, failure);
    if kept == record.status then Ok(a.row)
    else if !db then Err(Unavailable)
    else
      match PutStatus(a.row, record.desired.generation, kept)
      case Ok(row) => Ok(Some(row))
      case Err(error) => Err(error)
  }

  /** The status a pass holds after an update that succeeded. */
  function Held(record: Row, status: Status, failure: Option<FailureKind>): Row {
    record.(status := Kept(record, status, failure))
  }

  // ----- events -----

  datatype Event =
    // API calls
    | RunStateSet(state: RunState, now: bool)
    | Restarted(timestamp: nat, now: bool)
    | Applied(spec: string, runState: Option<RunState>)
    | Deleted
    | Registered(generation: nat)
    // the pass
    | Begin
    | Read
    | Dispatch
    | MarkStop(db: bool)
    | TakeStop
    | StopReturns(ok: bool, failure: FailureKind, detail: string)
    | CutShort
    | RecordStopFailure(db: bool)
    | RecordStop(db: bool)
    | ListSessions(ok: bool)
    | SettleReturns
    | MarkRestart(db: bool)
    | Proceed
    | Resolve(ok: bool, failure: FailureKind, detail: string)
    | RecordUnresolved(db: bool)
    | SelectProvider(db: bool)
    | MarkStart(db: bool)
    | Boot
    | SetUpSucceeds(harnesses: set<string>, detail: string)
    | SetUpFails(sandbox: Assignment, unresponsive: bool, failure: FailureKind, detail: string)
    | Abandon
    | RecordSetUp(db: bool)
    | KillReturns(ok: bool)
    | ReleaseReturns(ok: bool)
    | Finalize(db: bool)
    // the daemon
    | Crash

  predicate Is(a: Agent, place: Place) {
    a.pass.At? && a.pass.place == place
  }

  predicate Writable(a: Agent) {
    a.row.Some? && !a.row.value.deleting
  }

  predicate Enabled(a: Agent, e: Event) {
    match e
    case RunStateSet(state, now) => Writable(a) && (now ==> state == Stopped)
    case Restarted(_, _) => Writable(a)
    case Applied(_, _) => Writable(a)
    case Deleted => a.row.Some?
    case Registered(generation) => generation in a.late
    case Begin => a.pass.NoPass?
    case Read => a.pass.Reading?
    case Dispatch => Is(a, Dispatching)
    case MarkStop(_) => Is(a, MarkingStop)
    case TakeStop => Is(a, TakingStop)
    case StopReturns(_, _, _) => a.pass.At? && a.pass.place.StoppingSandbox?
    case CutShort => Is(a, StoppingSandbox(None)) && a.requested.Some?
    case RecordStopFailure(_) => a.pass.At? && a.pass.place.RecordingStopFailure?
    case RecordStop(_) => Is(a, RecordingStop)
    case ListSessions(_) => a.pass.At? && a.pass.place.ListingSessions?
    case SettleReturns => a.pass.At? && a.pass.place.Settling?
    case MarkRestart(_) => Is(a, MarkingRestart)
    case Proceed => Is(a, Proceeding)
    case Resolve(_, _, _) => Is(a, Resolving)
    case RecordUnresolved(_) => a.pass.At? && a.pass.place.RecordingUnresolved?
    case SelectProvider(_) => Is(a, SelectingProvider)
    case MarkStart(_) => Is(a, MarkingStart)
    case Boot => Is(a, SettingUp)
    case SetUpSucceeds(_, _) => Is(a, SettingUp) && a.history.up
    case SetUpFails(sandbox, _, _, _) =>
      Is(a, SettingUp) && (sandbox == a.pass.record.status.sandbox || sandbox.Materialized?)
    case Abandon => a.pass.At? && (a.pass.place.SettingUp? || a.pass.place.RecordingSetUp?) && a.requested.Some?
    case RecordSetUp(_) => a.pass.At? && a.pass.place.RecordingSetUp?
    case KillReturns(_) => a.pass.At? && a.pass.place.KillingReleased?
    case ReleaseReturns(_) => Is(a, Releasing)
    case Finalize(_) => Is(a, Finalizing)
    case Crash => true
  }

  // ----- API calls -----

  /** A newer desired state is stored: whatever immediate stop was owed no longer is. */
  function Store(a: Agent, change: Change): Agent
    requires a.row.Some?
  {
    var row := a.row.value;
    a.(row := Some(row.(desired := Bumped(change, row.desired))), history := a.history.(owed := None))
  }

  function Late(a: Agent, now: bool): Agent
    requires a.row.Some?
  {
    if now then a.(late := a.late + multiset{a.row.value.desired.generation}) else a
  }

  function AfterRunStateSet(a: Agent, state: RunState, now: bool): Agent
    requires a.row.Some?
  {
    var changed := Changes(SetRunState(state), a.row.value.desired);
    Late(if changed then Store(a, SetRunState(state)) else a, now)
  }

  function AfterRestarted(a: Agent, timestamp: nat, now: bool): Agent
    requires a.row.Some?
  {
    var b := Store(a, Restart(timestamp));
    Late(b.(history := b.history.(
           restartedAt := b.row.value.desired.generation,
           served := false,
           collided := Some(timestamp) == a.row.value.status.observedRestart)), now)
  }

  function AfterApplied(a: Agent, change: Change): Agent
    requires a.row.Some?
  {
    if Changes(change, a.row.value.desired) then Store(a, change) else a
  }

  /** The request goes in whatever it replaces; it is owed unless a newer desired state came first. */
  function AfterRegistered(a: Agent, generation: nat): Agent {
    var h := a.history;
    var current := a.row.Some? && a.row.value.desired.generation == generation;
    a.(late := a.late - multiset{generation},
       requested := Some(generation),
       history := h.(
         owed := if current then Some(generation) else h.owed,
         disordered := !current && (h.disordered || (a.requested.Some? && a.requested.value > generation))))
  }

  // ----- the pass -----

  function End(a: Agent): Agent {
    a.(pass := NoPass)
  }

  function Go(a: Agent, record: Row, place: Place): Agent {
    a.(pass := At(record, place))
  }

  /** A kill is attempted for the request just taken. */
  function Killing(a: Agent): Agent {
    a.(requested := None, history := a.history.(owed := None))
  }

  function AfterRead(a: Agent): Agent {
    match a.row
    case None => End(a)
    case Some(row) => Go(a, row, Dispatching)
  }

  /** Past any stop: forget superseded requests and pick what the record needs first. */
  function AfterProceed(a: Agent, record: Row): Agent {
    var b := a.(requested := Superseded(a.requested, record.desired.generation));
    if record.status.sandbox.Unassigned? then Go(b, record, Resolving)
    else if record.status.RecordedByStop() then Go(b, record, MarkingStart)
    else Go(b, record, SettingUp)
  }

  function AfterDispatch(a: Agent, record: Row): Agent {
    if record.deleting then
      if a.requested.Some? then Go(Killing(a), record, KillingReleased(a.requested.value))
      else Go(a, record, Releasing)
    else if StopPath(record) then
      if Current(record) && record.status.RecordedByStop() then Go(a, record, TakingStop)
      else Go(a, record, MarkingStop)
    else AfterProceed(a, record)
  }

  function AfterMarkStop(a: Agent, record: Row, db: bool): Agent {
    match Update(a, record, NotReady(record, StoppingNow, ""), None, db)
    case Ok(row) => Go(a.(row := row), record, TakingStop)
    case Err(_) => End(a)
  }

  function AfterTakeStop(a: Agent, record: Row): Agent {
    if a.requested.Some? then Go(Killing(a), record, StoppingSandbox(Some(a.requested.value)))
    else Go(a, record, StoppingSandbox(None))
  }

  function AfterStopReturns(
    a: Agent, record: Row, killed: Option<nat>, ok: bool, failure: FailureKind, detail: string
  ): Agent {
    var h := a.history;
    if ok then
      Go(a.(history := h.(
           boot := h.boot + 1, up := false,
           served := h.served || record.desired.generation >= h.restartedAt,
           stoppedFor := h.stoppedFor + {record.desired.generation})), record, RecordingStop)
    else
      var b := if killed.Some? then a.(requested := killed) else a;
      Go(b, record, RecordingStopFailure(failure, detail))
  }

  function AfterRecordStopFailure(a: Agent, record: Row, failure: FailureKind, detail: string, db: bool): Agent {
    match Update(a, record, NotReady(record, StoppingNow, detail), Some(failure), db)
    case Ok(row) => End(a.(row := row))
    case Err(_) => End(a)
  }

  /** A stopped agent's pass is over; a restart goes on to start it. */
  function AfterStopped(a: Agent, record: Row, stored: Status): Agent {
    if IsStopped(record) then End(a) else Go(a, record.(status := stored), MarkingRestart)
  }

  function Botched(a: Agent): Agent {
    a.(history := a.history.(botched := true))
  }

  function AfterRecordStop(a: Agent, record: Row, db: bool): Agent {
    match Update(a, record, StoppedStatus(record), None, db)
    case Ok(row) =>
      var stored := Kept(record, StoppedStatus(record), None);
      var b := a.(row := row);
      if !IsStopped(record) || !AlreadyStopped(record) then Go(b, record, ListingSessions(stored))
      else AfterStopped(b, record, stored)
    case Err(_) => End(Botched(a))
  }

  function AfterListSessions(a: Agent, record: Row, stored: Status, ok: bool): Agent {
    if ok then Go(a, record, Settling(stored)) else AfterStopped(Botched(a), record, stored)
  }

  function AfterSettleReturns(a: Agent, record: Row, stored: Status): Agent {
    AfterStopped(a.(history := a.history.(settled := true, botched := false)), record, stored)
  }

  function StartingStatus(record: Row): Status {
    NotReady(record, StartingNow, "")
  }

  function AfterMarkRestart(a: Agent, record: Row, db: bool): Agent {
    var status := StartingStatus(record).(observedRestart := record.desired.restart);
    match Update(a, record, status, None, db)
    case Ok(row) => Go(a.(row := row), Held(record, status, None), Proceeding)
    case Err(_) => End(a)
  }

  function AfterResolve(a: Agent, record: Row, ok: bool, failure: FailureKind, detail: string): Agent {
    Go(a, record, if ok then SelectingProvider else RecordingUnresolved(failure, detail))
  }

  function AfterRecordUnresolved(a: Agent, record: Row, failure: FailureKind, detail: string, db: bool): Agent {
    match Update(a, record, NotReady(record, Failing, detail), Some(failure), db)
    case Ok(row) => End(a.(row := row))
    case Err(_) => End(a)
  }

  function AfterSelectProvider(a: Agent, record: Row, db: bool): Agent {
    var status := NotReady(record, ProviderSelected, "").(sandbox := Selected);
    match Update(a, record, status, None, db)
    case Ok(row) => Go(a.(row := row), Held(record, status, None), SettingUp)
    case Err(_) => End(a)
  }

  function AfterMarkStart(a: Agent, record: Row, db: bool): Agent {
    match Update(a, record, StartingStatus(record), None, db)
    case Ok(row) => Go(a.(row := row), Held(record, StartingStatus(record), None), SettingUp)
    case Err(_) => End(a)
  }

  function ReadyStatus(record: Row, harnesses: set<string>, detail: string): Status {
    Status(record.desired.generation, None, Materialized(harnesses), True, false, None, detail)
  }

  function FailedStatus(
    record: Row, sandbox: Assignment, unresponsive: bool, failure: FailureKind, detail: string
  ): Status {
    Status(record.desired.generation, None, sandbox, False(Failing), unresponsive, Some(failure), detail)
  }

  function AfterRecordSetUp(a: Agent, record: Row, status: Status, db: bool): Agent {
    match Update(a, record, status, status.failure, db)
    case Ok(row) =>
      var h := a.history;
      End(a.(row := row,
             history := if status.IsReady()
               then h.(readyFor := h.readyFor + {record.desired.generation}, settled := false) else h))
    case Err(_) => End(a)
  }

  function AfterKillReturns(a: Agent, record: Row, generation: nat, ok: bool): Agent {
    if ok then Go(a.(history := a.history.(boot := a.history.boot + 1, up := false)), record, Releasing)
    else End(a.(requested := Some(generation)))
  }

  function AfterFinalize(a: Agent, record: Row, db: bool): Agent {
    if db && CheckFinal(a.row, record.desired.generation).Ok?
    then End(a.(row := None, history := a.history.(owed := None))) else End(a)
  }

  /** The daemon restarts on the same store; what it held in memory is gone. */
  function AfterCrash(a: Agent): Agent {
    a.(pass := NoPass, requested := None, late := multiset{},
      history := a.history.(owed := None, disordered := false, botched := false))
  }

  function Next(a: Agent, e: Event): Agent
    requires Enabled(a, e)
  {
    match e
    case RunStateSet(state, now) => AfterRunStateSet(a, state, now)
    case Restarted(timestamp, now) => AfterRestarted(a, timestamp, now)
    case Applied(spec, runState) => AfterApplied(a, Apply(spec, runState))
    case Deleted => a.(row := Some(a.row.value.(deleting := true)))
    case Registered(generation) => AfterRegistered(a, generation)
    case Begin => a.(pass := Reading)
    case Read => AfterRead(a)
    case Dispatch => AfterDispatch(a, a.pass.record)
    case MarkStop(db) => AfterMarkStop(a, a.pass.record, db)
    case TakeStop => AfterTakeStop(a, a.pass.record)
    case StopReturns(ok, failure, detail) =>
      AfterStopReturns(a, a.pass.record, a.pass.place.killed, ok, failure, detail)
    case CutShort => Go(Killing(a), a.pass.record, StoppingSandbox(a.requested))
    case RecordStopFailure(db) =>
      AfterRecordStopFailure(a, a.pass.record, a.pass.place.failure, a.pass.place.detail, db)
    case RecordStop(db) => AfterRecordStop(a, a.pass.record, db)
    case ListSessions(ok) => AfterListSessions(a, a.pass.record, a.pass.place.stored, ok)
    case SettleReturns => AfterSettleReturns(a, a.pass.record, a.pass.place.stored)
    case MarkRestart(db) => AfterMarkRestart(a, a.pass.record, db)
    case Proceed => AfterProceed(a, a.pass.record)
    case Resolve(ok, failure, detail) => AfterResolve(a, a.pass.record, ok, failure, detail)
    case RecordUnresolved(db) => AfterRecordUnresolved(a, a.pass.record, a.pass.place.failure, a.pass.place.detail, db)
    case SelectProvider(db) => AfterSelectProvider(a, a.pass.record, db)
    case MarkStart(db) => AfterMarkStart(a, a.pass.record, db)
    case Boot => a.(history := a.history.(up := true))
    case SetUpSucceeds(harnesses, detail) =>
      Go(a, a.pass.record, RecordingSetUp(ReadyStatus(a.pass.record, harnesses, detail)))
    case SetUpFails(sandbox, unresponsive, failure, detail) =>
      Go(a, a.pass.record, RecordingSetUp(FailedStatus(a.pass.record, sandbox, unresponsive, failure, detail)))
    case Abandon => End(a)
    case RecordSetUp(db) => AfterRecordSetUp(a, a.pass.record, a.pass.place.status, db)
    case KillReturns(ok) => AfterKillReturns(a, a.pass.record, a.pass.place.generation, ok)
    case ReleaseReturns(ok) =>
      if ok then Go(a.(history := a.history.(up := false)), a.pass.record, Finalizing) else End(a)
    case Finalize(db) => AfterFinalize(a, a.pass.record, db)
    case Crash => AfterCrash(a)
  }

  // ----- invariant -----

  predicate RowWell(row: Row, h: History) {
    && row.status.observedGeneration <= row.desired.generation
    && h.restartedAt <= row.desired.generation
    && (h.restartedAt == row.desired.generation ==> row.desired.restart.Some? && !IsStopped(row))
    && (row.status.IsReady() ==> row.status.observedGeneration in h.readyFor)
    && (row.status.IsStopped() ==> row.status.observedGeneration in h.stoppedFor)
    && (row.status.IsReady() && Current(row) ==> !StopPath(row))
    && (row.desired.restart.Some? && !h.served && !h.collided ==> RestartPending(row))
    && (h.settled ==> !row.status.IsReady())
  }

  /** The pass has said it is stopping, in the row it read or in one it wrote since. */
  predicate MarkedStopping(row: Row, record: Row) {
    && StopPath(record)
    && row.status.RecordedByStop()
    && row.status.observedRestart == record.status.observedRestart
    && (Current(record) && record.status.RecordedByStop() ==> row.status == record.status)
  }

  /** The pass has stopped the sandbox for the record it read. */
  predicate HasStopped(record: Row, h: History) {
    && record.desired.generation in h.stoppedFor
    && (record.desired.generation >= h.restartedAt ==> h.served)
  }

  predicate PlaceWell(row: Row, record: Row, place: Place, h: History) {
    match place
    case Dispatching => row.status == record.status
    case MarkingStop =>
      StopPath(record) && row.status == record.status && !(Current(record) && record.status.RecordedByStop())
    case TakingStop => MarkedStopping(row, record)
    case StoppingSandbox(_) => MarkedStopping(row, record)
    case RecordingStopFailure(_, _) => MarkedStopping(row, record)
    case RecordingStop => MarkedStopping(row, record) && HasStopped(record, h)
    case ListingSessions(stored) => AtSettle(row, record, stored) && HasStopped(record, h)
    case Settling(stored) => AtSettle(row, record, stored) && HasStopped(record, h)
    case MarkingRestart =>
      !IsStopped(record) && StopPath(record) && row.status == record.status && row.status.IsStopped() &&
        HasStopped(record, h)
    case KillingReleased(_) => record.deleting
    case Releasing => record.deleting
    case Finalizing => record.deleting
    case RecordingSetUp(status) =>
      && !StopPath(record) && row.status == record.status
      && status.observedGeneration == record.desired.generation && status.observedRestart.None?
      && (status.ready.True? || status.ready == False(Failing))
    case _ => !StopPath(record) && row.status == record.status
  }

  predicate AtSettle(row: Row, record: Row, stored: Status) {
    && StopPath(record)
    && row.status == stored == Kept(record, StoppedStatus(record), None)
    && (IsStopped(record) ==> !AlreadyStopped(record))
  }

  predicate PassWell(row: Row, record: Row, place: Place, h: History) {
    && record.desired.generation <= row.desired.generation
    && (record.desired.generation == row.desired.generation ==> record.desired == row.desired)
    && (record.deleting ==> row.deleting)
    && (record.deleting ==> place.Dispatching? || place.KillingReleased? || place.Releasing? || place.Finalizing?)
    && record.status.observedGeneration <= record.desired.generation
    && (record.desired.generation < h.restartedAt ==> !h.served)
    && (record.desired.generation >= h.restartedAt ==> record.desired.restart == row.desired.restart)
    && PlaceWell(row, record, place, h)
  }

  predicate Invariant(a: Agent) {
    && (a.row.Some? ==> RowWell(a.row.value, a.history))
    && (a.pass.At? ==> a.row.Some? && PassWell(a.row.value, a.pass.record, a.pass.place, a.history))
  }

  function Initial(name: string, runState: RunState, spec: string): Agent {
    var status := Status(0, None, Unassigned, Unreported, false, None, "");
    Agent(Some(Row(name, Desired(1, runState, None, spec), false, status)), NoPass, None, multiset{},
          History(0, false, None, false, 0, true, false, {}, {}, false, false))
  }

  /** Every API call, registration or crash. */
  predicate FromOutside(e: Event) {
    e.RunStateSet? || e.Restarted? || e.Applied? || e.Deleted? || e.Registered? || e.Crash?
  }

  lemma ChangesKeep(a: Agent, e: Event)
    requires Invariant(a) && Enabled(a, e) && (e.RunStateSet? || e.Applied?)
    ensures Invariant(Next(a, e))
  {
  }

  lemma RestartedKeeps(a: Agent, timestamp: nat, now: bool)
    requires Invariant(a) && Enabled(a, Restarted(timestamp, now))
    ensures Invariant(Next(a, Restarted(timestamp, now)))
  {
  }

  lemma OutsideKeeps(a: Agent, e: Event)
    requires Invariant(a) && Enabled(a, e) && FromOutside(e)
    ensures Invariant(Next(a, e))
  {
    if e.RunStateSet? || e.Applied? { ChangesKeep(a, e); }
    else if e.Restarted? { RestartedKeeps(a, e.timestamp, e.now); }
  }

  /** `b` has the record of what passes achieved that `a` has. */
  predicate KeepsRecord(a: Agent, b: Agent) {
    && b.history.stoppedFor == a.history.stoppedFor && b.history.readyFor == a.history.readyFor
    && (b.history.served ==> a.history.served)
    && b.history.settled == a.history.settled && (b.history.botched ==> a.history.botched)
  }

  lemma RunStateSetKeepsRecord(a: Agent, state: RunState, now: bool)
    requires a.row.Some?
    ensures KeepsRecord(a, AfterRunStateSet(a, state, now))
  {
  }

  lemma RestartedKeepsRecord(a: Agent, timestamp: nat, now: bool)
    requires a.row.Some?
    ensures KeepsRecord(a, AfterRestarted(a, timestamp, now))
  {
  }

  lemma AppliedKeepsRecord(a: Agent, change: Change)
    requires a.row.Some?
    ensures KeepsRecord(a, AfterApplied(a, change))
  {
  }

  /** Nothing outside of a pass adds to the record. */
  lemma CallsKeepRecord(a: Agent, e: Event)
    requires Enabled(a, e) && FromOutside(e)
    ensures KeepsRecord(a, Next(a, e))
  {
    match e {
      case RunStateSet(state, now) => RunStateSetKeepsRecord(a, state, now);
      case Restarted(timestamp, now) => RestartedKeepsRecord(a, timestamp, now);
      case Applied(spec, runState) => AppliedKeepsRecord(a, Apply(spec, runState));
      case _ =>
    }
  }

  lemma ReadKeeps(a: Agent, e: Event)
    requires Invariant(a) && Enabled(a, e) && (e.Begin? || e.Read? || e.Proceed?)
    ensures Invariant(Next(a, e))
  {
  }

  lemma DispatchKeeps(a: Agent)
    requires Invariant(a) && Enabled(a, Dispatch)
    ensures Invariant(Next(a, Dispatch))
  {
  }

  predicate StopsSandbox(e: Event) {
    e.MarkStop? || e.TakeStop? || e.StopReturns? || e.CutShort? || e.RecordStopFailure?
  }

  lemma MarkStopKeeps(a: Agent, e: Event)
    requires Invariant(a) && Enabled(a, e) && (e.MarkStop? || e.RecordStopFailure?)
    ensures Invariant(Next(a, e))
  {
  }

  lemma TakeStopKeeps(a: Agent, e: Event)
    requires Invariant(a) && Enabled(a, e) && (e.TakeStop? || e.CutShort?)
    ensures Invariant(Next(a, e))
  {
  }

  lemma StopReturnsKeeps(a: Agent, e: Event)
    requires Invariant(a) && Enabled(a, e) && e.StopReturns?
    ensures Invariant(Next(a, e))
  {
  }

  lemma StopKeeps(a: Agent, e: Event)
    requires Invariant(a) && Enabled(a, e) && StopsSandbox(e)
    ensures Invariant(Next(a, e))
  {
    if e.StopReturns? { StopReturnsKeeps(a, e); }
    else if e.TakeStop? || e.CutShort? { TakeStopKeeps(a, e); }
    else { MarkStopKeeps(a, e); }
  }

  lemma RefusedStopKeeps(a: Agent)
    requires Invariant(a)
    ensures Invariant(End(Botched(a)))
  {
  }

  lemma RecordStopKeeps(a: Agent, db: bool)
    requires Invariant(a) && Enabled(a, RecordStop(db))
    ensures Invariant(Next(a, RecordStop(db)))
  {
    if Update(a, a.pass.record, StoppedStatus(a.pass.record), None, db).Err? {
      RefusedStopKeeps(a);
    }
  }

  lemma ListSessionsKeeps(a: Agent, ok: bool)
    requires Invariant(a) && Enabled(a, ListSessions(ok))
    ensures Invariant(Next(a, ListSessions(ok)))
  {
  }

  lemma SettleKeeps(a: Agent)
    requires Invariant(a) && Enabled(a, SettleReturns)
    ensures Invariant(Next(a, SettleReturns))
  {
  }

  lemma MarkRestartKeeps(a: Agent, db: bool)
    requires Invariant(a) && Enabled(a, MarkRestart(db))
    ensures Invariant(Next(a, MarkRestart(db)))
  {
  }

  lemma SelectProviderKeeps(a: Agent, db: bool)
    requires Invariant(a) && Enabled(a, SelectProvider(db))
    ensures Invariant(Next(a, SelectProvider(db)))
  {
  }

  lemma ResolveKeeps(a: Agent, e: Event)
    requires Invariant(a) && Enabled(a, e) && (e.Resolve? || e.RecordUnresolved?)
    ensures Invariant(Next(a, e))
  {
  }

  lemma MarkStartKeeps(a: Agent, db: bool)
    requires Invariant(a) && Enabled(a, MarkStart(db))
    ensures Invariant(Next(a, MarkStart(db)))
  {
  }

  lemma SetUpKeeps(a: Agent, e: Event)
    requires Invariant(a) && Enabled(a, e) && (e.Boot? || e.SetUpSucceeds? || e.SetUpFails? || e.Abandon?)
    ensures Invariant(Next(a, e))
  {
  }

  lemma RecordSetUpKeeps(a: Agent, db: bool)
    requires Invariant(a) && Enabled(a, RecordSetUp(db))
    ensures Invariant(Next(a, RecordSetUp(db)))
  {
  }

  lemma ReleaseKeeps(a: Agent, e: Event)
    requires Invariant(a) && Enabled(a, e) && (e.KillReturns? || e.ReleaseReturns? || e.Finalize?)
    ensures Invariant(Next(a, e))
  {
  }

  lemma NextKeeps(a: Agent, e: Event)
    requires Invariant(a) && Enabled(a, e)
    ensures Invariant(Next(a, e))
  {
    if FromOutside(e) { OutsideKeeps(a, e); }
    else if StopsSandbox(e) { StopKeeps(a, e); }
    else if e.RecordStop? { RecordStopKeeps(a, e.db); }
    else if e.ListSessions? { ListSessionsKeeps(a, e.ok); }
    else if e.SettleReturns? { SettleKeeps(a); }
    else if e.MarkRestart? { MarkRestartKeeps(a, e.db); }
    else if e.Resolve? || e.RecordUnresolved? { ResolveKeeps(a, e); }
    else if e.SelectProvider? { SelectProviderKeeps(a, e.db); }
    else if e.MarkStart? { MarkStartKeeps(a, e.db); }
    else if e.RecordSetUp? { RecordSetUpKeeps(a, e.db); }
    else if e.KillReturns? || e.ReleaseReturns? || e.Finalize? { ReleaseKeeps(a, e); }
    else if e.Dispatch? { DispatchKeeps(a); }
    else if e.Begin? || e.Read? || e.Proceed? { ReadKeeps(a, e); }
    else { SetUpKeeps(a, e); }
  }
}
