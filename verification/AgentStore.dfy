/**
  Agent rows and the transactions over them (agentctl/src/persistence/agents.rs), with the parts of
  desired and observed state that convergence depends on.

  A row has two column groups. Desired state is written by the control plane under a generation
  check; observed status is written by the reconciler under the same check. Neither transaction
  writes the other's columns.
*/
module AgentStore {
  import opened Wrappers

  type Id = nat

  datatype RunState = Running | Stopped

  /** `spec` is the encoded rest of the desired state, with the paths recorded beside it. */
  datatype Desired = Desired(generation: nat, runState: RunState, restart: Option<nat>, spec: string)

  datatype FailureKind = Invalid | Transient

  /** Reasons of `Ready=False` that convergence tells apart. */
  datatype Reason = StoppingNow | StoppedNow | StartingNow | ProviderSelected | Failing

  /** The `Ready` condition. */
  datatype Ready = Unreported | True | False(reason: Reason)

  datatype Assignment = Unassigned | Selected | Materialized(harnesses: set<string>)

  /** Conditions other than `Ready`, and every message, are `detail`; transition times are left out. */
  datatype Status = Status(
    observedGeneration: nat,
    observedRestart: Option<nat>,
    sandbox: Assignment,
    ready: Ready,
    unresponsive: bool,
    failure: Option<FailureKind>,
    detail: string)
  {
    predicate IsReady() { ready.True? }
    predicate IsStopped() { ready == False(StoppedNow) }
    predicate RecordedByStop() { ready == False(StoppedNow) || ready == False(StoppingNow) }
  }

  datatype Row = Row(name: string, desired: Desired, deleting: bool, status: Status)

  datatype Error = NotFound | Conflict | Unavailable

  /** A restart was asked for that no pass has carried out yet. */
  predicate RestartPending(row: Row) {
    row.desired.restart.Some? && row.desired.restart != row.status.observedRestart
  }

  // ----- transactions on one row -----

  /** Desired state goes in only over the generation its writer read. */
  function PutDesired(row: Option<Row>, name: string, desired: Desired, expected: nat): Result<Row, Error> {
    match row
    case None => Err(NotFound)
    case Some(current) =>
      if current.desired.generation != expected || current.name != name || current.deleting then Err(Conflict)
      else Ok(current.(desired := desired))
  }

  /** Observed status goes in only for the generation its pass read. */
  function PutStatus(row: Option<Row>, generation: nat, status: Status): Result<Row, Error> {
    match row
    case None => Err(NotFound)
    case Some(current) =>
      if current.desired.generation != generation || current.deleting then Err(Conflict)
      else Ok(current.(status := status))
  }

  function Marked(row: Option<Row>): Result<Row, Error> {
    match row
    case None => Err(NotFound)
    case Some(current) => Ok(current.(deleting := true))
  }

  /** Whether the deletion that `generation` saw may end. */
  function CheckFinal(row: Option<Row>, generation: nat): Result<Row, Error> {
    match row
    case None => Err(NotFound)
    case Some(current) =>
      if current.desired.generation != generation || !current.deleting then Err(Conflict) else Ok(current)
  }

  // ----- the table -----

  /** A row stays after its deletion; only an active one has a name to find it by. */
  datatype Stored = Stored(active: bool, row: Row)

  type Table = map<Id, Stored>

  predicate Active(t: Table, id: Id) {
    id in t && t[id].active
  }

  function Get(t: Table, id: Id): Option<Row> {
    if Active(t, id) then Some(t[id].row) else None
  }

  predicate NameTaken(t: Table, name: string) {
    exists id :: id in t && t[id].active && t[id].row.name == name
  }

  ghost predicate NamesUnique(t: Table) {
    forall a, b :: Active(t, a) && Active(t, b) && t[a].row.name == t[b].row.name ==> a == b
  }

  function Insert(t: Table, id: Id, row: Row): Result<Table, Error> {
    if id in t || NameTaken(t, row.name) then Err(Conflict) else Ok(t[id := Stored(true, row)])
  }

  function Replace(t: Table, id: Id, written: Result<Row, Error>): Result<Table, Error> {
    match written
    case Err(error) => Err(error)
    case Ok(row) => Ok(t[id := Stored(true, row)])
  }

  /** `put`: generation 0 creates the agent, any other updates its desired columns. */
  function PutAgent(t: Table, id: Id, row: Row, expected: nat): Result<Table, Error> {
    if expected == 0 then Insert(t, id, row)
    else Replace(t, id, PutDesired(Get(t, id), row.name, row.desired, expected))
  }

  function After(t: Table, result: Result<Table, Error>): Table {
    if result.Ok? then result.value else t
  }

  /** The writers of one row. */
  datatype Write =
    | Desire(id: Id, row: Row, expected: nat)
    | Observe(id: Id, generation: nat, status: Status)
    | Delete(id: Id)
    | Finalize(id: Id, generation: nat)

  function Written(t: Table, w: Write): Result<Table, Error> {
    match w
    case Desire(id, row, expected) => PutAgent(t, id, row, expected)
    case Observe(id, generation, status) => Replace(t, id, PutStatus(Get(t, id), generation, status))
    case Delete(id) => Replace(t, id, Marked(Get(t, id)))
    case Finalize(id, generation) =>
      match CheckFinal(Get(t, id), generation)
      case Err(error) => Err(error)
      case Ok(row) => Ok(t[id := Stored(false, row)])
  }

  /**
    What each writer can change. A desired write leaves status, deletion and name alone; a status
    write leaves desired state, deletion and name alone; no writer touches another agent's row or
    brings a finished one back; and a name never identifies two active agents.
  */
  lemma WritersKeepToTheirColumns(t: Table, w: Write, id: Id)
    requires NamesUnique(t) && id in t
    ensures
      var u := After(t, Written(t, w));
      && NamesUnique(u) && id in u
      && u[id].row.name == t[id].row.name
      && (t[id].row.deleting ==> u[id].row.deleting)
      && (!t[id].active ==> u[id] == t[id])
      && (w.id != id ==> u[id] == t[id])
      && (u[id].row.desired != t[id].row.desired ==>
            && w.Desire? && w.expected == t[id].row.desired.generation && !t[id].row.deleting
            && u[id].row == t[id].row.(desired := w.row.desired))
      && (u[id].row.status != t[id].row.status ==>
            && w.Observe? && w.generation == t[id].row.desired.generation && !t[id].row.deleting
            && u[id].row == t[id].row.(status := w.status))
      && (u[id].active != t[id].active ==> w.Finalize? && t[id].row.deleting)
  {
    NamesStayUnique(t, w);
  }

  lemma NamesStayUnique(t: Table, w: Write)
    requires NamesUnique(t)
    ensures NamesUnique(After(t, Written(t, w)))
  {
    var u := After(t, Written(t, w));
    if w.Desire? && w.expected == 0 && Written(t, w).Ok? {
      forall a | Active(t, a) ensures t[a].row.name != w.row.name {
        assert !NameTaken(t, w.row.name);
      }
      assert NamesUnique(u);
    }
  }

  class Database {
    var agents: Table

    constructor ()
      ensures agents == map[]
    {
      agents := map[];
    }

    /** Whether an active row has the name, looking at each row as the unique index does. */
    method Taken(name: string) returns (taken: bool)
      ensures taken == NameTaken(agents, name)
    {
      var rest := agents.Keys;
      taken := false;
      while rest != {}
        invariant rest <= agents.Keys
        invariant taken ==> NameTaken(agents, name)
        invariant !taken ==> forall id :: Active(agents, id) && id !in rest ==> agents[id].row.name != name
        decreases rest
      {
        ghost var member := Member(rest);
        assert member in rest;
        var id :| id in rest;
        if agents[id].active && agents[id].row.name == name {
          assert Active(agents, id);
          return true;
        }
        rest := rest - {id};
      }
    }

    method Put(id: Id, row: Row, expected: nat) returns (r: Result<(), Error>)
      modifies this
      ensures r.Ok? <==> PutAgent(old(agents), id, row, expected).Ok?
      ensures r.Err? ==> r.error == PutAgent(old(agents), id, row, expected).error
      ensures agents == After(old(agents), PutAgent(old(agents), id, row, expected))
    {
      if expected == 0 {
        var taken := Taken(row.name);
        if id in agents || taken { return Err(Conflict); }
        agents := agents[id := Stored(true, row)];
        return Ok(());
      }
      if !(id in agents && agents[id].active) { return Err(NotFound); }
      var current := agents[id].row;
      if current.desired.generation != expected || current.name != row.name || current.deleting {
        return Err(Conflict);
      }
      agents := agents[id := Stored(true, current.(desired := row.desired))];
      return Ok(());
    }

    method UpdateStatus(id: Id, generation: nat, status: Status) returns (r: Result<Status, Error>)
      modifies this
      ensures r.Ok? <==> Written(old(agents), Observe(id, generation, status)).Ok?
      ensures r.Ok? ==> r.value == status
      ensures r.Err? ==> r.error == Written(old(agents), Observe(id, generation, status)).error
      ensures agents == After(old(agents), Written(old(agents), Observe(id, generation, status)))
    {
      if !(id in agents && agents[id].active) { return Err(NotFound); }
      var record := agents[id].row;
      if record.desired.generation != generation || record.deleting { return Err(Conflict); }
      agents := agents[id := Stored(true, record.(status := status))];
      return Ok(status);
    }

    method MarkDeleting(id: Id) returns (r: Result<Row, Error>)
      modifies this
      ensures r == Marked(Get(old(agents), id))
      ensures agents == After(old(agents), Written(old(agents), Delete(id)))
    {
      if !(id in agents && agents[id].active) { return Err(NotFound); }
      var record := agents[id].row;
      if !record.deleting {
        record := record.(deleting := true);
      }
      agents := agents[id := Stored(true, record)];
      return Ok(record);
    }

    method FinalizeDeletion(id: Id, generation: nat) returns (r: Result<(), Error>)
      modifies this
      ensures r.Ok? <==> Written(old(agents), Finalize(id, generation)).Ok?
      ensures r.Err? ==> r.error == Written(old(agents), Finalize(id, generation)).error
      ensures agents == After(old(agents), Written(old(agents), Finalize(id, generation)))
    {
      if !(id in agents && agents[id].active) { return Err(NotFound); }
      var record := agents[id].row;
      if record.desired.generation != generation || !record.deleting { return Err(Conflict); }
      agents := agents[id := Stored(false, record)];
      return Ok(());
    }
  }
}
