/**
  Concurrent API calls that create agents and change their desired state
  (agentctl/src/control_plane/service.rs: `apply`, `set_run_state`, `restart`, `change_desired`).

  Each call finds its agent by name, computes its change and stores it over the generation it read,
  and reads again when another write came between. Reads and stores are separate steps, so any number
  of calls interleave in any order, with status writes and deletions among them; a name may pass from
  a deleted agent to a new one between a call's read and its store.
*/
module DesiredWrites {
  import opened Wrappers
  import opened AgentStore

  datatype Change =
    | SetRunState(state: RunState)
    | Restart(timestamp: nat)
    | Apply(spec: string, runState: Option<RunState>)

  /** The manifest's run state, else the agent's own. */
  function AppliedRunState(requested: Option<RunState>, current: Desired): RunState {
    match requested
    case Some(state) => state
    case None => current.runState
  }

  /** The desired state a change asks for, before the control plane numbers it. */
  function Edited(change: Change, d: Desired): Desired {
    match change
    case SetRunState(state) => d.(runState := state)
    case Restart(timestamp) => d.(runState := Running, restart := Some(timestamp))
    case Apply(spec, runState) => d.(spec := spec, runState := AppliedRunState(runState, d))
  }

  /** A restart always counts as a change; anything else only when it changes something. */
  predicate Changes(change: Change, d: Desired) {
    change.Restart? || Edited(change, d) != d
  }

  function Bumped(change: Change, d: Desired): Desired {
    Edited(change, d).(generation := d.generation + 1)
  }

  /** What an agent is created over: nothing, and by default it runs. */
  const BLANK := Desired(0, Running, None, "")

  const NEW_STATUS := Status(0, None, Unassigned, Unreported, false, None, "")

  type Caller = nat

  datatype Entry = Entry(caller: Caller, change: Change)

  type Log = seq<Entry>

  /** The desired state after the stored changes, the creation first, in the order they were stored. */
  function Replay(log: Log): (d: Desired)
    ensures d.generation == |log|
  {
    if log == [] then BLANK else Bumped(log[|log| - 1].change, Replay(log[..|log| - 1]))
  }

  datatype Call =
    | Wanting(name: string, change: Change)
    | Creating(name: string, change: Change, id: Id)
    | Holding(change: Change, id: Id, seen: Row)
    | Succeeded(change: Change, id: Id, generation: nat)
    | Already(change: Change, id: Id, generation: nat)
    | Refused

  /** `logs` is what each agent's row is made of. */
  datatype State = State(agents: Table, calls: map<Caller, Call>, logs: map<Id, Log>)

  /** `found` is the agent that has the name; `created` is the identifier of an agent yet to be created. */
  datatype Event =
    | Ask(caller: Caller, name: string, change: Change)
    | Read(caller: Caller, found: Option<Id>, created: Id)
    | Store(caller: Caller)
    | Other(write: Write)

  /** What a lookup by name finds. */
  predicate Finds(t: Table, name: string, found: Option<Id>) {
    match found
    case Some(id) => Active(t, id) && t[id].row.name == name
    case None => !NameTaken(t, name)
  }

  predicate Enabled(s: State, e: Event) {
    match e
    case Ask(_, _, _) => true
    case Read(c, found, _) => c in s.calls && s.calls[c].Wanting? && Finds(s.agents, s.calls[c].name, found)
    case Store(c) => c in s.calls && (s.calls[c].Holding? || s.calls[c].Creating?)
    case Other(write) => !write.Desire?
  }

  function AfterRead(s: State, name: string, change: Change, found: Option<Id>, created: Id): Call
    requires found.Some? ==> found.value in s.agents
  {
    match found
    case None => if change.Apply? then Creating(name, change, created) else Refused
    case Some(id) =>
      var row := s.agents[id].row;
      if row.deleting then Refused
      else if !Changes(change, row.desired) then Already(change, id, row.desired.generation)
      else Holding(change, id, row)
  }

  function LogOf(s: State, id: Id): Log {
    if id in s.logs then s.logs[id] else []
  }

  /** A put by a caller: what it leaves, with `again` for a caller that lost the race. */
  function AfterPut(s: State, c: Caller, change: Change, id: Id, row: Row, expected: nat): State {
    match PutAgent(s.agents, id, row, expected)
    case Ok(agents) =>
      State(agents,
            s.calls[c := Succeeded(change, id, row.desired.generation)],
            s.logs[id := LogOf(s, id) + [Entry(c, change)]])
    case Err(Conflict) => s.(calls := s.calls[c := Wanting(row.name, change)])
    case Err(_) => s.(calls := s.calls[c := Refused])
  }

  function AfterStore(s: State, c: Caller): State
    requires Enabled(s, Store(c))
  {
    match s.calls[c]
    case Creating(name, change, id) =>
      AfterPut(s, c, change, id, Row(name, Bumped(change, BLANK), false, NEW_STATUS), 0)
    case Holding(change, id, seen) =>
      AfterPut(s, c, change, id, seen.(desired := Bumped(change, seen.desired)), seen.desired.generation)
  }

  function Next(s: State, e: Event): State
    requires Enabled(s, e)
  {
    match e
    case Ask(c, name, change) => s.(calls := s.calls[c := Wanting(name, change)])
    case Read(c, found, created) =>
      s.(calls := s.calls[c := AfterRead(s, s.calls[c].name, s.calls[c].change, found, created)])
    case Store(c) => AfterStore(s, c)
    case Other(write) => s.(agents := After(s.agents, Written(s.agents, write)))
  }

  predicate Possible(s: State, events: seq<Event>)
    decreases |events|
  {
    events == [] || (Enabled(s, events[0]) && Possible(Next(s, events[0]), events[1..]))
  }

  function Run(s: State, events: seq<Event>): State
    requires Possible(s, events)
    decreases |events|
  {
    if events == [] then s else Run(Next(s, events[0]), events[1..])
  }

  const START := State(map[], map[], map[])

  // ----- invariant -----

  /** `d` is the desired state as of its own generation. */
  predicate AsOf(log: Log, d: Desired) {
    0 < d.generation <= |log| && d == Replay(log[..d.generation])
  }

  /** What a call knows of the agent it found or created. */
  predicate CallWell(s: State, c: Caller, call: Call) {
    match call
    case Creating(_, change, _) => change.Apply?
    case Holding(change, id, seen) => AsOf(LogOf(s, id), seen.desired) && Changes(change, seen.desired)
    case Succeeded(change, id, generation) =>
      0 < generation <= |LogOf(s, id)| && LogOf(s, id)[generation - 1] == Entry(c, change)
    case Already(change, id, generation) =>
      0 < generation <= |LogOf(s, id)| && !Changes(change, Replay(LogOf(s, id)[..generation]))
    case _ => true
  }

  /** An agent's row is the replay of its log, which begins with the call that created it. */
  predicate AgentWell(s: State, id: Id) {
    && id in s.agents && id in s.logs
    && s.logs[id] != [] && s.logs[id][0].change.Apply?
    && s.agents[id].row.desired == Replay(s.logs[id])
  }

  ghost predicate Invariant(s: State) {
    && NamesUnique(s.agents)
    && (forall id :: id in s.agents || id in s.logs ==> AgentWell(s, id))
    && (forall c :: c in s.calls ==> CallWell(s, c, s.calls[c]))
  }

  /** Each log is a prefix of what it becomes, and no agent's is lost. */
  predicate Extends(s: State, t: State) {
    forall id :: id in s.logs ==> id in t.logs && s.logs[id] <= t.logs[id]
  }

  lemma CallStaysWell(s: State, t: State, c: Caller, call: Call)
    requires CallWell(s, c, call) && Extends(s, t)
    ensures CallWell(t, c, call)
  {
    if call.Holding? || call.Succeeded? || call.Already? {
      assert LogOf(s, call.id) <= LogOf(t, call.id);
      var n := if call.Holding? then call.seen.desired.generation else call.generation;
      assert LogOf(t, call.id)[..n] == LogOf(s, call.id)[..n];
    }
  }

  /** A put that finds its generation finds the very desired state its caller read. */
  lemma PutFindsWhatWasRead(s: State, id: Id, seen: Desired)
    requires id in s.agents && AgentWell(s, id) && AsOf(s.logs[id], seen)
    requires s.agents[id].row.desired.generation == seen.generation
    ensures s.agents[id].row.desired == seen
  {
    assert s.logs[id][..|s.logs[id]|] == s.logs[id];
  }

  lemma ReplayOneMore(log: Log, entry: Entry)
    ensures Replay(log + [entry]) == Bumped(entry.change, Replay(log))
  {
    assert (log + [entry])[..|log|] == log;
  }

  /** The desired state a put stores is the log's with the call's own change on top. */
  ghost predicate PutsOnTop(s: State, change: Change, id: Id, row: Row, expected: nat) {
    && row.desired.generation == expected + 1
    && (expected == 0 ==> change.Apply? && row.desired == Bumped(change, BLANK))
    && (expected > 0 ==>
          exists seen: Desired :: AsOf(LogOf(s, id), seen) && seen.generation == expected &&
            row.desired == Bumped(change, seen))
  }

  lemma PutAddsToTheLog(s: State, c: Caller, change: Change, id: Id, row: Row, expected: nat)
    requires Invariant(s) && PutsOnTop(s, change, id, row, expected)
    requires PutAgent(s.agents, id, row, expected).Ok?
    ensures AgentWell(AfterPut(s, c, change, id, row, expected), id)
    ensures |LogOf(s, id)| == expected
  {
    ReplayOneMore(LogOf(s, id), Entry(c, change));
    assert id in s.agents ==> AgentWell(s, id);
    if expected > 0 {
      var seen: Desired :| AsOf(LogOf(s, id), seen) && seen.generation == expected &&
        row.desired == Bumped(change, seen);
      PutFindsWhatWasRead(s, id, seen);
    }
  }

  lemma PutKeepsNames(s: State, c: Caller, change: Change, id: Id, row: Row, expected: nat)
    requires NamesUnique(s.agents)
    ensures NamesUnique(AfterPut(s, c, change, id, row, expected).agents)
  {
    NamesStayUnique(s.agents, Desire(id, row, expected));
  }

  lemma PutLeavesOthers(s: State, c: Caller, change: Change, id: Id, row: Row, expected: nat, other: Id)
    requires AgentWell(s, other) && other != id
    ensures AgentWell(AfterPut(s, c, change, id, row, expected), other)
  {
  }

  /** Only the agent put to is touched, and a put that fails touches none. */
  lemma PutTouches(s: State, c: Caller, change: Change, id: Id, row: Row, expected: nat)
    ensures
      var t := AfterPut(s, c, change, id, row, expected);
      && (forall other :: other in t.agents || other in t.logs ==> other == id || other in s.agents || other in s.logs)
      && Extends(s, t)
      && (PutAgent(s.agents, id, row, expected).Err? ==> t.agents == s.agents && t.logs == s.logs)
  {
  }

  lemma PutKeepsAgents(s: State, c: Caller, change: Change, id: Id, row: Row, expected: nat)
    requires Invariant(s) && PutsOnTop(s, change, id, row, expected)
    ensures
      var t := AfterPut(s, c, change, id, row, expected);
      forall other :: other in t.agents || other in t.logs ==> AgentWell(t, other)
  {
    var t := AfterPut(s, c, change, id, row, expected);
    PutTouches(s, c, change, id, row, expected);
    forall other | other in t.agents || other in t.logs
      ensures AgentWell(t, other)
    {
      if other != id {
        PutLeavesOthers(s, c, change, id, row, expected, other);
      } else if PutAgent(s.agents, id, row, expected).Ok? {
        PutAddsToTheLog(s, c, change, id, row, expected);
      } else {
        assert AgentWell(s, id);
      }
    }
  }

  /** What a put's caller then holds. */
  lemma PutAnswers(s: State, c: Caller, change: Change, id: Id, row: Row, expected: nat)
    requires Invariant(s) && PutsOnTop(s, change, id, row, expected)
    ensures
      var t := AfterPut(s, c, change, id, row, expected);
      && c in t.calls && CallWell(t, c, t.calls[c])
      && forall d :: d in t.calls && d != c ==> d in s.calls && t.calls[d] == s.calls[d]
  {
    if PutAgent(s.agents, id, row, expected).Ok? {
      PutAddsToTheLog(s, c, change, id, row, expected);
    }
  }

  /** What is kept once the agents are: nobody's call but one's own changed. */
  lemma CallsKept(s: State, t: State, c: Caller)
    requires Invariant(s) && NamesUnique(t.agents) && Extends(s, t)
    requires forall id :: id in t.agents || id in t.logs ==> AgentWell(t, id)
    requires forall d :: d in t.calls && d != c ==> d in s.calls && t.calls[d] == s.calls[d]
    requires c in t.calls ==> CallWell(t, c, t.calls[c]) || (c in s.calls && t.calls[c] == s.calls[c])
    ensures Invariant(t)
  {
    forall d | d in t.calls
      ensures CallWell(t, d, t.calls[d])
    {
      if d in s.calls && t.calls[d] == s.calls[d] { CallStaysWell(s, t, d, s.calls[d]); }
    }
  }

  lemma PutKeeps(s: State, c: Caller, change: Change, id: Id, row: Row, expected: nat)
    requires Invariant(s) && PutsOnTop(s, change, id, row, expected)
    ensures Invariant(AfterPut(s, c, change, id, row, expected))
    ensures Extends(s, AfterPut(s, c, change, id, row, expected))
  {
    PutKeepsNames(s, c, change, id, row, expected);
    PutTouches(s, c, change, id, row, expected);
    PutKeepsAgents(s, c, change, id, row, expected);
    PutAnswers(s, c, change, id, row, expected);
    CallsKept(s, AfterPut(s, c, change, id, row, expected), c);
  }

  lemma StoreKeeps(s: State, c: Caller)
    requires Invariant(s) && Enabled(s, Store(c))
    ensures Invariant(Next(s, Store(c))) && Extends(s, Next(s, Store(c)))
  {
    match s.calls[c]
    case Creating(name, change, id) =>
      PutKeeps(s, c, change, id, Row(name, Bumped(change, BLANK), false, NEW_STATUS), 0);
    case Holding(change, id, seen) =>
      PutKeeps(s, c, change, id, seen.(desired := Bumped(change, seen.desired)), seen.desired.generation);
  }

  lemma OtherKeeps(s: State, w: Write)
    requires Invariant(s) && !w.Desire?
    ensures Invariant(Next(s, Other(w))) && Extends(s, Next(s, Other(w)))
  {
    var t := Next(s, Other(w));
    NamesStayUnique(s.agents, w);
    forall id | id in t.agents || id in t.logs
      ensures AgentWell(t, id)
    {
      assert AgentWell(s, id);
    }
    CallsKept(s, t, 0);
  }

  lemma ReadKeeps(s: State, c: Caller, found: Option<Id>, created: Id)
    requires Invariant(s) && Enabled(s, Read(c, found, created))
    ensures Invariant(Next(s, Read(c, found, created))) && Extends(s, Next(s, Read(c, found, created)))
  {
    var t := Next(s, Read(c, found, created));
    if found.Some? {
      var log := s.logs[found.value];
      assert AgentWell(s, found.value);
      assert log[..|log|] == log;
    }
    assert forall id :: AgentWell(s, id) ==> AgentWell(t, id);
    CallsKept(s, t, c);
  }

  lemma AskKeeps(s: State, c: Caller, name: string, change: Change)
    requires Invariant(s)
    ensures Invariant(Next(s, Ask(c, name, change))) && Extends(s, Next(s, Ask(c, name, change)))
  {
    var t := Next(s, Ask(c, name, change));
    assert forall id :: AgentWell(s, id) ==> AgentWell(t, id);
    CallsKept(s, t, c);
  }

  lemma NextKeeps(s: State, e: Event)
    requires Invariant(s) && Enabled(s, e)
    ensures Invariant(Next(s, e)) && Extends(s, Next(s, e))
  {
    match e {
      case Ask(c, name, change) => AskKeeps(s, c, name, change);
      case Read(c, found, created) => ReadKeeps(s, c, found, created);
      case Store(c) => StoreKeeps(s, c);
      case Other(write) => OtherKeeps(s, write);
    }
  }

  lemma {:induction false} RunKeeps(s: State, events: seq<Event>)
    requires Invariant(s) && Possible(s, events)
    ensures Invariant(Run(s, events)) && Extends(s, Run(s, events))
    decreases |events|
  {
    if events != [] {
      var next := Next(s, events[0]);
      NextKeeps(s, events[0]);
      RunKeeps(next, events[1..]);
      forall id | id in s.logs
        ensures id in Run(s, events).logs && s.logs[id] <= Run(s, events).logs[id]
      {
        assert s.logs[id] <= next.logs[id] <= Run(next, events[1..]).logs[id];
      }
    }
  }

  /** A call's change is where the call says it is. */
  predicate ReportsTruly(s: State, c: Caller)
    requires c in s.calls
  {
    match s.calls[c]
    case Succeeded(change, id, generation) =>
      id in s.logs && 0 < generation <= |s.logs[id]| && s.logs[id][generation - 1] == Entry(c, change)
    case Already(change, id, generation) =>
      id in s.logs && 0 < generation <= |s.logs[id]| && !Changes(change, Replay(s.logs[id][..generation]))
    case _ => true
  }

  /**
    No lost update. However calls interleave, from no agents at all, each agent's stored desired state
    is the creation's with every stored change applied in order, one generation each; and each call
    that reports success has exactly its own change at the generation it reports of the agent it
    found, also when that agent was deleted since and its name given to another.
  */
  lemma NoLostUpdate(events: seq<Event>)
    requires Possible(START, events)
    ensures
      var s := Run(START, events);
      && (forall id :: id in s.agents ==>
            && id in s.logs && s.logs[id] != [] && s.logs[id][0].change.Apply?
            && s.agents[id].row.desired == Replay(s.logs[id])
            && s.agents[id].row.desired.generation == |s.logs[id]|)
      && forall c :: c in s.calls ==> ReportsTruly(s, c)
  {
    var s := Run(START, events);
    RunKeeps(START, events);
    forall id | id in s.agents
      ensures AgentWell(s, id)
    {
    }
    forall c | c in s.calls
      ensures ReportsTruly(s, c)
    {
      assert CallWell(s, c, s.calls[c]);
      if s.calls[c].Succeeded? || s.calls[c].Already? {
        assert LogOf(s, s.calls[c].id) != [];
        assert AgentWell(s, s.calls[c].id);
      }
    }
  }

  /** The desired state of a generation never changes: two sightings of one generation of an agent agree. */
  lemma GenerationFixesDesired(events: seq<Event>, rest: seq<Event>, id: Id)
    requires Possible(START, events) && Possible(Run(START, events), rest)
    requires id in Run(START, events).agents
    ensures
      var s, t := Run(START, events), Run(Run(START, events), rest);
      && id in t.agents
      && var before, after := s.agents[id].row.desired, t.agents[id].row.desired;
         before.generation <= after.generation && (before.generation == after.generation ==> before == after)
  {
    RunKeeps(START, events);
    RunKeeps(Run(START, events), rest);
    var s, t := Run(START, events), Run(Run(START, events), rest);
    assert AgentWell(s, id) && AgentWell(t, id);
    if |s.logs[id]| == |t.logs[id]| {
      assert s.logs[id] == t.logs[id];
    }
  }

  /** A name never finds two agents. */
  lemma NameFindsOne(events: seq<Event>, name: string, a: Option<Id>, b: Option<Id>)
    requires Possible(START, events)
    requires Finds(Run(START, events).agents, name, a) && Finds(Run(START, events).agents, name, b)
    ensures a == b
  {
    RunKeeps(START, events);
  }

  // ----- the retry loop -----

  /** What other writers do to a row between this call's read and its store. */
  datatype Meanwhile = Changed(change: Change) | Reported(status: Status)

  function Disturbed(row: Row, others: seq<Meanwhile>): Row
    decreases |others|
  {
    if others == [] then row
    else
      var next := match others[0]
        case Changed(change) => row.(desired := Bumped(change, row.desired))
        case Reported(status) => row.(status := status);
      Disturbed(next, others[1..])
  }

  function Flattened(rounds: seq<seq<Meanwhile>>): seq<Meanwhile>
    decreases |rounds|
  {
    if rounds == [] then [] else rounds[0] + Flattened(rounds[1..])
  }

  lemma {:induction false} DisturbedGrows(row: Row, others: seq<Meanwhile>)
    ensures Disturbed(row, others).desired.generation >= row.desired.generation
    ensures Disturbed(row, others).desired.generation == row.desired.generation ==>
      Disturbed(row, others).desired == row.desired
    ensures Disturbed(row, others).name == row.name && Disturbed(row, others).deleting == row.deleting
    decreases |others|
  {
    if others != [] {
      var next := match others[0]
        case Changed(change) => row.(desired := Bumped(change, row.desired))
        case Reported(status) => row.(status := status);
      DisturbedGrows(next, others[1..]);
    }
  }

  lemma {:induction false} DisturbedAppends(row: Row, first: seq<Meanwhile>, second: seq<Meanwhile>)
    ensures Disturbed(row, first + second) == Disturbed(Disturbed(row, first), second)
    decreases |first|
  {
    if first == [] {
      assert first + second == second;
    } else {
      assert (first + second)[1..] == first[1..] + second;
      var next := match first[0]
        case Changed(change) => row.(desired := Bumped(change, row.desired))
        case Reported(status) => row.(status := status);
      DisturbedAppends(next, first[1..], second);
    }
  }

  lemma {:induction false} FlattenedAppends(rounds: seq<seq<Meanwhile>>, n: nat)
    requires n < |rounds|
    ensures Flattened(rounds[..n + 1]) == Flattened(rounds[..n]) + rounds[n]
    decreases n
  {
    if n == 0 {
      assert rounds[..1] == [rounds[0]] && rounds[..1][1..] == [] && rounds[..0] == [];
    } else {
      FlattenedAppends(rounds[1..], n - 1);
      assert rounds[..n + 1][1..] == rounds[1..][..n] && rounds[..n][1..] == rounds[1..][..n - 1];
    }
  }

  /** The row after what other writers did in the first `n` rounds. */
  function Met(row: Row, rounds: seq<seq<Meanwhile>>, n: nat): Row
    requires n <= |rounds|
  {
    Disturbed(row, Flattened(rounds[..n]))
  }

  lemma MetNext(row: Row, rounds: seq<seq<Meanwhile>>, n: nat)
    requires n < |rounds|
    ensures Met(row, rounds, n + 1) == Disturbed(Met(row, rounds, n), rounds[n])
  {
    FlattenedAppends(rounds, n);
    DisturbedAppends(row, Flattened(rounds[..n]), rounds[n]);
  }

  /** One agent's row, and the call that changes its desired state. */
  class ControlPlane {
    var row: Row
    var rounds: seq<seq<Meanwhile>>
    var round: nat

    /** The store as the next command finds it, after whatever other writers did meanwhile. */
    method Await()
      requires round <= |rounds|
      modifies this
      ensures rounds == old(rounds)
      ensures old(round) < |rounds| ==> round == old(round) + 1 && row == Disturbed(old(row), rounds[old(round)])
      ensures old(round) == |rounds| ==> round == old(round) && row == old(row)
    {
      if round < |rounds| {
        row, round := Disturbed(row, rounds[round]), round + 1;
      }
    }

    /**
      Stores `change` as a new generation, reading again whenever another write came first. The
      other writers' changes all stay, and this call's change goes on top of the last of them.
    */
    method ChangeDesired(change: Change) returns (r: Result<nat, Error>)
      requires round == 0
      modifies this
      ensures rounds == old(rounds) && round <= |rounds|
      ensures r.Err? <==> old(row).deleting
      ensures r.Ok? ==>
        var met := Met(old(row), rounds, round);
        if Changes(change, met.desired)
        then row == met.(desired := Bumped(change, met.desired)) && r.value == row.desired.generation
        else row == met && r.value == met.desired.generation
    {
      ghost var first := row;
      assert rounds[..0] == [];
      while true
        invariant rounds == old(rounds) && round <= |rounds|
        invariant row == Met(first, rounds, round)
        invariant row.deleting == first.deleting
        decreases |rounds| - round
      {
        var record := row;
        ghost var n := round;
        if record.deleting { return Err(Conflict); }
        if !Changes(change, record.desired) {
          return Ok(record.desired.generation);
        }
        Await();
        if n < |rounds| {
          MetNext(first, rounds, n);
          DisturbedGrows(record, rounds[n]);
        }
        var next := Bumped(change, record.desired);
        if row.desired.generation == record.desired.generation && row.name == record.name && !row.deleting {
          row := row.(desired := next);
          return Ok(next.generation);
        }
      }
    }
  }
}
