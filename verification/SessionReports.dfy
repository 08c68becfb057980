/**
  Session rows and the reports a running harness makes about itself
  (agentctl/src/persistence/sessions.rs).

  A report authenticates with its launch's token and is claimed by its event ID, in one transaction
  with its effect. Deliveries are retried, repeated and late, so a history here is any sequence of
  committed transactions; one that fails is rolled back and is not in it.
*/
module SessionReports {
  import opened Wrappers
  import opened Activity

  type Id = nat
  type Agent = nat
  type Token = nat
  type EventId = nat

  datatype LifecycleState = Starting | Resuming | Running | Idle | Archived | Failed

  datatype Lifecycle = Lifecycle(state: LifecycleState, failure: Option<string>)

  /** `lifecycle_json`. */
  datatype LifecycleRow = LifecycleRow(lifecycle: Lifecycle, observedGeneration: nat, since: Option<int>)

  datatype Native = Native(id: string, transcript: Option<string>)

  datatype LaunchRecord = LaunchRecord(token: Token, sandbox: string, at: int)

  datatype Row = Row(
    owner: Agent,
    generation: nat,
    lifecycle: LifecycleRow,
    launch: Option<LaunchRecord>,
    attempts: nat,
    prompt: Option<string>,
    native: Option<Native>,
    activity: Activity)

  /** `session_activity_reports`: the event IDs already claimed. */
  type Reports = set<(Id, Token, EventId)>

  datatype State = State(rows: map<Id, Row>, active: set<Agent>, reports: Reports)

  datatype Error = NotFound

  // ----- transactions -----

  predicate Authenticates(s: State, id: Id, token: Token) {
    && id in s.rows && s.rows[id].launch.Some? && s.rows[id].launch.value.token == token
    && s.rows[id].owner in s.active
  }

  /** `begin_report`: `None` is a duplicate. */
  function BeginReport(s: State, id: Id, token: Token, event: EventId): Result<Option<State>, Error> {
    if !Authenticates(s, id, token) then Err(NotFound)
    else if (id, token, event) in s.reports then Ok(None)
    else Ok(Some(s.(reports := s.reports + {(id, token, event)})))
  }

  function CommitReport(s: State, id: Id, entry: Entry): State
    requires id in s.rows
  {
    s.(rows := s.rows[id := s.rows[id].(activity := Folded(s.rows[id].activity, entry))])
  }

  datatype Command =
    | Report(id: Id, token: Token, event: EventId, entry: Entry)
    | Start(id: Id, token: Token, event: EventId, native: Native, at: int)
    | Launch(id: Id, record: LaunchRecord, attempts: nat)
    | Clear(id: Id)
    | Observe(id: Id, lifecycle: Lifecycle, generation: nat, now: int)
    | Activate(id: Id)
    | ResetAttempts(id: Id)
    | Remove(id: Id)
    | EndAgent(agent: Agent)

  /** The row after each of the transactions that write one column group of it. */
  function Rewritten(row: Row, c: Command): Row {
    match c
    case Launch(_, record, attempts) =>
      row.(launch := Some(record), attempts := attempts, prompt := None, activity := QUIET)
    case Clear(_) => row.(native := None, activity := QUIET)
    case Observe(_, lifecycle, generation, now) =>
      var since := if row.lifecycle.lifecycle.state == lifecycle.state then row.lifecycle.since else Some(now);
      row.(lifecycle := LifecycleRow(lifecycle, generation, since))
    case Activate(_) => row.(generation := row.generation + 1)
    case ResetAttempts(_) => row.(attempts := 0)
    case _ => row
  }

  function WithoutReports(reports: Reports, id: Id): Reports {
    set r | r in reports && r.0 != id
  }

  function Step(s: State, c: Command): State {
    match c
    case Report(id, token, event, entry) =>
      (match BeginReport(s, id, token, event)
       case Ok(Some(claimed)) => CommitReport(claimed, id, entry)
       case _ => s)
    case Start(id, token, event, native, at) =>
      (match BeginReport(s, id, token, event)
       case Ok(Some(claimed)) =>
         var named := claimed.rows[id].(native := Some(native));
          CommitReport(claimed.(rows := claimed.rows[id := named]), id, Entry(SessionStart, at))
       case _ => s)
    case EndAgent(agent) => s.(active := s.active - {agent})
    case Remove(id) => s.(rows := s.rows - {id}, reports := WithoutReports(s.reports, id))
    case _ =>
      if c.id !in s.rows then s
      else
        s.(rows := s.rows[c.id := Rewritten(s.rows[c.id], c)],
           reports := if c.Launch? then WithoutReports(s.reports, c.id) else s.reports)
  }

  /** The session table, updated in place. */
  class Sessions {
    var rows: map<Id, Row>
    var active: set<Agent>
    var reports: Reports

    constructor (state: State)
      ensures Contents() == state
    {
      rows, active, reports := state.rows, state.active, state.reports;
    }

    function Contents(): State
      reads this
    {
      State(rows, active, reports)
    }

    /** Claims the event, or says the report is a duplicate, or that its launch is not the current one. */
    method Begin(id: Id, token: Token, event: EventId) returns (claimed: Result<bool, Error>)
      modifies this`reports
      ensures claimed.Err? <==> !Authenticates(old(Contents()), id, token)
      ensures claimed == Ok(true) <==> Authenticates(old(Contents()), id, token) && (id, token, event) !in old(reports)
      ensures reports == if claimed == Ok(true) then old(reports) + {(id, token, event)} else old(reports)
    {
      if !(id in rows && rows[id].launch.Some? && rows[id].launch.value.token == token && rows[id].owner in active) {
        return Err(NotFound);
      }
      if (id, token, event) in reports {
        return Ok(false);
      }
      reports := reports + {(id, token, event)};
      return Ok(true);
    }

    /** A stale or repeated report is dropped without an error, so the harness does not send it again. */
    method ApplyActivity(id: Id, token: Token, event: EventId, entry: Entry) returns (r: Option<Activity>)
      modifies this
      ensures Contents() == Step(old(Contents()), Report(id, token, event, entry))
      ensures r.Some? <==> Authenticates(old(Contents()), id, token) && (id, token, event) !in old(reports)
      ensures r.Some? ==> id in rows && r.value == rows[id].activity
    {
      var claimed := Begin(id, token, event);
      if claimed != Ok(true) { return None; }
      var activity := Folded(rows[id].activity, entry);
      rows := rows[id := rows[id].(activity := activity)];
      return Some(activity);
    }

    /** A stale start is an error, unlike a stale report; a repeated one is not. */
    method RecordStart(id: Id, token: Token, event: EventId, native: Native, at: int)
      returns (r: Result<Option<Activity>, Error>)
      modifies this
      ensures Contents() == Step(old(Contents()), Start(id, token, event, native, at))
      ensures r.Err? <==> !Authenticates(old(Contents()), id, token)
      ensures r == Ok(None) <==> Authenticates(old(Contents()), id, token) && (id, token, event) in old(reports)
      ensures r.Ok? && r.value.Some? ==>
        id in rows && r.value.value == rows[id].activity && rows[id].native == Some(native)
    {
      var claimed := Begin(id, token, event);
      if claimed.Err? { return Err(NotFound); }
      if !claimed.value { return Ok(None); }
      rows := rows[id := rows[id].(native := Some(native))];
      var activity := Folded(rows[id].activity, Entry(SessionStart, at));
      rows := rows[id := rows[id].(activity := activity)];
      return Ok(Some(activity));
    }

    /** Hands the initial prompt to the first launch that asks, once. */
    method Launched(id: Id, record: LaunchRecord, attempts: nat) returns (prompt: Result<Option<string>, Error>)
      modifies this
      ensures Contents() == Step(old(Contents()), Launch(id, record, attempts))
      ensures prompt == if id in old(rows) then Ok(old(rows)[id].prompt) else Err(NotFound)
    {
      if id !in rows { return Err(NotFound); }
      prompt := Ok(rows[id].prompt);
      rows := rows[id := rows[id].(launch := Some(record), attempts := attempts, prompt := None, activity := QUIET)];
      reports := set r | r in reports && r.0 != id;
    }

    method ClearReport(id: Id) returns (r: Result<(), Error>)
      modifies this`rows
      ensures Contents() == Step(old(Contents()), Clear(id)) && (r.Ok? <==> id in old(rows))
    {
      if id !in rows { return Err(NotFound); }
      rows := rows[id := rows[id].(native := None, activity := QUIET)];
      return Ok(());
    }

    method UpdateLifecycle(id: Id, lifecycle: Lifecycle, generation: nat, now: int) returns (r: Result<(), Error>)
      modifies this`rows
      ensures Contents() == Step(old(Contents()), Observe(id, lifecycle, generation, now)) &&
        (r.Ok? <==> id in old(rows))
    {
      if id !in rows { return Err(NotFound); }
      var since := rows[id].lifecycle.since;
      if rows[id].lifecycle.lifecycle.state != lifecycle.state {
        since := Some(now);
      }
      rows := rows[id := rows[id].(lifecycle := LifecycleRow(lifecycle, generation, since))];
      return Ok(());
    }
  }

  // ----- histories -----

  function After(s: State, h: seq<Command>): State {
    if h == [] then s else Step(After(s, h[..|h| - 1]), h[|h| - 1])
  }

  /** Sessions of live agents, none of which has launched yet. */
  ghost predicate Unlaunched(s: State) {
    && s.reports == {}
    && forall id :: id in s.rows ==>
         && s.rows[id].owner in s.active && s.rows[id].launch.None? && s.rows[id].native.None?
         && s.rows[id].activity == QUIET
  }

  predicate Reporting(c: Command, id: Id) {
    (c.Report? || c.Start?) && c.id == id
  }

  predicate Launches(c: Command, id: Id) {
    c.Launch? && c.id == id
  }

  function EntryOf(c: Command): Entry
    requires c.Report? || c.Start?
  {
    if c.Report? then c.entry else Entry(SessionStart, c.at)
  }

  /** Where the session's launch current at the end of the history was recorded. */
  function LastLaunch(h: seq<Command>, id: Id): (at: Option<nat>)
    ensures at.Some? ==>
      at.value < |h| && Launches(h[at.value], id) && forall j :: at.value < j < |h| ==> !Launches(h[j], id)
    ensures at.None? ==> forall j :: 0 <= j < |h| ==> !Launches(h[j], id)
  {
    if h == [] then None
    else if Launches(h[|h| - 1], id) then Some(|h| - 1)
    else LastLaunch(h[..|h| - 1], id)
  }

  /** The event was delivered before, after command `launch` and with its token. */
  predicate Repeats(h: seq<Command>, launch: nat, id: Id, token: Token, event: EventId) {
    exists j :: launch < j < |h| && Reporting(h[j], id) && h[j].token == token && h[j].event == event
  }

  /** The report is the first delivery of its event, and of the launch current when it arrives, for a live agent. */
  predicate FirstArrival(h: seq<Command>, owner: Agent, id: Id, c: Command) {
    && Reporting(c, id)
    && LastLaunch(h, id).Some?
    && h[LastLaunch(h, id).value].record.token == c.token
    && !Repeats(h, LastLaunch(h, id).value, id, c.token, c.event)
    && EndAgent(owner) !in h
  }

  /** What was heard since the last launch or clear: each event once, in the order they first arrived. */
  function Heard(h: seq<Command>, owner: Agent, id: Id): seq<Entry> {
    if h == [] then []
    else
      var before, c := h[..|h| - 1], h[|h| - 1];
      if (c.Launch? || c.Clear?) && c.id == id then []
      else if FirstArrival(before, owner, id, c) then Heard(before, owner, id) + [EntryOf(c)]
      else Heard(before, owner, id)
  }

  /** What the last start that counted said the conversation is, unless it has been cleared since. */
  function Named(h: seq<Command>, owner: Agent, id: Id): Option<Native> {
    if h == [] then None
    else
      var before, c := h[..|h| - 1], h[|h| - 1];
      if c == Clear(id) then None
      else if c.Start? && FirstArrival(before, owner, id, c) then Some(c.native)
      else Named(before, owner, id)
  }

  // ----- the table against its history -----

  /** The launch the history made current, if any. */
  function CurrentLaunch(h: seq<Command>, id: Id): Option<LaunchRecord> {
    match LastLaunch(h, id)
    case None => None
    case Some(at) => Some(h[at].record)
  }

  predicate Claimed(h: seq<Command>, id: Id, token: Token, event: EventId) {
    LastLaunch(h, id).Some? && h[LastLaunch(h, id).value].record.token == token &&
      Repeats(h, LastLaunch(h, id).value, id, token, event)
  }

  /** The row's launch and, while its agent lives, the claimed events are what the history says. */
  ghost predicate Tracks(s: State, h: seq<Command>, owner: Agent, id: Id) {
    && id in s.rows && s.rows[id].owner == owner
    && s.rows[id].launch == CurrentLaunch(h, id)
    && (owner in s.active <==> EndAgent(owner) !in h)
    && (owner in s.active ==>
          forall token: Token, event: EventId :: (id, token, event) in s.reports <==> Claimed(h, id, token, event))
  }

  lemma OneMore(h: seq<Command>, c: Command)
    ensures (h + [c])[..|h|] == h && (h + [c])[|h|] == c
  {
  }

  lemma LastLaunchOneMore(h: seq<Command>, c: Command, id: Id)
    ensures LastLaunch(h + [c], id) == if Launches(c, id) then Some(|h|) else LastLaunch(h, id)
    ensures CurrentLaunch(h + [c], id) == if Launches(c, id) then Some(c.record) else CurrentLaunch(h, id)
  {
    OneMore(h, c);
  }

  lemma ClaimedOneMore(h: seq<Command>, c: Command, id: Id, token: Token, event: EventId)
    ensures Claimed(h + [c], id, token, event) <==>
      if Launches(c, id) then false
      else
        Claimed(h, id, token, event)
        || (&& CurrentLaunch(h, id).Some? && CurrentLaunch(h, id).value.token == token
             && Reporting(c, id) && c.token == token && c.event == event)
  {
    LastLaunchOneMore(h, c, id);
    var longer := h + [c];
    if !Launches(c, id) && LastLaunch(h, id).Some? {
      var l := LastLaunch(h, id).value;
      assert longer[l] == h[l];
      if Repeats(h, l, id, token, event) {
        var j :| l < j < |h| && Reporting(h[j], id) && h[j].token == token && h[j].event == event;
        assert longer[j] == h[j];
      }
      if Reporting(c, id) && c.token == token && c.event == event {
        assert longer[|h|] == c;
        assert Repeats(longer, l, id, token, event);
      }
    }
  }

  /** A report authenticates and is new exactly when it is a first arrival. */
  lemma AcceptedExactlyWhen(s: State, h: seq<Command>, owner: Agent, id: Id, c: Command)
    requires Tracks(s, h, owner, id) && Reporting(c, id)
    ensures (Authenticates(s, id, c.token) && (id, c.token, c.event) !in s.reports) <==> FirstArrival(h, owner, id, c)
  {
  }

  lemma ReportTracks(s: State, h: seq<Command>, owner: Agent, id: Id, c: Command)
    requires Tracks(s, h, owner, id) && (c.Report? || c.Start?)
    ensures Tracks(Step(s, c), h + [c], owner, id)
  {
    LastLaunchOneMore(h, c, id);
    var t := Step(s, c);
    if owner in s.active {
      forall token: Token, event: EventId
        ensures (id, token, event) in t.reports <==> Claimed(h + [c], id, token, event)
      {
        ClaimedOneMore(h, c, id, token, event);
        assert (id, token, event) in s.reports <==> Claimed(h, id, token, event);
      }
    }
  }

  lemma OtherTracks(s: State, h: seq<Command>, owner: Agent, id: Id, c: Command)
    requires Tracks(s, h, owner, id) && !c.Report? && !c.Start? && c != Remove(id)
    ensures Tracks(Step(s, c), h + [c], owner, id)
  {
    LastLaunchOneMore(h, c, id);
    var t := Step(s, c);
    assert owner in t.active <==> EndAgent(owner) !in h + [c];
    if owner in t.active {
      forall token: Token, event: EventId
        ensures (id, token, event) in t.reports <==> Claimed(h + [c], id, token, event)
      {
        ClaimedOneMore(h, c, id, token, event);
        assert (id, token, event) in s.reports <==> Claimed(h, id, token, event);
      }
    }
  }

  lemma {:induction false} HistoryTracks(s: State, h: seq<Command>, id: Id)
    requires Unlaunched(s) && id in After(s, h).rows
    ensures id in s.rows && Tracks(After(s, h), h, s.rows[id].owner, id)
  {
    if h != [] {
      var before, c := h[..|h| - 1], h[|h| - 1];
      assert h == before + [c];
      HistoryTracks(s, before, id);
      if c.Report? || c.Start? {
        ReportTracks(After(s, before), before, s.rows[id].owner, id, c);
      } else {
        OtherTracks(After(s, before), before, s.rows[id].owner, id, c);
      }
    }
  }

  /** How one command moves the reported columns of one row. */
  lemma ReportedStep(s: State, h: seq<Command>, owner: Agent, id: Id, c: Command)
    requires Tracks(s, h, owner, id) && c != Remove(id)
    ensures
      var t := Step(s, c);
      && id in t.rows
      && t.rows[id].activity ==
           (if (c.Launch? || c.Clear?) && c.id == id then QUIET
            else if FirstArrival(h, owner, id, c) then Folded(s.rows[id].activity, EntryOf(c))
            else s.rows[id].activity)
      && t.rows[id].native ==
           (if c == Clear(id) then None
            else if c.Start? && FirstArrival(h, owner, id, c) then Some(c.native)
            else s.rows[id].native)
  {
    if Reporting(c, id) {
      AcceptedExactlyWhen(s, h, owner, id, c);
    }
  }

  /**
    Exactly once per launch. Under any retries, duplicates and deliveries for stale launches, the
    stored activity is the fold of the events heard since the last launch or clear, each once, in the
    order they first arrived; and the conversation is the one the last start that counted named. No
    lifecycle write, activation or other session's traffic moves either.
  */
  lemma {:induction false} ReportsCountOnce(s: State, h: seq<Command>, id: Id)
    requires Unlaunched(s) && id in After(s, h).rows
    ensures id in s.rows
    ensures After(s, h).rows[id].activity == FoldAll(Heard(h, s.rows[id].owner, id))
    ensures After(s, h).rows[id].native == Named(h, s.rows[id].owner, id)
  {
    if h != [] {
      var before, c := h[..|h| - 1], h[|h| - 1];
      HistoryTracks(s, before, id);
      ReportsCountOnce(s, before, id);
      var owner := s.rows[id].owner;
      ReportedStep(After(s, before), before, owner, id, c);
      if FirstArrival(before, owner, id, c) {
        FoldOneMore(Heard(before, owner, id), EntryOf(c));
      }
    }
  }

  /** The turn count: each completed turn of the launch once, and never past what 64 bits hold. */
  lemma TurnsAreCountedOnce(s: State, h: seq<Command>, id: Id)
    requires Unlaunched(s) && id in After(s, h).rows
    ensures id in s.rows
    ensures
      var completed := Completions(Heard(h, s.rows[id].owner, id));
      After(s, h).rows[id].activity.turns == if completed < U64_MAX then completed else U64_MAX
  {
    ReportsCountOnce(s, h, id);
    FoldRemembers(Heard(h, s.rows[id].owner, id));
  }

  /** Delivering a report again, at any time before another launch, changes nothing. */
  lemma RedeliveryChangesNothing(s: State, h: seq<Command>, at: nat, id: Id)
    requires Unlaunched(s) && id in After(s, h).rows
    requires at < |h| && Reporting(h[at], id) && forall i :: at < i < |h| ==> !Launches(h[i], id)
    ensures Step(After(s, h), h[at]) == After(s, h)
  {
    HistoryTracks(s, h, id);
    if LastLaunch(h, id).Some? {
      assert LastLaunch(h, id).value != at;
      assert Repeats(h, LastLaunch(h, id).value, id, h[at].token, h[at].event);
    }
    RefusedChangesNothing(After(s, h), h, s.rows[id].owner, id, h[at]);
  }

  lemma RefusedChangesNothing(s: State, h: seq<Command>, owner: Agent, id: Id, c: Command)
    requires Tracks(s, h, owner, id) && Reporting(c, id) && !FirstArrival(h, owner, id, c)
    ensures Step(s, c) == s
  {
    AcceptedExactlyWhen(s, h, owner, id, c);
  }

  /** Command `i` is the first delivery of a turn's end. */
  predicate EndsATurn(h: seq<Command>, i: nat, owner: Agent, id: Id)
    requires i < |h|
  {
    h[i].Report? && h[i].entry.event == TurnCompleted && FirstArrival(h[..i], owner, id, h[i])
  }

  /** If the count of turns is past an earlier reading of it, a turn's end was first reported in between. */
  lemma {:induction false} MoreTurnsMeansATurnEnded(s: State, h: seq<Command>, id: Id, read: nat)
    requires Unlaunched(s) && read <= |h| && id in After(s, h).rows && id in After(s, h[..read]).rows
    requires After(s, h).rows[id].activity.turns > After(s, h[..read]).rows[id].activity.turns
    ensures id in s.rows && exists i :: read <= i < |h| && EndsATurn(h, i, s.rows[id].owner, id)
    decreases |h|
  {
    assert h[..|h|] == h;
    if read < |h| {
      var n := |h| - 1;
      var before := h[..n];
      NoMoreTurnsOtherwise(s, h, id);
      var owner := s.rows[id].owner;
      if !EndsATurn(h, n, owner, id) {
        assert before[..read] == h[..read];
        MoreTurnsMeansATurnEnded(s, before, id, read);
        var i :| read <= i < n && EndsATurn(before, i, owner, id);
        EndsAsBefore(h, n, i, owner, id);
      }
    }
  }

  lemma NoMoreTurnsOtherwise(s: State, h: seq<Command>, id: Id)
    requires Unlaunched(s) && h != [] && id in After(s, h).rows
    ensures id in s.rows && id in After(s, h[..|h| - 1]).rows
    ensures !EndsATurn(h, |h| - 1, s.rows[id].owner, id) ==>
      After(s, h).rows[id].activity.turns <= After(s, h[..|h| - 1]).rows[id].activity.turns
  {
    var before, c := h[..|h| - 1], h[|h| - 1];
    HistoryTracks(s, before, id);
    ReportedStep(After(s, before), before, s.rows[id].owner, id, c);
  }

  lemma EndsAsBefore(h: seq<Command>, n: nat, i: nat, owner: Agent, id: Id)
    requires i < n <= |h|
    ensures EndsATurn(h[..n], i, owner, id) <==> EndsATurn(h, i, owner, id)
  {
    assert h[..n][..i] == h[..i];
  }

  predicate Observes(c: Command, id: Id) {
    c.Observe? && c.id == id
  }

  /** Command `i` put the session in the state that `row` has, from another, at the time that `row` has. */
  ghost predicate Entered(s: State, h: seq<Command>, id: Id, i: nat, row: LifecycleRow)
    requires i < |h|
  {
    && Observes(h[i], id) && h[i].lifecycle.state == row.lifecycle.state && row.since == Some(h[i].now)
    && id in After(s, h[..i]).rows && After(s, h[..i]).rows[id].lifecycle.lifecycle.state != row.lifecycle.state
    && forall j :: i < j < |h| && Observes(h[j], id) ==> h[j].lifecycle.state == row.lifecycle.state
  }

  /** Every observation found the session in the state it began in. */
  predicate Unmoved(first: LifecycleRow, h: seq<Command>, id: Id, row: LifecycleRow) {
    && row.since == first.since && row.lifecycle.state == first.lifecycle.state
    && forall j :: 0 <= j < |h| && Observes(h[j], id) ==> h[j].lifecycle.state == first.lifecycle.state
  }

  lemma EnteredStill(s: State, h: seq<Command>, c: Command, id: Id, i: nat, row: LifecycleRow)
    requires i < |h| && Entered(s, h, id, i, row) && (Observes(c, id) ==> c.lifecycle.state == row.lifecycle.state)
    ensures Entered(s, h + [c], id, i, row)
  {
    assert (h + [c])[..i] == h[..i];
  }

  /** How one command moves the lifecycle's state and time. */
  lemma LifecycleStep(s: State, c: Command, id: Id)
    requires id in Step(s, c).rows
    ensures id in s.rows
    ensures
      var was, now := s.rows[id].lifecycle, Step(s, c).rows[id].lifecycle;
      if Observes(c, id) && c.lifecycle.state != was.lifecycle.state
      then now.lifecycle.state == c.lifecycle.state && now.since == Some(c.now)
      else now.lifecycle.state == was.lifecycle.state && now.since == was.since
  {
  }

  /**
    How long a session has been in its state: since the observation that brought it there from
    another state, however often the same state was observed again.
  */
  lemma {:induction false} SinceTheStateChanged(s: State, h: seq<Command>, id: Id)
    requires id in After(s, h).rows
    ensures id in s.rows
    ensures
      || Unmoved(s.rows[id].lifecycle, h, id, After(s, h).rows[id].lifecycle)
      || exists i :: 0 <= i < |h| && Entered(s, h, id, i, After(s, h).rows[id].lifecycle)
  {
    if h != [] {
      var n := |h| - 1;
      var before, c := h[..n], h[n];
      assert h == before + [c];
      LifecycleStep(After(s, before), c, id);
      SinceTheStateChanged(s, before, id);
      var was, now := After(s, before).rows[id].lifecycle, After(s, h).rows[id].lifecycle;
      if Observes(c, id) && c.lifecycle.state != was.lifecycle.state {
        assert Entered(s, h, id, n, now);
      } else if i :| 0 <= i < n && Entered(s, before, id, i, was) {
        EnteredStill(s, before, c, id, i, was);
        assert Entered(s, h, id, i, now);
      }
    }
  }

  /** The initial prompt goes to one launch only: once a launch is recorded, none is left to hand out. */
  lemma {:induction false} PromptGoesOutOnce(s: State, h: seq<Command>, id: Id)
    requires id in After(s, h).rows
    ensures id in s.rows
    ensures After(s, h).rows[id].prompt == if LastLaunch(h, id).Some? then None else s.rows[id].prompt
  {
    if h != [] {
      var before := h[..|h| - 1];
      assert id in After(s, before).rows;
      PromptGoesOutOnce(s, before, id);
    }
  }

  /** Lifecycle and reports are apart: neither kind of transaction writes the other's columns. */
  lemma LifecycleAndReportsApart(s: State, c: Command, id: Id)
    requires id in s.rows && id in Step(s, c).rows
    ensures
      var (row, next) := (s.rows[id], Step(s, c).rows[id]);
      && (next.lifecycle != row.lifecycle ==> c.Observe? && c.id == id && next == row.(lifecycle := next.lifecycle))
      && (next.activity != row.activity || next.native != row.native ==>
            && c.id == id && (c.Report? || c.Start? || c.Launch? || c.Clear?)
            && next.lifecycle == row.lifecycle && next.generation == row.generation)
  {
  }
}
