/**
  Watching for changes (agentctl/src/resources.rs), between the writers that advance the history
  (agentctl/src/persistence/mod.rs, `Database::request`) and a watcher that reads it
  (agentctl/src/control_api/server.rs, `handle_resources_watch`).

  A watcher is told that something changed, never what; it reads the state again. What must not
  happen is that it waits for a change it has not seen.
*/
module ChangeHistory {
  import opened Wrappers

  const WRAP: nat := 0x1_0000_0000_0000_0000

  type Epoch = nat
  type Write = nat

  /** Which daemon process, and its sequence number, which wraps. */
  datatype Revision = Revision(epoch: Epoch, sequence: nat)

  // ----- the history -----

  class Changes {
    const epoch: Epoch
    var sequence: nat

    constructor (epoch: Epoch)
      ensures this.epoch == epoch && sequence == 0
    {
      this.epoch := epoch;
      sequence := 0;
    }

    method Bump()
      requires sequence < WRAP
      modifies this
      ensures sequence < WRAP && sequence == (old(sequence) + 1) % WRAP
    {
      sequence := if sequence == WRAP - 1 then 0 else sequence + 1;
    }

    function Current(): Revision
      reads this
    {
      Revision(epoch, sequence)
    }

    /** `changed_since`, up to where it would wait: whether it returns at once. */
    method HasMoved(after: Option<Revision>) returns (moved: bool)
      ensures moved <==> after != Some(Current())
    {
      if after.None? || after.value.epoch != epoch { return true; }
      return sequence != after.value.sequence;
    }
  }

  // ----- writers and a watcher -----

  /** A moment in the history: the process, and how often it had advanced by then, not wrapped. */
  datatype Moment = Moment(epoch: Epoch, count: nat)

  function RevisionAt(m: Moment): Revision {
    Revision(m.epoch, m.count % WRAP)
  }

  predicate NotAfter(a: Moment, b: Moment) {
    a.epoch < b.epoch || (a.epoch == b.epoch && a.count <= b.count)
  }

  /** What a watch returned: the moment it read the revision, and the writes each list showed the effect of. */
  datatype Snapshot = Snapshot(taken: Moment, agents: set<Write>, sessions: set<Write>)

  /** Where the watcher is: at an await of `handle_resources_watch`, or between calls. */
  datatype Phase =
    | Between
    | Parked(after: Revision)
    | Woken
    | HasRevision(taken: Moment)
    | HasAgents(taken: Moment, agents: set<Write>)

  /**
    `inEffect` are the writes the database has made; `completed` those whose request returned, each
    with the moment its own bump made. A request that is dropped, or whose process dies, after its
    write took effect never completes.
  */
  datatype State = State(
    now: Moment, inEffect: set<Write>, completed: map<Write, Moment>, phase: Phase, last: Option<Snapshot>
  )

  const START := State(Moment(0, 0), {}, map[], Between, None)

  datatype Event =
    | TakeEffect(write: Write)
    | Complete(write: Write)
    | Progress
    | Restart
    | Call(after: Option<Revision>)
    | Wake
    | KeepAlive
    | ReadRevision
    | ReadAgents
    | ReadSessions

  predicate Enabled(s: State, e: Event) {
    match e
    case TakeEffect(write) => write !in s.inEffect
    case Complete(write) => write in s.inEffect && write !in s.completed
    case Call(_) => s.phase == Between
    case Wake => s.phase.Parked? && RevisionAt(s.now) != s.phase.after
    case KeepAlive => s.phase.Parked?
    case ReadRevision => s.phase == Woken
    case ReadAgents => s.phase.HasRevision?
    case ReadSessions => s.phase.HasAgents?
    case _ => true
  }

  function Next(s: State, e: Event): State
    requires Enabled(s, e)
  {
    match e
    case TakeEffect(write) => s.(inEffect := s.inEffect + {write})
    case Complete(write) =>
      var bumped := Moment(s.now.epoch, s.now.count + 1);
      s.(now := bumped, completed := s.completed[write := bumped])
    case Progress => s.(now := Moment(s.now.epoch, s.now.count + 1))
    case Restart => s.(now := Moment(s.now.epoch + 1, 0), phase := Between)
    case Call(after) => s.(phase := if after == Some(RevisionAt(s.now)) then Parked(after.value) else Woken)
    case Wake => s.(phase := Woken)
    case KeepAlive => s.(phase := Woken)
    case ReadRevision => s.(phase := HasRevision(s.now))
    case ReadAgents => s.(phase := HasAgents(s.phase.taken, s.inEffect))
    case ReadSessions => s.(phase := Between, last := Some(Snapshot(s.phase.taken, s.phase.agents, s.inEffect)))
  }

  // ----- what every step keeps -----

  /** Every write completed by the moment is in the set. */
  ghost predicate Covers(seen: set<Write>, s: State, taken: Moment) {
    forall w :: w in s.completed && NotAfter(s.completed[w], taken) ==> w in seen
  }

  ghost predicate Invariant(s: State) {
    && (forall w :: w in s.completed ==> w in s.inEffect && NotAfter(s.completed[w], s.now))
    && (s.phase.HasRevision? ==> NotAfter(s.phase.taken, s.now))
    && (s.phase.HasAgents? ==> NotAfter(s.phase.taken, s.now) && Covers(s.phase.agents, s, s.phase.taken))
    && (s.last.Some? ==>
          && NotAfter(s.last.value.taken, s.now)
          && Covers(s.last.value.agents, s, s.last.value.taken) && Covers(s.last.value.sessions, s, s.last.value.taken))
    && (s.phase.Parked? ==> s.phase.after.epoch == s.now.epoch)
  }

  lemma NextKeeps(s: State, e: Event)
    requires Invariant(s) && Enabled(s, e)
    ensures Invariant(Next(s, e))
  {
  }

  ghost predicate Run(states: seq<State>) {
    && states != [] && states[0] == START
    && forall i :: 0 <= i < |states| - 1 ==> Steps(states[i], states[i + 1])
  }

  ghost predicate Steps(s: State, t: State) {
    exists e :: Enabled(s, e) && t == Next(s, e)
  }

  ghost predicate Reachable(s: State) {
    exists states :: Run(states) && states[|states| - 1] == s
  }

  lemma {:induction false} RunKeeps(states: seq<State>, i: nat)
    requires Run(states) && i < |states|
    ensures Invariant(states[i])
    decreases i
  {
    if i > 0 {
      RunKeeps(states, i - 1);
      assert Steps(states[i - 1], states[i]);
      var e :| Enabled(states[i - 1], e) && states[i] == Next(states[i - 1], e);
      NextKeeps(states[i - 1], e);
    }
  }

  /** Both lists of the last snapshot show every write whose request has completed, by now. */
  ghost predicate UpToDate(s: State) {
    s.last.Some? ==> forall w :: w in s.completed ==> w in s.last.value.agents && w in s.last.value.sessions
  }

  /**
    A watcher that waits on the revision it last read, with nothing to wake it, has missed nothing:
    what it last read shows every completed write, of this process and of earlier ones, unless the
    sequence has wrapped all the way around since.
  */
  lemma WaitingMissesNothing(s: State)
    requires Reachable(s) && s.last.Some?
    requires s.phase == Parked(RevisionAt(s.last.value.taken)) && !Enabled(s, Wake)
    ensures s.now.epoch == s.last.value.taken.epoch
    ensures s.now.count < s.last.value.taken.count + WRAP ==> UpToDate(s)
  {
    var states :| Run(states) && states[|states| - 1] == s;
    RunKeeps(states, |states| - 1);
    var taken := s.last.value.taken;
    assert taken.count <= s.now.count && s.now.count % WRAP == taken.count % WRAP;
    if s.now.count < taken.count + WRAP {
      SameSequence(taken.count, s.now.count);
    }
  }

  lemma SameSequence(a: nat, b: nat)
    requires a <= b < a + WRAP && a % WRAP == b % WRAP
    ensures a == b
  {
    assert a == WRAP * (a / WRAP) + a % WRAP && b == WRAP * (b / WRAP) + b % WRAP;
  }

  /** A write that completes while the watcher waits can be seen by it at once. */
  lemma CompletionWakes(s: State, write: Write)
    requires Reachable(s) && s.phase == Parked(RevisionAt(s.now)) && Enabled(s, Complete(write))
    ensures Enabled(Next(s, Complete(write)), Wake)
  {
    var count := s.now.count;
    if (count + 1) % WRAP == count % WRAP {
      SameSequence(count, count + 1);
    }
  }

  // ----- the wrap -----

  lemma RunOneMore(states: seq<State>, e: Event)
    requires Run(states) && Enabled(states[|states| - 1], e)
    ensures Run(states + [Next(states[|states| - 1], e)])
  {
    var s := states[|states| - 1];
    var longer := states + [Next(s, e)];
    forall i | 0 <= i < |longer| - 1
      ensures Steps(longer[i], longer[i + 1])
    {
      if i < |states| - 1 { assert Steps(states[i], states[i + 1]); }
    }
  }

  lemma ReachOneMore(s: State, e: Event)
    requires Reachable(s) && Enabled(s, e)
    ensures Reachable(Next(s, e))
  {
    var states :| Run(states) && states[|states| - 1] == s;
    RunOneMore(states, e);
    var longer := states + [Next(s, e)];
    assert longer[|longer| - 1] == Next(s, e);
  }

  lemma {:induction false} ReachManyBumps(s: State, n: nat)
    requires Reachable(s)
    ensures Reachable(s.(now := Moment(s.now.epoch, s.now.count + n)))
    decreases n
  {
    if n > 0 {
      ReachManyBumps(s, n - 1);
      ReachOneMore(s.(now := Moment(s.now.epoch, s.now.count + n - 1)), Progress);
    } else {
      assert s.(now := Moment(s.now.epoch, s.now.count + 0)) == s;
    }
  }

  /** A watcher that has read the state before anything was written. */
  function ReadNothing(): State {
    State(Moment(0, 0), {}, map[], Between, Some(Snapshot(Moment(0, 0), {}, {})))
  }

  lemma ReadNothingIsReached()
    ensures Reachable(ReadNothing())
  {
    assert Run([START]) && [START][0] == START;
    assert Reachable(START);
    var called := Next(START, Call(None));
    ReachOneMore(START, Call(None));
    var at := Next(called, ReadRevision);
    ReachOneMore(called, ReadRevision);
    var half := Next(at, ReadAgents);
    ReachOneMore(at, ReadAgents);
    ReachOneMore(half, ReadSessions);
    assert Next(half, ReadSessions) == ReadNothing();
  }

  /**
    The condition on the wrap is needed: a watcher that stays away while the sequence goes all the
    way around waits for a change although one that completed is not in what it last read.
  */
  lemma WrapHidesAWrite()
    ensures exists s ::
      && Reachable(s) && s.last.Some? && s.phase == Parked(RevisionAt(s.last.value.taken)) && !Enabled(s, Wake)
      && s.now.count == s.last.value.taken.count + WRAP && !UpToDate(s)
  {
    ReadNothingIsReached();
    var read := ReadNothing();
    var effected := Next(read, TakeEffect(7));
    ReachOneMore(read, TakeEffect(7));
    var completed := Next(effected, Complete(7));
    ReachOneMore(effected, Complete(7));
    assert completed == State(Moment(0, 1), {7}, map[7 := Moment(0, 1)], Between, Some(Snapshot(Moment(0, 0), {}, {})));
    ReachManyBumps(completed, WRAP - 1);
    var around := completed.(now := Moment(0, WRAP));
    assert RevisionAt(around.now) == Revision(0, 0);
    var parked := Next(around, Call(Some(Revision(0, 0))));
    ReachOneMore(around, Call(Some(Revision(0, 0))));
    assert parked == around.(phase := Parked(Revision(0, 0)));
    assert 7 in parked.completed && 7 !in parked.last.value.agents;
    assert RevisionAt(parked.last.value.taken) == Revision(0, 0);
  }
}
