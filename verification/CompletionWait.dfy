/**
  Waiting for a prompted turn (agentctl/src/sessions/service.rs, `wait_for_completion`), and the
  session state each poll reads (agentctl/src/sessions/mod.rs).
*/
module CompletionWait {
  import opened Wrappers
  import opened Activity
  import Reports = SessionReports

  // ----- the state a poll reads -----

  datatype State = Starting | Working | WaitingForInput | Idle | Archiving | Archived | Failed

  /** A session as it is stored: the reconciler's half, the reports' half, and whether it is archived. */
  datatype Session = Session(
    lifecycle: Reports.Lifecycle,
    lifecycleSince: Option<int>,
    archivedAt: Option<int>,
    reporting: bool,
    activity: Activity)

  function RunningState(s: Session): State {
    if !s.reporting then Starting
    else
      match s.activity.phase
      case Unknown => Starting
      case WaitingForInput => State.WaitingForInput
      case Working => State.Working
  }

  function HarnessState(s: Session): State {
    match s.lifecycle.state
    case Failed => State.Failed
    case Idle => State.Idle
    case Archived => State.Archived
    case Starting => State.Starting
    case Resuming => State.Starting
    case Running => RunningState(s)
  }

  function Entered(state: State, s: Session): (State, Option<int>) {
    if state == State.Working || state == State.WaitingForInput then (state, s.activity.phaseSince)
    else (state, s.lifecycleSince)
  }

  /** `Status::observed`. */
  function Observed(s: Session): (State, Option<int>) {
    var stopped := s.lifecycle.state.Archived?;
    var stopFailed := stopped && s.lifecycle.failure.Some?;
    if s.archivedAt.Some? && stopped && !stopFailed then (State.Archived, s.lifecycleSince)
    else if s.archivedAt.Some? then (Archiving, s.archivedAt)
    else if stopFailed then Entered(RunningState(s), s)
    else if stopped then (State.Idle, s.lifecycleSince)
    else Entered(HarnessState(s), s)
  }

  /**
    What a state says about the halves it is derived from, each state exactly: an archived session
    is Archived only once its harness stopped; work and waiting are read from reports, of a harness
    that runs or may still run because stopping it failed.
  */
  lemma ObservedMeans(s: Session)
    ensures Observed(s).0 == State.Archived <==>
      s.archivedAt.Some? && s.lifecycle.state.Archived? && s.lifecycle.failure.None?
    ensures Observed(s).0 == Archiving <==>
      s.archivedAt.Some? && !(s.lifecycle.state.Archived? && s.lifecycle.failure.None?)
    ensures Observed(s).0 == State.Failed <==> s.archivedAt.None? && s.lifecycle.state.Failed?
    ensures Observed(s).0 == State.Idle <==>
      s.archivedAt.None? && (s.lifecycle.state.Idle? || (s.lifecycle.state.Archived? && s.lifecycle.failure.None?))
    ensures Observed(s).0 == State.WaitingForInput || Observed(s).0 == State.Working <==>
      && s.archivedAt.None? && s.reporting && s.activity.phase != Unknown
      && (s.lifecycle.state.Running? || (s.lifecycle.state.Archived? && s.lifecycle.failure.Some?))
    ensures Observed(s).0 == State.WaitingForInput ==> s.activity.phase == Phase.WaitingForInput
    ensures Observed(s).0 == State.Working ==> s.activity.phase == Phase.Working
  {
  }

  // ----- the wait -----

  /** One read of the session, or the error that ends the wait. */
  datatype Poll = Seen(session: Session) | Unreadable

  datatype End = FailedMeanwhile | Stopped | WasArchived | CouldNotRead

  /** The harness is at its prompt, as far as the poll can tell. */
  predicate Waiting(s: Session) {
    || Observed(s).0 == State.WaitingForInput
    || (Observed(s).0 == Archiving && s.activity.phase == Phase.WaitingForInput)
  }

  function Ends(p: Poll): Option<End> {
    match p
    case Unreadable => Some(CouldNotRead)
    case Seen(s) =>
      match Observed(s).0
      case Failed => Some(FailedMeanwhile)
      case Idle => Some(Stopped)
      case Archived => Some(WasArchived)
      case _ => None
  }

  predicate Live(polls: seq<Poll>, n: nat)
    requires n <= |polls|
  {
    forall i :: 0 <= i < n ==> Ends(polls[i]).None?
  }

  /** More turns than before the prompt, and than at every earlier poll that saw the harness not waiting. */
  predicate Advanced(polls: seq<Poll>, prompted: nat, n: nat, turns: nat)
    requires n <= |polls| && Live(polls, n)
  {
    turns > prompted && forall i :: 0 <= i < n && !Waiting(polls[i].session) ==> polls[i].session.activity.turns < turns
  }

  /** Polls `n - 1` and `n` both saw the harness waiting, with the same activity, and turns that count. */
  predicate Completes(polls: seq<Poll>, prompted: nat, n: nat)
    requires n < |polls|
  {
    && n > 0 && Live(polls, n + 1)
    && Waiting(polls[n - 1].session) && Waiting(polls[n].session)
    && polls[n - 1].session.activity == polls[n].session.activity
    && Advanced(polls, prompted, n, polls[n].session.activity.turns)
  }

  datatype Outcome = Completed(at: nat) | Ended(at: nat, end: End) | StillWaiting

  function Max(a: nat, b: nat): nat {
    if a < b then b else a
  }

  predicate BaseTurns(polls: seq<Poll>, prompted: nat, n: nat, base: nat)
    requires n <= |polls| && Live(polls, n)
  {
    && prompted <= base
    && (forall i :: 0 <= i < n && !Waiting(polls[i].session) ==> polls[i].session.activity.turns <= base)
    && (|| base == prompted
        || exists i :: 0 <= i < n && !Waiting(polls[i].session) && polls[i].session.activity.turns == base)
  }

  /**
    `wait_for_completion`, given what its polls read. It returns at the first poll that completes
    the wait or ends it, and says which: nothing shorter than two equal waiting polls completes it,
    and none that qualify are passed over.
  */
  method WaitForCompletion(polls: seq<Poll>, prompted: nat) returns (outcome: Outcome)
    ensures outcome.Completed? ==> outcome.at < |polls| && Completes(polls, prompted, outcome.at)
    ensures outcome.Ended? ==> outcome.at < |polls| && Ends(polls[outcome.at]) == Some(outcome.end)
    ensures forall i :: 0 <= i < (if outcome.StillWaiting? then |polls| else outcome.at) ==>
      Ends(polls[i]).None? && !Completes(polls, prompted, i)
  {
    var before := prompted;
    var settling: Option<Activity> := None;
    var n := 0;
    while n < |polls|
      invariant 0 <= n <= |polls| && Live(polls, n)
      invariant forall i :: 0 <= i < n ==> !Completes(polls, prompted, i)
      invariant BaseTurns(polls, prompted, n, before)
      invariant settling.Some? <==>
        n > 0 && Waiting(polls[n - 1].session) && Advanced(polls, prompted, n, polls[n - 1].session.activity.turns)
      invariant settling.Some? ==> settling.value == polls[n - 1].session.activity
    {
      var end := Ends(polls[n]);
      if end.Some? {
        return Ended(n, end.value);
      }
      assert Live(polls, n + 1);
      var s := polls[n].session;
      assert s.activity.turns > before <==> Advanced(polls, prompted, n, s.activity.turns);
      if s.activity.turns > before && Waiting(s) {
        if settling == Some(s.activity) {
          return Completed(n);
        }
        settling := Some(s.activity);
      } else {
        before := Max(before, s.activity.turns);
        settling := None;
      }
      n := n + 1;
    }
    return StillWaiting;
  }

  /**
    What completion says of the harness: if the last poll read what the reports stored by then, and
    the wait began from what they stored at `read`, the end of a turn was first reported in between.
  */
  lemma CompletedMeansATurnEnded(
    polls: seq<Poll>, n: nat, s: Reports.State, h: seq<Reports.Command>, id: Reports.Id, read: nat
  )
    requires n < |polls| && Reports.Unlaunched(s) && read <= |h|
    requires id in Reports.After(s, h).rows && id in Reports.After(s, h[..read]).rows
    requires Completes(polls, Reports.After(s, h[..read]).rows[id].activity.turns, n)
    requires polls[n].session.activity == Reports.After(s, h).rows[id].activity
    ensures id in s.rows && exists i :: read <= i < |h| && Reports.EndsATurn(h, i, s.rows[id].owner, id)
  {
    Reports.MoreTurnsMeansATurnEnded(s, h, id, read);
  }
}
