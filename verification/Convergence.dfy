/**
  Waiting for an agent to converge (agentctl/src/control_plane/convergence.rs).

  A waiter wakes a pass and then rereads the stored agent until the row it reads decides the wait.
  The rows it reads are given, one for each reading; a wait that they leave undecided goes on.
*/
module Convergence {
  import opened Wrappers
  import opened AgentStore
  import Lifecycle = AgentLifecycle
  import R = AgentRuns

  datatype WaitPolicy = FirstPass | UntilConverged

  datatype Failure = Missing | Gone | InvalidState | Unresponsive | PassFailed(kind: FailureKind)

  datatype Verdict = Undecided | Converged | Refused(failure: Failure)

  /** What a stored row says of the wait. */
  function Outcome(row: Row): Verdict {
    var stopped := row.desired.runState == Stopped;
    var current := row.status.observedGeneration == row.desired.generation;
    if current && ((stopped && row.status.IsStopped()) || (!stopped && row.status.IsReady())) then Converged
    else if current && row.status.failure == Some(Invalid) && !row.status.ready.Unreported? then Refused(InvalidState)
    else if !stopped && row.status.unresponsive then Refused(Unresponsive)
    else Undecided
  }

  /** A reading: an agent that is gone or being deleted ends the wait as a conflict. */
  predicate Present(reading: Option<Row>) {
    reading.Some? && !reading.value.deleting
  }

  predicate Decides(reading: Option<Row>) {
    !Present(reading) || !Outcome(reading.value).Undecided?
  }

  datatype Answer = Waiting | Answered(record: Row) | Failed(failure: Failure)

  /** The answer of the first reading that decides. */
  function FirstDecision(readings: seq<Option<Row>>): Answer
    decreases |readings|
  {
    if readings == [] then Waiting
    else if !Present(readings[0]) then Failed(Gone)
    else
      match Outcome(readings[0].value)
      case Undecided => FirstDecision(readings[1..])
      case Converged => Answered(readings[0].value)
      case Refused(failure) => Failed(failure)
  }

  /** `converge`, over the result of the pass it woke and the rows it reads after that. */
  method Converge(
    wait: WaitPolicy, found: Option<Row>, woken: Result<(), FailureKind>, after: Option<Row>, readings: seq<Option<Row>>
  )
      returns (answer: Answer)
    ensures found.None? ==> answer == Failed(Missing)
    ensures found.Some? && !(Present(found) && Present(after)) ==> answer == Failed(Gone)
    ensures Present(found) && Present(after) && wait.FirstPass? && woken.Ok? ==> answer == Answered(after.value)
    ensures Present(found) && Present(after) && wait.FirstPass? && woken.Err? ==>
      answer == Failed(if after.value.status.unresponsive then Unresponsive else PassFailed(woken.error))
    ensures Present(found) && Present(after) && wait.UntilConverged? ==>
      answer == if woken == Err(Invalid) then Failed(PassFailed(Invalid)) else FirstDecision(readings)
  {
    if found.None? { return Failed(Missing); }
    if !Present(found) { return Failed(Gone); }
    if !Present(after) { return Failed(Gone); }
    match wait {
      case FirstPass =>
        if woken.Ok? { return Answered(after.value); }
        return Failed(if after.value.status.unresponsive then Unresponsive else PassFailed(woken.error));
      case UntilConverged =>
        if woken == Err(Invalid) { return Failed(PassFailed(Invalid)); }
    }
    for i := 0 to |readings|
      invariant FirstDecision(readings[i..]) == FirstDecision(readings)
    {
      assert readings[i..][1..] == readings[i + 1..];
      if !Present(readings[i]) { return Failed(Gone); }
      match Outcome(readings[i].value) {
        case Undecided =>
        case Converged => return Answered(readings[i].value);
        case Refused(failure) => return Failed(failure);
      }
    }
    return Waiting;
  }

  /** The wait ends at the first reading that decides it, and not before. */
  lemma {:induction false} DecidedByTheFirst(readings: seq<Option<Row>>, i: nat)
    requires i < |readings| && Decides(readings[i]) && forall j :: 0 <= j < i ==> !Decides(readings[j])
    ensures FirstDecision(readings) == (if !Present(readings[i]) then Failed(Gone)
                                        else if Outcome(readings[i].value).Converged? then Answered(readings[i].value)
                                        else Failed(Outcome(readings[i].value).failure))
    decreases i
  {
    if i > 0 {
      assert !Decides(readings[0]);
      DecidedByTheFirst(readings[1..], i - 1);
    }
  }

  lemma {:induction false} WaitsWhileUndecided(readings: seq<Option<Row>>)
    ensures FirstDecision(readings).Waiting? <==> forall i :: 0 <= i < |readings| ==> !Decides(readings[i])
    decreases |readings|
  {
    if readings != [] {
      WaitsWhileUndecided(readings[1..]);
      if !Decides(readings[0]) {
        forall i | 0 < i < |readings| ensures readings[i] == readings[1..][i - 1] {}
      }
    }
  }

  lemma {:induction false} AnsweredIsRead(readings: seq<Option<Row>>) returns (i: nat)
    requires FirstDecision(readings).Answered?
    ensures i < |readings| && readings[i] == Some(FirstDecision(readings).record) &&
      Outcome(FirstDecision(readings).record).Converged?
    decreases |readings|
  {
    if Outcome(readings[0].value).Undecided? {
      var j := AnsweredIsRead(readings[1..]);
      i := j + 1;
    } else {
      i := 0;
    }
  }

  /**
    A wait until converged answers only with a row it read, of an agent for which a pass that itself
    read the row's generation achieved what it asks for, earlier in the run: it stopped the sandbox,
    or it recorded Ready with no restart left to carry out. `at` says where in the run each reading is.
  */
  lemma ConvergedWaitIsSound(
    states: seq<Lifecycle.Agent>, events: seq<Lifecycle.Event>, at: seq<nat>, readings: seq<Option<Row>>
  )
    requires R.FromNew(states, events) && |at| == |readings|
    requires forall k :: 0 <= k < |readings| ==> at[k] < |states| && readings[k] == states[at[k]].row
    requires FirstDecision(readings).Answered?
    ensures exists i ::
      && 0 <= i < |readings| && readings[i] == Some(FirstDecision(readings).record)
      && R.Achieved(states, events, at[i])
  {
    var i := AnsweredIsRead(readings);
    R.ConvergedWasAchieved(states, events, at[i]);
  }
}
