/**
  Admission and draining of the control API (agentctl/src/control_api/server.rs). The server runs on
  one thread, so what happens between two awaits is one step; every await may instead end with its
  future dropped.
*/
module Drain {
  import opened Wrappers

  type RequestId = nat

  datatype LifecycleState = Running | Checking | Draining

  /** Where the one shutdown check is: at an await of `handle_shutdown`. */
  datatype Stage =
    | FirstReadiness
    | Parked(notified: bool)
    | SecondReadiness

  datatype Check = Check(request: RequestId, stage: Stage)

  /**
    `active` is the counter; `guards` are the requests that hold a `MutationGuard`, and `check` the
    one that holds the `ShutdownCheck`.
  */
  datatype State = State(lifecycle: LifecycleState, active: int, guards: set<RequestId>, check: Option<Check>)

  const START := State(Running, 0, {}, None)

  datatype Readiness = Clear | Blocked | Failed

  datatype Event =
    | Arrive(request: RequestId, mutating: bool)
    | Finish(request: RequestId)
    | Shutdown(request: RequestId, upgrade: bool)
    | Answer(readiness: Readiness)
    | Wake
    | TimeOut
    | Drop

  datatype Reply = Admitted | Served | Refused | NotForUpgrade | Pending | Drained | NotReady | Unsent

  // ----- steps -----

  /** The guard is dropped, with its request; the last one wakes the check. */
  function Released(s: State, request: RequestId): State
  {
    var remaining := s.active - 1;
    var woken :=
      match s.check
      case Some(Check(r, Parked(_))) => if remaining == 0 then Some(Check(r, Parked(true))) else s.check
      case _ => s.check;
    s.(active := remaining, guards := s.guards - {request}, check := woken)
  }

  /** The check looks at the counter, and sleeps unless it is zero. */
  function LookedAt(s: State, request: RequestId): State {
    s.(check := Some(Check(request, if s.active == 0 then SecondReadiness else Parked(false))))
  }

  /** The check is dropped uncommitted. */
  function Abandoned(s: State): State {
    s.(lifecycle := Running, check := None)
  }

  function Committed(s: State): State {
    s.(lifecycle := Draining, check := None)
  }

  predicate Enabled(s: State, e: Event) {
    match e
    case Arrive(request, _) => request !in s.guards && (s.check.Some? ==> s.check.value.request != request)
    case Finish(request) => request in s.guards
    case Shutdown(request, _) => request !in s.guards && (s.check.Some? ==> s.check.value.request != request)
    case Answer(_) => s.check.Some? && !s.check.value.stage.Parked?
    case Wake => s.check.Some? && s.check.value.stage == Parked(true)
    case TimeOut => s.check.Some?
    case Drop => s.check.Some?
  }

  function Next(s: State, e: Event): (State, Reply)
    requires Enabled(s, e)
  {
    match e
    case Arrive(request, mutating) =>
      if !mutating then (s, Served)
      else if s.lifecycle != Running then (s, Refused)
      else (s.(active := s.active + 1, guards := s.guards + {request}), Admitted)
    case Finish(request) => (Released(s, request), Served)
    case Shutdown(request, upgrade) =>
      if !upgrade then (s, NotForUpgrade)
      else if s.lifecycle != Running then (s, Refused)
      else (s.(lifecycle := Checking, check := Some(Check(request, FirstReadiness))), Pending)
    case Answer(readiness) =>
      if readiness != Clear then (Abandoned(s), NotReady)
      else if s.check.value.stage == SecondReadiness then (Committed(s), Drained)
      else (LookedAt(s, s.check.value.request), Pending)
    case Wake => (LookedAt(s, s.check.value.request), Pending)
    case TimeOut => (Abandoned(s), NotReady)
    case Drop => (Abandoned(s), Unsent)
  }

  // ----- what every step keeps -----

  predicate Invariant(s: State) {
    && s.active == |s.guards|
    && (s.check.Some? <==> s.lifecycle == Checking)
    && (s.check.Some? ==> s.check.value.request !in s.guards)
    && (s.lifecycle == Draining ==> s.guards == {})
    && (s.check.Some? && s.check.value.stage == SecondReadiness ==> s.guards == {})
    && (s.check.Some? && s.check.value.stage == Parked(false) ==> s.guards != {})
  }

  lemma NextKeeps(s: State, e: Event)
    requires Invariant(s) && Enabled(s, e)
    ensures Invariant(Next(s, e).0)
  {
    if e.Finish? { FinishKeeps(s, e); }
    else if e.Answer? || e.Wake? { LookKeeps(s, e); }
  }

  lemma FinishKeeps(s: State, e: Event)
    requires Invariant(s) && Enabled(s, e) && e.Finish?
    ensures Invariant(Next(s, e).0)
  {
    assert |s.guards - {e.request}| == |s.guards| - 1;
    if s.active == 1 { assert s.guards - {e.request} == {}; }
  }

  lemma LookKeeps(s: State, e: Event)
    requires Invariant(s) && Enabled(s, e) && (e.Answer? || e.Wake?)
    ensures Invariant(Next(s, e).0)
  {
    assert s.active == 0 <==> s.guards == {};
  }

  /** A run, one state before and after each event. */
  ghost predicate Run(states: seq<State>, events: seq<Event>) {
    && |states| == |events| + 1 && states[0] == START
    && forall i :: 0 <= i < |events| ==> Enabled(states[i], events[i]) && states[i + 1] == Next(states[i], events[i]).0
  }

  lemma {:induction false} RunKeeps(states: seq<State>, events: seq<Event>, i: nat)
    requires Run(states, events) && i <= |events|
    ensures Invariant(states[i])
    decreases i
  {
    if i > 0 {
      RunKeeps(states, events, i - 1);
      assert Enabled(states[i - 1], events[i - 1]);
      NextKeeps(states[i - 1], events[i - 1]);
    }
  }

  // ----- draining -----

  /**
    Once draining, always draining: no mutation is in flight, at that moment or ever again, and none
    is admitted.
  */
  lemma {:induction false} DrainingAdmitsNothing(states: seq<State>, events: seq<Event>, i: nat, j: nat)
    requires Run(states, events) && i <= j <= |events| && states[i].lifecycle == Draining
    ensures states[j].lifecycle == Draining && states[j].active == 0 && states[j].guards == {} && states[j].check.None?
    ensures j < |events| ==> Next(states[j], events[j]).1 != Admitted
    decreases j
  {
    RunKeeps(states, events, j);
    if i < j {
      DrainingAdmitsNothing(states, events, i, j - 1);
      assert Enabled(states[j - 1], events[j - 1]);
    }
  }

  /** No mutation is live, and the check is waiting for its second readiness answer. */
  predicate Quiet(s: State) {
    s.check.Some? && s.check.value.stage == SecondReadiness && s.guards == {} && s.active == 0
  }

  /**
    At `from` the check that waits at `i` asked its second readiness question, with no mutation live;
    since then none has been, and the question was not answered before `i`.
  */
  ghost predicate AskedQuietly(states: seq<State>, events: seq<Event>, from: nat, i: nat)
    requires |states| == |events| + 1 && i <= |events|
  {
    && from < i
    && (events[from].Wake? || events[from] == Answer(Clear))
    && states[from].check.Some? && states[from].check.value.stage != SecondReadiness && states[from].guards == {}
    && states[i].check.Some? && states[from].check.value.request == states[i].check.value.request
    && forall k :: from < k <= i ==> Quiet(states[k]) && (k < i ==> !events[k].Answer?)
  }

  lemma AskedAt(states: seq<State>, events: seq<Event>, from: nat)
    requires Run(states, events) && from < |events| && Invariant(states[from])
    requires states[from + 1].check.Some? && states[from + 1].check.value.stage == SecondReadiness
    requires states[from].check != states[from + 1].check
    ensures AskedQuietly(states, events, from, from + 1)
  {
    assert Enabled(states[from], events[from]);
  }

  lemma StillAsked(states: seq<State>, events: seq<Event>, from: nat, i: nat)
    requires Run(states, events) && i < |events| && AskedQuietly(states, events, from, i)
    requires Invariant(states[i + 1]) && states[i].check == states[i + 1].check
    ensures AskedQuietly(states, events, from, i + 1)
  {
    assert Enabled(states[i], events[i]);
  }

  lemma {:induction false} SecondReadinessIsQuiet(states: seq<State>, events: seq<Event>, i: nat) returns (from: nat)
    requires Run(states, events) && i <= |events|
    requires states[i].check.Some? && states[i].check.value.stage == SecondReadiness
    ensures AskedQuietly(states, events, from, i)
    decreases i
  {
    RunKeeps(states, events, i);
    RunKeeps(states, events, i - 1);
    if states[i - 1].check == states[i].check {
      from := SecondReadinessIsQuiet(states, events, i - 1);
      StillAsked(states, events, from, i - 1);
    } else {
      from := i - 1;
      AskedAt(states, events, from);
    }
  }

  /**
    The server drains only on a clear answer to a readiness question that the same check asked when
    no mutation was live; from the question to the answer none was.
  */
  lemma DrainsOnAQuietAnswer(states: seq<State>, events: seq<Event>, i: nat)
    requires Run(states, events) && i < |events|
    requires states[i].lifecycle != Draining && states[i + 1].lifecycle == Draining
    ensures events[i] == Answer(Clear)
    ensures exists from :: AskedQuietly(states, events, from, i)
  {
    assert Enabled(states[i], events[i]);
    var from := SecondReadinessIsQuiet(states, events, i);
  }

  /** Every way a check ends but one leaves the server running, with the next mutation admitted. */
  lemma ChecksEndOrDrain(s: State, e: Event, request: RequestId)
    requires Invariant(s) && s.lifecycle == Checking && Enabled(s, e)
    requires Next(s, e).0.check.None?
    ensures
      var t := Next(s, e).0;
      if e == Answer(Clear) then t.lifecycle == Draining && t.guards == {}
      else
        && t == State(Running, s.active, s.guards, None)
        && (request !in t.guards ==> Enabled(t, Arrive(request, true)) && Next(t, Arrive(request, true)).1 == Admitted)
  {
  }

  /** While one check is going, a second is refused and leaves the first as it is. */
  lemma OneCheckAtATime(s: State, request: RequestId)
    requires Invariant(s) && Enabled(s, Shutdown(request, true))
    ensures Next(s, Shutdown(request, true)).1 == Pending <==> s.check.None? && s.lifecycle == Running
    ensures Next(s, Shutdown(request, true)).1 != Pending ==> Next(s, Shutdown(request, true)).0 == s
  {
  }

  /** A check asleep is never left so: it sleeps exactly while a mutation lives, and the last one's end wakes it. */
  lemma SleepsOnlyWhileAMutationLives(s: State, request: RequestId)
    requires Invariant(s) && s.check.Some? && s.check.value.stage.Parked?
    ensures s.check.value.stage == Parked(false) ==> s.guards != {}
    ensures s.guards == {request} && s.check.value.stage == Parked(false) ==> Enabled(Next(s, Finish(request)).0, Wake)
    ensures s.guards == {} ==>
      Enabled(s, Wake) && Next(s, Wake).0.check == Some(Check(s.check.value.request, SecondReadiness))
  {
    assert s.guards == {request} ==> |s.guards| == 1;
  }

  // ----- the cells -----

  /** `Lifecycle`, with the guards and the check that point at it. */
  class Lifecycle {
    var state: LifecycleState
    var activeMutations: int
    ghost var guards: set<RequestId>
    var check: Option<Check>

    constructor ()
      ensures Contents() == START
    {
      state, activeMutations, guards, check := Running, 0, {}, None;
    }

    ghost function Contents(): State
      reads this
    {
      State(state, activeMutations, guards, check)
    }

    method AdmitMutation(request: RequestId) returns (admitted: bool)
      requires Invariant(Contents()) && Enabled(Contents(), Arrive(request, true))
      modifies this
      ensures Contents() == Next(old(Contents()), Arrive(request, true)).0 && Invariant(Contents())
      ensures admitted <==> old(state) == Running
      ensures admitted <==> Next(old(Contents()), Arrive(request, true)).1 == Admitted
    {
      NextKeeps(Contents(), Arrive(request, true));
      if state != Running {
        return false;
      }
      activeMutations := activeMutations + 1;
      guards := guards + {request};
      return true;
    }

    /** A `MutationGuard` is dropped. */
    method Release(request: RequestId)
      requires Invariant(Contents()) && request in guards
      modifies this
      ensures Contents() == Next(old(Contents()), Finish(request)).0 && Invariant(Contents())
      ensures activeMutations == old(activeMutations) - 1 >= 0
    {
      NextKeeps(Contents(), Finish(request));
      var remaining := activeMutations - 1;
      activeMutations := remaining;
      guards := guards - {request};
      if remaining == 0 && check.Some? && check.value.stage.Parked? {
        check := Some(Check(check.value.request, Parked(true)));
      }
    }

    /** `handle_shutdown`, up to its first await. */
    method Shutdown(request: RequestId, upgrade: bool) returns (began: bool)
      requires Invariant(Contents()) && Enabled(Contents(), Event.Shutdown(request, upgrade))
      modifies this
      ensures Contents() == Next(old(Contents()), Event.Shutdown(request, upgrade)).0 && Invariant(Contents())
      ensures began <==> upgrade && old(state) == Running
    {
      NextKeeps(Contents(), Event.Shutdown(request, upgrade));
      if !upgrade || state != Running {
        return false;
      }
      state := Checking;
      check := Some(Check(request, FirstReadiness));
      return true;
    }

    /** `handle_shutdown` and `wait_for_mutations`, from the await that ends to the next or to the reply. */
    method Resume(answer: Option<Readiness>) returns (drained: bool)
      requires Invariant(Contents())
      requires Enabled(Contents(), match answer { case Some(readiness) => Answer(readiness) case None => Wake })
      modifies this
      ensures
        var e := match answer { case Some(readiness) => Answer(readiness) case None => Wake };
        Contents() == Next(old(Contents()), e).0 && (drained <==> Next(old(Contents()), e).1 == Drained)
      ensures Invariant(Contents())
      ensures drained ==> activeMutations == 0
    {
      NextKeeps(Contents(), match answer { case Some(readiness) => Answer(readiness) case None => Wake });
      if answer.Some? && answer.value != Clear {
        state, check := Running, None;
        return false;
      }
      if check.value.stage == SecondReadiness {
        state, check := Draining, None;
        return true;
      }
      check := Some(Check(check.value.request, if activeMutations == 0 then SecondReadiness else Parked(false)));
      return false;
    }

    /** The `ShutdownCheck` is dropped uncommitted: the minute is over, or the handler itself is dropped. */
    method DropCheck(timedOut: bool)
      requires Invariant(Contents()) && check.Some?
      modifies this
      ensures Contents() == Next(old(Contents()), if timedOut then TimeOut else Drop).0 && Invariant(Contents())
      ensures state == Running
    {
      NextKeeps(Contents(), if timedOut then TimeOut else Drop);
      state, check := Running, None;
    }
  }
}
