/** Runs of a machine given by its steps, and how they join. */
module Runs {
  ghost predicate Run<S(!new), E(!new)>(step: (S, E, S) -> bool, states: seq<S>, events: seq<E>) {
    |states| == |events| + 1 && forall i :: 0 <= i < |events| ==> step(states[i], events[i], states[i + 1])
  }

  /** Some run of these events goes from `a` to `b`. */
  ghost predicate Leads<S(!new), E(!new)>(step: (S, E, S) -> bool, a: S, events: seq<E>, b: S) {
    exists states :: Run(step, states, events) && states[0] == a && states[|events|] == b
  }

  lemma NoEvents<S(!new), E(!new)>(step: (S, E, S) -> bool, a: S)
    ensures Leads(step, a, [], a)
  {
    assert Run(step, [a], []);
  }

  lemma Joined<S(!new), E(!new)>(step: (S, E, S) -> bool, a: S, first: seq<E>, b: S, second: seq<E>, c: S)
    requires Leads(step, a, first, b) && Leads(step, b, second, c)
    ensures Leads(step, a, first + second, c)
  {
    var x :| Run(step, x, first) && x[0] == a && x[|first|] == b;
    var y :| Run(step, y, second) && y[0] == b && y[|second|] == c;
    var z := x + y[1..];
    assert forall i :: |first| <= i < |z| ==> z[i] == y[i - |first|];
    assert Run(step, z, first + second);
  }

  /** A run extended by one event. */
  lemma Then<S(!new), E(!new)>(step: (S, E, S) -> bool, a: S, events: seq<E>, b: S, e: E, c: S)
    requires Leads(step, a, events, b) && step(b, e, c)
    ensures Leads(step, a, events + [e], c)
  {
    assert Run(step, [b, c], [e]);
    Joined(step, a, events, b, [e], c);
  }

  /** What every step keeps, every state of a run has. */
  lemma {:induction false} Keeps<S(!new), E(!new)>(
    step: (S, E, S) -> bool, inv: S -> bool, states: seq<S>, events: seq<E>, i: nat
  )
    requires Run(step, states, events) && inv(states[0]) && i < |states|
    requires forall a, e, b :: inv(a) && step(a, e, b) ==> inv(b)
    ensures inv(states[i])
    decreases i
  {
    if i > 0 {
      Keeps(step, inv, states, events, i - 1);
      assert step(states[i - 1], events[i - 1], states[i]);
    }
  }
}
