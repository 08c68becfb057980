/**
  The keyed at-least-once scheduler of agentctl/src/controller.rs.

  `State` is what the scheduling loop holds (requests waiting for a pass, keys with a pass under
  way, and the passes themselves) together with a record of what it accepted and answered. The
  class at the end is the loop; everything before it is what one turn of the loop means and what
  every run keeps.
*/
module Scheduler {
  import opened Wrappers

  const MAX_CONCURRENT_RECONCILES: nat := 16

  type Key = int

  /** One oneshot sender. Each is created once, so it identifies one waiting request. */
  type Waiter = nat

  datatype Outcome = Converged | Failed(transient: bool)

  /** One reconciliation under way; `ordinal` counts the passes started before it. */
  datatype Pass = Pass(key: Key, responses: seq<Waiter>, ordinal: nat)

  /** What a waiter asked for, and how many passes had started when it was accepted. */
  datatype Accepted = Accepted(key: Key, after: nat)

  datatype Answer = Answer(waiter: Waiter, key: Key, ordinal: nat, outcome: Outcome)

  datatype Request = Request(key: Key, response: Option<Waiter>)

  datatype State = State(
    pending: map<Key, seq<Waiter>>,
    running: set<Key>,
    flight: seq<Pass>,
    starts: nat,
    accepted: map<Waiter, Accepted>,
    answers: seq<Answer>)

  function Initial(): State {
    State(map[], {}, [], 0, map[], [])
  }

  // ----- one step of the loop -----

  function Entry(pending: map<Key, seq<Waiter>>, key: Key): seq<Waiter> {
    if key in pending then pending[key] else []
  }

  /** A sender that reaches the loop has never reached it before. */
  predicate Fresh(s: State, request: Request) {
    request.response.Some? ==> request.response.value !in s.accepted
  }

  function Enqueued(s: State, request: Request): State {
    match request.response
    case None => s.(pending := s.pending[request.key := Entry(s.pending, request.key)])
    case Some(waiter) =>
      s.(pending := s.pending[request.key := Entry(s.pending, request.key) + [waiter]],
         accepted := s.accepted[waiter := Accepted(request.key, s.starts)])
  }

  /** A startup or repair scan makes every listed key pending and keeps what waits already. */
  function Scan(s: State, keys: set<Key>): State {
    s.(pending := map key | key in s.pending.Keys + keys :: Entry(s.pending, key))
  }

  predicate Startable(s: State, key: Key) {
    |s.running| < MAX_CONCURRENT_RECONCILES && key in s.pending && key !in s.running
  }

  function Start(s: State, key: Key): State
    requires key in s.pending
  {
    s.(pending := s.pending - {key},
       running := s.running + {key},
       flight := s.flight + [Pass(key, s.pending[key], s.starts)],
       starts := s.starts + 1)
  }

  function Answers(pass: Pass, outcome: Outcome): seq<Answer> {
    seq(|pass.responses|, i requires 0 <= i < |pass.responses| =>
      Answer(pass.responses[i], pass.key, pass.ordinal, outcome))
  }

  function Finish(s: State, index: nat, outcome: Outcome): State
    requires index < |s.flight|
  {
    var pass := s.flight[index];
    s.(running := s.running - {pass.key},
       flight := Without(s.flight, index),
       answers := s.answers + Answers(pass, outcome))
  }

  datatype Event =
    | Receive(request: Request)
    | Tick(keys: set<Key>)
    | Begin(key: Key)
    | Complete(index: nat, outcome: Outcome)

  predicate Enabled(s: State, e: Event) {
    match e
    case Receive(request) => Fresh(s, request)
    case Tick(_) => true
    case Begin(key) => Startable(s, key)
    case Complete(index, _) => index < |s.flight|
  }

  function Next(s: State, e: Event): State
    requires Enabled(s, e)
  {
    match e
    case Receive(request) => Enqueued(s, request)
    case Tick(keys) => Scan(s, keys)
    case Begin(key) => Start(s, key)
    case Complete(index, outcome) => Finish(s, index, outcome)
  }

  // ----- what every run keeps -----

  predicate Distinct<T(==)>(s: seq<T>) {
    forall i, j :: 0 <= i < j < |s| ==> s[i] != s[j]
  }

  predicate Pending(s: State, waiter: Waiter) {
    waiter in s.accepted && waiter in Entry(s.pending, s.accepted[waiter].key)
  }

  predicate InFlight(s: State, waiter: Waiter) {
    exists i :: 0 <= i < |s.flight| && waiter in s.flight[i].responses
  }

  predicate Answered(s: State, waiter: Waiter) {
    exists i :: 0 <= i < |s.answers| && s.answers[i].waiter == waiter
  }

  function KeysOf(flight: seq<Pass>): set<Key> {
    set i | 0 <= i < |flight| :: flight[i].key
  }

  /** `running` names exactly the passes under way, one a key, and there are at most 16. */
  predicate OnePassPerKey(s: State) {
    && DistinctKeys(s.flight)
    && s.running == KeysOf(s.flight)
    && |s.flight| == |s.running| <= MAX_CONCURRENT_RECONCILES
  }

  predicate PendingWell(s: State) {
    forall key :: key in s.pending ==>
      && Distinct(s.pending[key])
      && forall w :: w in s.pending[key] ==> w in s.accepted && s.accepted[w].key == key
  }

  /** Every waiter of a pass asked for that pass's key, before the pass started. */
  predicate FlightWell(s: State) {
    forall i :: 0 <= i < |s.flight| ==>
      && s.flight[i].ordinal < s.starts
      && Distinct(s.flight[i].responses)
      && forall w :: w in s.flight[i].responses ==>
           w in s.accepted && s.accepted[w].key == s.flight[i].key && s.accepted[w].after <= s.flight[i].ordinal
  }

  /** Every answer reports a pass for the key that was asked for, started after the request. */
  predicate AnswersWell(s: State) {
    && (forall i :: 0 <= i < |s.answers| ==>
          && s.answers[i].waiter in s.accepted
          && s.accepted[s.answers[i].waiter].key == s.answers[i].key
          && s.accepted[s.answers[i].waiter].after <= s.answers[i].ordinal < s.starts)
    && (forall i, j :: 0 <= i < j < |s.answers| ==> s.answers[i].waiter != s.answers[j].waiter)
  }

  /** Exactly one place for every accepted waiter. */
  predicate InOnePlace(s: State, waiter: Waiter) {
    && (Pending(s, waiter) || InFlight(s, waiter) || Answered(s, waiter))
    && !(Pending(s, waiter) && InFlight(s, waiter))
    && !(Pending(s, waiter) && Answered(s, waiter))
    && !(InFlight(s, waiter) && Answered(s, waiter))
  }

  ghost predicate Invariant(s: State) {
    && OnePassPerKey(s)
    && PendingWell(s)
    && FlightWell(s)
    && AnswersWell(s)
    && (forall w :: w in s.accepted ==> s.accepted[w].after <= s.starts)
    && (forall w :: w in s.accepted ==> InOnePlace(s, w))
  }

  lemma InitialKeeps()
    ensures Invariant(Initial())
  {
  }

  /** A waiter accepted before stays where it is; the new one is pending only. */
  lemma EnqueuePlaces(s: State, request: Request, w: Waiter)
    requires PendingWell(s) && FlightWell(s) && AnswersWell(s) && Fresh(s, request)
    requires w in Enqueued(s, request).accepted && (w in s.accepted ==> InOnePlace(s, w))
    ensures InOnePlace(Enqueued(s, request), w)
  {
    var t := Enqueued(s, request);
    if w in s.accepted {
      assert Pending(t, w) <==> Pending(s, w);
      assert InFlight(t, w) <==> InFlight(s, w);
      assert Answered(t, w) <==> Answered(s, w);
    } else {
      var entry := Entry(t.pending, request.key);
      assert entry[|entry| - 1] == w;
      assert Pending(t, w);
    }
  }

  lemma EnqueueKeepsPending(s: State, request: Request)
    requires PendingWell(s) && Fresh(s, request)
    ensures PendingWell(Enqueued(s, request))
  {
  }

  lemma EnqueueKeeps(s: State, request: Request)
    requires Invariant(s) && Fresh(s, request)
    ensures Invariant(Enqueued(s, request))
  {
    var t := Enqueued(s, request);
    EnqueueKeepsPending(s, request);
    forall w | w in t.accepted
      ensures InOnePlace(t, w)
    {
      EnqueuePlaces(s, request, w);
    }
  }

  lemma ScanKeeps(s: State, keys: set<Key>)
    requires Invariant(s)
    ensures Invariant(Scan(s, keys))
  {
    var t := Scan(s, keys);
    forall w | w in t.accepted
      ensures InOnePlace(t, w)
    {
      assert InOnePlace(s, w);
      assert Pending(t, w) <==> Pending(s, w);
      assert InFlight(t, w) <==> InFlight(s, w);
      assert Answered(t, w) <==> Answered(s, w);
    }
  }

  lemma StartKeepsPasses(s: State, key: Key)
    requires OnePassPerKey(s) && Startable(s, key)
    ensures OnePassPerKey(Start(s, key))
  {
    var t := Start(s, key);
    forall k
      ensures k in t.running <==> k in KeysOf(t.flight)
    {
      if k == key {
        assert t.flight[|s.flight|].key == k;
      } else if k in s.running {
        var i :| 0 <= i < |s.flight| && s.flight[i].key == k;
        assert t.flight[i].key == k;
      }
    }
  }

  /** Starting a pass moves exactly its key's waiters from pending to in flight. */
  lemma StartMoves(s: State, key: Key, w: Waiter)
    requires key in s.pending && w in s.accepted
    requires w in s.pending[key] ==> s.accepted[w].key == key
    requires InOnePlace(s, w)
    ensures InOnePlace(Start(s, key), w)
  {
    var t := Start(s, key);
    assert Answered(t, w) <==> Answered(s, w);
    assert t.flight[|s.flight|].responses == s.pending[key];
    if InFlight(s, w) {
      var i :| 0 <= i < |s.flight| && w in s.flight[i].responses;
      assert w in t.flight[i].responses;
    }
    if InFlight(t, w) && w !in s.pending[key] {
      var i :| 0 <= i < |t.flight| && w in t.flight[i].responses;
      assert t.flight[i] == s.flight[i];
    }
  }

  lemma StartKeepsFlight(s: State, key: Key)
    requires PendingWell(s) && FlightWell(s) && key in s.pending
    requires forall w :: w in s.accepted ==> s.accepted[w].after <= s.starts
    ensures FlightWell(Start(s, key))
  {
    var t := Start(s, key);
    assert forall i :: 0 <= i < |s.flight| ==> t.flight[i] == s.flight[i];
  }

  lemma StartKeeps(s: State, key: Key)
    requires Invariant(s) && Startable(s, key)
    ensures Invariant(Start(s, key))
  {
    StartKeepsPasses(s, key);
    StartKeepsFlight(s, key);
    var t := Start(s, key);
    forall w | w in t.accepted
      ensures InOnePlace(t, w)
    {
      StartMoves(s, key, w);
    }
  }

  function Without<T>(s: seq<T>, index: nat): (r: seq<T>)
    requires index < |s|
    ensures |r| == |s| - 1
    ensures forall i :: 0 <= i < index ==> r[i] == s[i]
    ensures forall i :: index <= i < |r| ==> r[i] == s[i + 1]
    ensures forall i :: 0 <= i < |s| && i != index ==> s[i] == r[if i < index then i else i - 1]
  {
    s[..index] + s[index + 1..]
  }

  predicate DistinctKeys(flight: seq<Pass>) {
    forall i, j :: 0 <= i < j < |flight| ==> flight[i].key != flight[j].key
  }

  lemma DistinctWithout(flight: seq<Pass>, index: nat)
    requires index < |flight| && DistinctKeys(flight)
    ensures DistinctKeys(Without(flight, index))
  {
    var left := Without(flight, index);
    forall i, j | 0 <= i < j < |left|
      ensures left[i].key != left[j].key
    {
      assert left[i] == flight[if i < index then i else i + 1];
      assert left[j] == flight[if j < index then j else j + 1];
    }
  }

  lemma KeysWithout(flight: seq<Pass>, index: nat)
    requires index < |flight| && DistinctKeys(flight)
    ensures KeysOf(Without(flight, index)) == KeysOf(flight) - {flight[index].key}
  {
    var left := Without(flight, index);
    forall k | k in KeysOf(flight) - {flight[index].key}
      ensures k in KeysOf(left)
    {
      var i :| 0 <= i < |flight| && flight[i].key == k;
      assert left[if i < index then i else i - 1].key == k;
    }
    forall k | k in KeysOf(left)
      ensures k in KeysOf(flight) - {flight[index].key}
    {
      var i :| 0 <= i < |left| && left[i].key == k;
      assert flight[if i < index then i else i + 1].key == k;
    }
  }

  lemma FinishKeepsPasses(s: State, index: nat, outcome: Outcome)
    requires OnePassPerKey(s) && index < |s.flight|
    ensures OnePassPerKey(Finish(s, index, outcome))
  {
    DistinctWithout(s.flight, index);
    KeysWithout(s.flight, index);
    assert s.flight[index].key in s.running;
  }

  lemma FinishKeepsAnswers(s: State, index: nat, outcome: Outcome)
    requires AnswersWell(s) && FlightWell(s) && index < |s.flight|
    requires forall w :: w in s.accepted ==> InOnePlace(s, w)
    ensures AnswersWell(Finish(s, index, outcome))
  {
    var t := Finish(s, index, outcome);
    var n := |s.answers|;
    var pass := s.flight[index];
    forall w | w in pass.responses
      ensures !Answered(s, w)
    {
      assert InFlight(s, w);
      assert InOnePlace(s, w);
    }
    assert forall i :: n <= i < |t.answers| ==>
      t.answers[i] == Answer(pass.responses[i - n], pass.key, pass.ordinal, outcome);
  }

  /** The waiters of the finished pass are in flight no more. */
  lemma FinishLands(s: State, index: nat, outcome: Outcome, w: Waiter)
    requires OnePassPerKey(s) && FlightWell(s) && index < |s.flight| && w in s.flight[index].responses
    ensures Answered(Finish(s, index, outcome), w) && !InFlight(Finish(s, index, outcome), w)
  {
    var t := Finish(s, index, outcome);
    var pass := s.flight[index];
    var k :| 0 <= k < |pass.responses| && pass.responses[k] == w;
    assert t.answers[|s.answers| + k].waiter == w;
    forall i | 0 <= i < |t.flight|
      ensures w !in t.flight[i].responses
    {
      var j := if i < index then i else i + 1;
      assert t.flight[i] == s.flight[j];
    }
  }

  /** Every other waiter stays where it is. */
  lemma FinishLeavesFlight(s: State, index: nat, outcome: Outcome, w: Waiter)
    requires index < |s.flight| && w !in s.flight[index].responses
    ensures InFlight(Finish(s, index, outcome), w) <==> InFlight(s, w)
  {
    var t := Finish(s, index, outcome);
    if InFlight(s, w) {
      var i :| 0 <= i < |s.flight| && w in s.flight[i].responses;
      assert t.flight[if i < index then i else i - 1] == s.flight[i];
    }
    if InFlight(t, w) {
      var i :| 0 <= i < |t.flight| && w in t.flight[i].responses;
      assert t.flight[i] == s.flight[if i < index then i else i + 1];
    }
  }

  lemma FinishLeavesAnswers(s: State, index: nat, outcome: Outcome, w: Waiter)
    requires index < |s.flight| && w !in s.flight[index].responses
    ensures Answered(Finish(s, index, outcome), w) <==> Answered(s, w)
  {
    var t := Finish(s, index, outcome);
    var n := |s.answers|;
    if Answered(s, w) {
      var i :| 0 <= i < n && s.answers[i].waiter == w;
      assert t.answers[i].waiter == w;
    }
    forall i | n <= i < |t.answers|
      ensures t.answers[i].waiter != w
    {
      assert t.answers[i].waiter == s.flight[index].responses[i - n];
    }
    if Answered(t, w) {
      var i :| 0 <= i < |t.answers| && t.answers[i].waiter == w;
      assert s.answers[i].waiter == w;
    }
  }

  lemma FinishKeeps(s: State, index: nat, outcome: Outcome)
    requires Invariant(s) && index < |s.flight|
    ensures Invariant(Finish(s, index, outcome))
  {
    var t := Finish(s, index, outcome);
    FinishKeepsPasses(s, index, outcome);
    FinishKeepsAnswers(s, index, outcome);
    forall w | w in t.accepted
      ensures InOnePlace(t, w)
    {
      assert InOnePlace(s, w);
      assert Pending(t, w) <==> Pending(s, w);
      if w in s.flight[index].responses {
        assert InFlight(s, w);
        FinishLands(s, index, outcome, w);
      } else {
        FinishLeavesFlight(s, index, outcome, w);
        FinishLeavesAnswers(s, index, outcome, w);
      }
    }
  }

  lemma NextKeeps(s: State, e: Event)
    requires Invariant(s) && Enabled(s, e)
    ensures Invariant(Next(s, e))
  {
    match e
    case Receive(request) => EnqueueKeeps(s, request);
    case Tick(keys) => ScanKeeps(s, keys);
    case Begin(key) => StartKeeps(s, key);
    case Complete(index, outcome) => FinishKeeps(s, index, outcome);
  }

  // ----- every run -----

  predicate Possible(s: State, events: seq<Event>)
    decreases |events|
  {
    events == [] || (Enabled(s, events[0]) && Possible(Next(s, events[0]), events[1..]))
  }

  function Run(s: State, events: seq<Event>): State
    requires Possible(s, events)
    decreases |events|
  {
    if events == [] then s else Run(Next(s, events[0]), events[1..])
  }

  lemma {:induction false} RunKeeps(s: State, events: seq<Event>)
    requires Invariant(s) && Possible(s, events)
    ensures Invariant(Run(s, events))
    ensures s.accepted.Items <= Run(s, events).accepted.Items
    ensures s.answers <= Run(s, events).answers
    decreases |events|
  {
    if events != [] {
      NextKeeps(s, events[0]);
      NextGrows(s, events[0]);
      RunKeeps(Next(s, events[0]), events[1..]);
    }
  }

  /** What was accepted and answered stays so. */
  lemma NextGrows(s: State, e: Event)
    requires Enabled(s, e)
    ensures s.accepted.Items <= Next(s, e).accepted.Items
    ensures s.answers <= Next(s, e).answers
  {
    forall w | w in s.accepted
      ensures w in Next(s, e).accepted && Next(s, e).accepted[w] == s.accepted[w]
    {
    }
  }

  /**
    Whatever the loop receives, scans, starts and finishes, an accepted waiter is never dropped: it
    is pending, in flight or answered, in one place only. It is answered at most once, by a pass for
    its own key that started after the loop accepted it.
  */
  lemma AnsweredOnceByALaterPass(events: seq<Event>, rest: seq<Event>, w: Waiter)
    requires Possible(Initial(), events) && w in Run(Initial(), events).accepted
    requires Possible(Run(Initial(), events), rest)
    ensures
      var asked := Run(Initial(), events).accepted[w];
      var s := Run(Run(Initial(), events), rest);
      && w in s.accepted && InOnePlace(s, w)
      && (forall i, j ::
            0 <= i < |s.answers| && 0 <= j < |s.answers| && s.answers[i].waiter == s.answers[j].waiter == w ==> i == j)
      && (forall i :: 0 <= i < |s.answers| && s.answers[i].waiter == w ==>
            s.answers[i].key == asked.key && asked.after <= s.answers[i].ordinal)
  {
    InitialKeeps();
    RunKeeps(Initial(), events);
    RunKeeps(Run(Initial(), events), rest);
    var t := Run(Initial(), events);
    var s := Run(t, rest);
    assert (w, t.accepted[w]) in t.accepted.Items;
    assert (w, t.accepted[w]) in s.accepted.Items;
  }

  // ----- draining -----

  function Work(s: State): nat {
    2 * |s.pending| + |s.flight|
  }

  predicate Quiet(events: seq<Event>) {
    forall i :: 0 <= i < |events| ==> events[i].Begin? || events[i].Complete?
  }

  lemma WorkFalls(s: State, e: Event)
    requires Enabled(s, e) && (e.Begin? || e.Complete?)
    ensures Work(Next(s, e)) == Work(s) - 1
  {
    if e.Begin? {
      assert (s.pending - {e.key}).Keys == s.pending.Keys - {e.key};
      assert |s.pending.Keys - {e.key}| == |s.pending.Keys| - 1;
    }
  }

  /** Without new requests the loop takes exactly one step for each unit of work it sheds. */
  lemma {:induction false} QuietRunIsBounded(s: State, events: seq<Event>)
    requires Possible(s, events) && Quiet(events)
    ensures |events| + Work(Run(s, events)) == Work(s)
    decreases |events|
  {
    if events != [] {
      WorkFalls(s, events[0]);
      QuietRunIsBounded(Next(s, events[0]), events[1..]);
    }
  }

  /** A drained loop owes nobody an answer: no pass can start or finish only once everyone has one. */
  lemma DrainAnswersEveryone(s: State, events: seq<Event>)
    requires Invariant(s) && Possible(s, events) && Quiet(events)
    requires forall e: Event :: e.Begin? || e.Complete? ==> !Enabled(Run(s, events), e)
    ensures |events| == Work(s)
    ensures forall w :: w in s.accepted ==> Answered(Run(s, events), w)
  {
    RunKeeps(s, events);
    QuietRunIsBounded(s, events);
    var t := Run(s, events);
    assert t.flight == [] by {
      assert !Enabled(t, Complete(0, Converged));
    }
    assert t.pending.Keys == {} by {
      if t.pending.Keys != {} {
        var key := Member(t.pending.Keys);
        assert Enabled(t, Begin(key));
        assert false;
      }
    }
    assert |t.pending| == |t.pending.Keys|;
    forall w | w in s.accepted
      ensures Answered(t, w)
    {
      assert (w, s.accepted[w]) in s.accepted.Items;
      assert (w, s.accepted[w]) in t.accepted.Items;
      assert InOnePlace(t, w);
    }
  }

  // ----- the loop -----

  /** The key the loop starts next: the smallest pending one without a pass under way. */
  predicate IsNext(s: State, key: Key) {
    Startable(s, key) && forall other :: other in s.pending && other !in s.running ==> key <= other
  }

  ghost function Filled(s: State): State
    decreases |s.pending|
  {
    if exists key :: IsNext(s, key) then
      var key :| IsNext(s, key);
      assert (s.pending - {key}).Keys == s.pending.Keys - {key};
      Filled(Start(s, key))
    else s
  }

  lemma NextIsUnique(s: State, a: Key, b: Key)
    requires IsNext(s, a) && IsNext(s, b)
    ensures a == b
  {
  }

  lemma {:induction false} SmallestExists(keys: set<Key>) returns (smallest: Key)
    requires keys != {}
    ensures smallest in keys && forall key :: key in keys ==> smallest <= key
  {
    var first := Member(keys);
    var rest := keys - {first};
    smallest := first;
    if rest != {} {
      var other := SmallestExists(rest);
      smallest := if other < first then other else first;
    }
    assert keys == rest + {first};
  }

  /**
    After the loop starts passes, either 16 are under way or every pending key already has one; the
    starts are ordinary steps, so they keep what every run keeps.
  */
  lemma {:induction false} StartPendingFillsUp(s: State)
    requires Invariant(s)
    ensures Invariant(Filled(s))
    ensures |Filled(s).running| == MAX_CONCURRENT_RECONCILES || Filled(s).pending.Keys <= Filled(s).running
    ensures Filled(s).answers == s.answers && Filled(s).accepted == s.accepted
    decreases |s.pending|
  {
    if key :| IsNext(s, key) {
      assert Filled(s) == Filled(Start(s, key)) by {
        forall other | IsNext(s, other) ensures other == key { NextIsUnique(s, key, other); }
      }
      assert (s.pending - {key}).Keys == s.pending.Keys - {key};
      StartKeeps(s, key);
      StartPendingFillsUp(Start(s, key));
    } else if |s.running| < MAX_CONCURRENT_RECONCILES && !(s.pending.Keys <= s.running) {
      EmptyDifference(s.pending.Keys, s.running);
      var key := SmallestExists(s.pending.Keys - s.running);
      assert forall other :: other in s.pending && other !in s.running ==> other in s.pending.Keys - s.running;
      assert IsNext(s, key);
      assert false;
    }
  }

  /** What the loop waits for between two rounds of starting passes. */
  datatype Turn =
    | Requests(requests: seq<Request>)
    | Listed(keys: Option<seq<Key>>)
    | Done(index: nat, outcome: Outcome)

  function EnqueueEach(s: State, requests: seq<Request>): State
    decreases |requests|
  {
    if requests == [] then s else EnqueueEach(Enqueued(s, requests[0]), requests[1..])
  }

  predicate FreshEach(s: State, requests: seq<Request>)
    decreases |requests|
  {
    requests == [] || (Fresh(s, requests[0]) && FreshEach(Enqueued(s, requests[0]), requests[1..]))
  }

  function ScanListed(s: State, keys: Option<seq<Key>>): State {
    match keys
    case None => s
    case Some(keys) => Scan(s, set key | key in keys)
  }

  predicate TurnPossible(s: State, turn: Turn) {
    match turn
    case Requests(requests) => FreshEach(s, requests)
    case Listed(_) => true
    case Done(index, _) => index < |s.flight|
  }

  function TakeTurn(s: State, turn: Turn): State
    requires TurnPossible(s, turn)
  {
    match turn
    case Requests(requests) => EnqueueEach(s, requests)
    case Listed(keys) => ScanListed(s, keys)
    case Done(index, outcome) => Finish(s, index, outcome)
  }

  ghost predicate TurnsPossible(s: State, turns: seq<Turn>)
    decreases |turns|
  {
    turns == [] ||
    (TurnPossible(Filled(s), turns[0]) && TurnsPossible(TakeTurn(Filled(s), turns[0]), turns[1..]))
  }

  ghost function Turns(s: State, turns: seq<Turn>): State
    requires TurnsPossible(s, turns)
    decreases |turns|
  {
    if turns == [] then s else Turns(TakeTurn(Filled(s), turns[0]), turns[1..])
  }

  lemma {:induction false} EnqueueEachKeeps(s: State, requests: seq<Request>)
    requires Invariant(s) && FreshEach(s, requests)
    ensures Invariant(EnqueueEach(s, requests))
    decreases |requests|
  {
    if requests != [] {
      EnqueueKeeps(s, requests[0]);
      EnqueueEachKeeps(Enqueued(s, requests[0]), requests[1..]);
    }
  }

  /** The loop as it runs, round after round, keeps what every run keeps. */
  lemma {:induction false} TurnsKeep(s: State, turns: seq<Turn>)
    requires Invariant(s) && TurnsPossible(s, turns)
    ensures Invariant(Turns(s, turns))
    decreases |turns|
  {
    if turns != [] {
      StartPendingFillsUp(s);
      var t := Filled(s);
      match turns[0] {
        case Requests(requests) => EnqueueEachKeeps(t, requests);
        case Listed(None) =>
        case Listed(Some(keys)) => ScanKeeps(t, set key | key in keys);
        case Done(index, outcome) => FinishKeeps(t, index, outcome);
      }
      TurnsKeep(TakeTurn(t, turns[0]), turns[1..]);
    }
  }

  lemma TurnsAppend(s: State, turns: seq<Turn>, n: nat)
    requires TurnsPossible(s, turns) && n < |turns|
    ensures TurnsPossible(s, turns[..n])
    ensures TurnPossible(Filled(Turns(s, turns[..n])), turns[n])
    ensures TurnsPossible(s, turns[..n + 1])
    ensures Turns(s, turns[..n + 1]) == TakeTurn(Filled(Turns(s, turns[..n])), turns[n])
    decreases |turns|
  {
    if n == 0 {
      assert turns[..1] == [turns[0]];
      assert turns[..1][1..] == [];
    } else {
      TurnsAppend(TakeTurn(Filled(s), turns[0]), turns[1..], n - 1);
      assert turns[..n][1..] == turns[1..][..n - 1];
      assert turns[..n + 1][1..] == turns[1..][..n];
    }
  }

  /** The scheduling loop and what it holds. */
  class Controller {
    var pending: map<Key, seq<Waiter>>
    var running: set<Key>
    var reconciliations: seq<Pass>
    var starts: nat
    var sent: seq<Answer>
    ghost var accepted: map<Waiter, Accepted>

    ghost function View(): State
      reads this
    {
      State(pending, running, reconciliations, starts, accepted, sent)
    }

    constructor ()
      ensures View() == Initial()
    {
      pending, running, reconciliations, starts, sent := map[], {}, [], 0, [];
      accepted := map[];
    }

    /** Puts one request beside whatever already waits for its key. */
    method Enqueue(request: Request)
      modifies this
      ensures View() == Enqueued(old(View()), request)
    {
      var responses := if request.key in pending then pending[request.key] else [];
      if request.response.Some? {
        responses := responses + [request.response.value];
        accepted := accepted[request.response.value := Accepted(request.key, starts)];
      }
      pending := pending[request.key := responses];
    }

    method EnqueueAll(keys: Option<seq<Key>>)
      modifies this
      ensures View() == ScanListed(old(View()), keys)
    {
      if keys.None? { return; }
      ghost var before := pending;
      for i := 0 to |keys.value|
        invariant pending == map key | key in before.Keys + (set k | k in keys.value[..i]) :: Entry(before, key)
        invariant running == old(running) && reconciliations == old(reconciliations) && starts == old(starts)
        invariant sent == old(sent) && accepted == old(accepted)
      {
        var key := keys.value[i];
        assert keys.value[..i + 1] == keys.value[..i] + [key];
        if key !in pending {
          pending := pending[key := []];
        }
      }
      assert keys.value[..|keys.value|] == keys.value;
    }

    /** The smallest pending key without a pass under way. */
    method FindStartable() returns (found: Option<Key>)
      ensures found.Some? ==> found.value in pending && found.value !in running
      ensures found.Some? ==> forall key :: key in pending && key !in running ==> found.value <= key
      ensures found.None? ==> pending.Keys <= running
    {
      var rest := pending.Keys - running;
      found := None;
      while rest != {}
        invariant rest <= pending.Keys - running
        invariant found.Some? ==> found.value in pending.Keys - running
        invariant found.None? ==> rest == pending.Keys - running
        invariant found.Some? ==> forall key :: key in pending && key !in running && key !in rest ==> found.value <= key
        decreases rest
      {
        ghost var member := Member(rest);
        assert member in rest;
        var key :| key in rest;
        if found.None? || key < found.value {
          found := Some(key);
        }
        rest := rest - {key};
      }
      EmptyDifference(pending.Keys, running);
    }

    method StartPending()
      modifies this
      ensures View() == Filled(old(View()))
    {
      while |running| < MAX_CONCURRENT_RECONCILES
        invariant Filled(View()) == Filled(old(View()))
        decreases |pending|
      {
        var found := FindStartable();
        if found.None? { break; }
        var key := found.value;
        ghost var s := View();
        assert IsNext(s, key);
        assert Filled(s) == Filled(Start(s, key)) by {
          forall other | IsNext(s, other) ensures other == key { NextIsUnique(s, key, other); }
        }
        assert (pending - {key}).Keys == pending.Keys - {key};
        var responses := pending[key];
        pending := pending - {key};
        running := running + {key};
        reconciliations := reconciliations + [Pass(key, responses, starts)];
        starts := starts + 1;
        assert View() == Start(s, key);
      }
    }

    /** Ends one pass and sends its outcome to everyone it was for. */
    method Complete(index: nat, outcome: Outcome)
      requires index < |reconciliations|
      modifies this
      ensures View() == Finish(old(View()), index, outcome)
    {
      var pass := reconciliations[index];
      reconciliations := Without(reconciliations, index);
      running := running - {pass.key};
      for i := 0 to |pass.responses|
        invariant sent == old(sent) + Answers(pass, outcome)[..i]
        invariant pending == old(pending) && starts == old(starts) && accepted == old(accepted)
        invariant running == old(running) - {pass.key} && reconciliations == Without(old(reconciliations), index)
      {
        sent := sent + [Answer(pass.responses[i], pass.key, pass.ordinal, outcome)];
      }
      assert Answers(pass, outcome)[..|pass.responses|] == Answers(pass, outcome);
    }

    method Handle(turn: Turn)
      requires TurnPossible(View(), turn)
      modifies this
      ensures View() == TakeTurn(old(View()), turn)
    {
      match turn
      case Requests(requests) =>
        for i := 0 to |requests|
          invariant EnqueueEach(View(), requests[i..]) == EnqueueEach(old(View()), requests)
        {
          assert requests[i..][1..] == requests[i + 1..];
          Enqueue(requests[i]);
        }
      case Listed(keys) => EnqueueAll(keys);
      case Done(index, outcome) => Complete(index, outcome);
    }

    /**
      The loop over any finite script of what it waits for. It lists every key once, then starts
      passes before each wait.
    */
    method Run(listed: Option<seq<Key>>, turns: seq<Turn>)
      requires View() == Initial()
      requires TurnsPossible(ScanListed(Initial(), listed), turns)
      modifies this
      ensures View() == Turns(ScanListed(Initial(), listed), turns)
      ensures Invariant(View())
    {
      EnqueueAll(listed);
      ghost var first := View();
      assert turns[..0] == [];
      for i := 0 to |turns|
        invariant TurnsPossible(first, turns[..i]) && View() == Turns(first, turns[..i])
      {
        TurnsAppend(first, turns, i);
        StartPending();
        Handle(turns[i]);
      }
      assert turns[..|turns|] == turns;
      InitialKeeps();
      if listed.Some? { ScanKeeps(Initial(), set key | key in listed.value); }
      TurnsKeep(first, turns);
    }
  }
}
