/**
  Which host login an agent's harness uses: the choice (agentctl/src/harness/login.rs) and the record
  of it (agentctl/src/harness/mod.rs, `assign_login`). Logins are numbered in the order of their names.
*/
module Logins {
  import opened Wrappers

  type Login = nat
  type AgentId = nat

  datatype LoginSet = Named(logins: seq<Login>) | Any

  type Uses = map<Login, nat>

  function UsesOf(inUse: Uses, login: Login): nat {
    if login in inUse then inUse[login] else 0
  }

  // ----- stable sorting -----

  /** `item` goes before the first that does not come before it. */
  function Insert(item: Login, sorted: seq<Login>, key: Uses): (longer: seq<Login>)
    ensures |longer| == |sorted| + 1
  {
    if sorted == [] || UsesOf(key, item) <= UsesOf(key, sorted[0]) then [item] + sorted
    else [sorted[0]] + Insert(item, sorted[1..], key)
  }

  function Sorted(items: seq<Login>, key: Uses): (sorted: seq<Login>)
    ensures |sorted| == |items|
  {
    if items == [] then [] else Insert(items[0], Sorted(items[1..], key), key)
  }

  /** The item at `i` has the least key, and none before it has as small a one. */
  predicate EarliestLeast(items: seq<Login>, key: Uses, i: nat)
    requires i < |items|
  {
    forall j :: 0 <= j < |items| ==>
      UsesOf(key, items[i]) <= UsesOf(key, items[j]) && (j < i ==> UsesOf(key, items[i]) < UsesOf(key, items[j]))
  }

  /** The first after a stable sort is the earliest of the least. */
  lemma {:induction false} FirstOfSorted(items: seq<Login>, key: Uses) returns (i: nat)
    requires items != []
    ensures i < |items| && items[i] == Sorted(items, key)[0] && EarliestLeast(items, key, i)
  {
    i := 0;
    if |items| > 1 {
      var k := FirstOfSorted(items[1..], key);
      if UsesOf(key, items[0]) > UsesOf(key, items[1..][k]) {
        i := k + 1;
      }
      forall j | 0 <= j < |items|
        ensures UsesOf(key, items[i]) <= UsesOf(key, items[j]) &&
          (j < i ==> UsesOf(key, items[i]) < UsesOf(key, items[j]))
      {
        if j > 0 { assert items[j] == items[1..][j - 1]; }
      }
    }
  }

  // ----- the choice -----

  predicate IsSmallest(least: Login, logins: set<Login>) {
    least in logins && forall l :: l in logins ==> least <= l
  }

  function Smallest(logins: set<Login>): (least: Login)
    requires logins != {}
    ensures IsSmallest(least, logins)
  {
    SomeSmallest(logins);
    var least :| IsSmallest(least, logins);
    least
  }

  lemma {:induction false} SomeSmallest(logins: set<Login>)
    requires logins != {}
    ensures exists least :: IsSmallest(least, logins)
    decreases |logins|
  {
    var one := Member(logins);
    var rest := logins - {one};
    assert logins == rest + {one};
    if rest == {} {
      assert IsSmallest(one, logins);
    } else {
      SomeSmallest(rest);
      var least :| IsSmallest(least, rest);
      assert IsSmallest(if one < least then one else least, logins);
    }
  }

  /** Stored logins by name. */
  function ByName(logins: set<Login>): seq<Login>
    decreases |logins|
  {
    if logins == {} then [] else [Smallest(logins)] + ByName(logins - {Smallest(logins)})
  }

  function Filtered(logins: seq<Login>, stored: set<Login>): seq<Login> {
    if logins == [] then []
    else (if logins[0] in stored then [logins[0]] else []) + Filtered(logins[1..], stored)
  }

  function Candidates(allowed: LoginSet, stored: set<Login>): seq<Login> {
    match allowed
    case Named(logins) => Filtered(logins, stored)
    case Any => ByName(stored)
  }

  /** `LoginSet::choose`. */
  function Choose(allowed: LoginSet, stored: set<Login>, current: Option<Login>, inUse: Uses): Option<Login> {
    var candidates := Candidates(allowed, stored);
    if current.Some? && current.value in candidates then current
    else if candidates == [] then None
    else Some(Sorted(candidates, inUse)[0])
  }

  predicate Allows(allowed: LoginSet, login: Login) {
    allowed.Any? || login in allowed.logins
  }

  /** `a` is preferred to `b` on a tie: named earlier, or, for any, by name. */
  predicate Prefers(allowed: LoginSet, a: Login, b: Login) {
    match allowed
    case Named(logins) => exists i, j :: 0 <= i < j < |logins| && logins[i] == a && logins[j] == b
    case Any => a < b
  }

  predicate Usable(allowed: LoginSet, stored: set<Login>, login: Login) {
    Allows(allowed, login) && login in stored
  }

  lemma {:induction false} FilteredHas(logins: seq<Login>, stored: set<Login>)
    ensures forall l :: l in Filtered(logins, stored) <==> l in logins && l in stored
    ensures forall i, j :: 0 <= i < j < |Filtered(logins, stored)| ==>
      Prefers(Named(logins), Filtered(logins, stored)[i], Filtered(logins, stored)[j])
  {
    if logins != [] {
      var rest := Filtered(logins[1..], stored);
      FilteredHas(logins[1..], stored);
      forall i, j | 0 <= i < j < |Filtered(logins, stored)|
        ensures Prefers(Named(logins), Filtered(logins, stored)[i], Filtered(logins, stored)[j])
      {
        var skip := |Filtered(logins, stored)| - |rest|;
        var b := rest[j - skip];
        assert b in rest && b in logins[1..];
        if i < skip {
          var k :| 0 <= k < |logins[1..]| && logins[1..][k] == b;
          assert logins[0] == Filtered(logins, stored)[i] && logins[k + 1] == b;
        } else {
          var x, y :| 0 <= x < y < |logins[1..]| && logins[1..][x] == rest[i - skip] && logins[1..][y] == b;
          assert logins[x + 1] == rest[i - skip] && logins[y + 1] == b;
        }
      }
    }
  }

  lemma {:induction false} ByNameHas(logins: set<Login>)
    ensures forall l :: l in ByName(logins) <==> l in logins
    ensures forall i, j :: 0 <= i < j < |ByName(logins)| ==> ByName(logins)[i] < ByName(logins)[j]
    decreases |logins|
  {
    if logins != {} {
      var least := Smallest(logins);
      ByNameHas(logins - {least});
      var rest := ByName(logins - {least});
      forall i, j | 0 <= i < j < |ByName(logins)|
        ensures ByName(logins)[i] < ByName(logins)[j]
      {
        assert rest[j - 1] in rest;
      }
    }
  }

  lemma CandidatesHave(allowed: LoginSet, stored: set<Login>)
    ensures forall l :: l in Candidates(allowed, stored) <==> Usable(allowed, stored, l)
    ensures forall i, j :: 0 <= i < j < |Candidates(allowed, stored)| ==>
      Prefers(allowed, Candidates(allowed, stored)[i], Candidates(allowed, stored)[j])
  {
    match allowed {
      case Named(logins) => FilteredHas(logins, stored);
      case Any => ByNameHas(stored);
    }
  }

  /**
    The rule of the choice: none exactly when no login of the set is stored; the current one while it
    may be kept; otherwise the least used, preferred to every other as little used.
  */
  lemma ChooseKeepsOrSpreads(allowed: LoginSet, stored: set<Login>, current: Option<Login>, inUse: Uses)
    ensures
      match Choose(allowed, stored, current, inUse)
      case None => forall l :: !Usable(allowed, stored, l)
      case Some(chosen) =>
        && Usable(allowed, stored, chosen)
        && (current.Some? && Usable(allowed, stored, current.value) ==> chosen == current.value)
        && (current.None? || !Usable(allowed, stored, current.value) ==>
              forall l :: Usable(allowed, stored, l) && l != chosen ==>
                && UsesOf(inUse, chosen) <= UsesOf(inUse, l)
                && (UsesOf(inUse, chosen) == UsesOf(inUse, l) ==> Prefers(allowed, chosen, l)))
  {
    var candidates := Candidates(allowed, stored);
    CandidatesHave(allowed, stored);
    if candidates == [] {
      assert forall l :: Usable(allowed, stored, l) ==> l in candidates;
    } else {
      var i := FirstOfSorted(candidates, inUse);
      forall l | Usable(allowed, stored, l) && l != candidates[i]
        ensures UsesOf(inUse, candidates[i]) <= UsesOf(inUse, l)
        ensures UsesOf(inUse, candidates[i]) == UsesOf(inUse, l) ==> Prefers(allowed, candidates[i], l)
      {
        var j :| 0 <= j < |candidates| && candidates[j] == l;
      }
    }
  }

  // ----- the record of it -----

  datatype Harness = ClaudeCode | Codex | Pi

  /** An agent as listed; `recorded` are the logins its stored status names. */
  datatype Agent = Agent(id: AgentId, stopped: bool, deleting: bool, recorded: map<Harness, Login>)

  type Assignments = map<AgentId, map<Harness, Login>>

  datatype Error = NoPlatformLogin

  /** The login chosen here, or else the one the agent's status names. */
  function LoginOf(assignments: Assignments, agent: Agent, kind: Harness): Option<Login> {
    if agent.id in assignments && kind in assignments[agent.id] then Some(assignments[agent.id][kind])
    else if kind in agent.recorded then Some(agent.recorded[kind])
    else None
  }

  predicate Listed(agents: seq<Agent>, id: AgentId) {
    exists i :: 0 <= i < |agents| && agents[i].id == id
  }

  function Retained(assignments: Assignments, agents: seq<Agent>): Assignments {
    map id | id in assignments && Listed(agents, id) :: assignments[id]
  }

  /** A running agent, other than the one a login is chosen for. */
  predicate Counts(agent: Agent, self: Option<AgentId>) {
    self != Some(agent.id) && !agent.stopped && !agent.deleting
  }

  /** How many of the agents that count use the login. */
  function Using(
    agents: seq<Agent>, assignments: Assignments, kind: Harness, self: Option<AgentId>, login: Login
  ): nat {
    if agents == [] then 0
    else
      var last := agents[|agents| - 1];
      Using(agents[..|agents| - 1], assignments, kind, self, login)
      + if Counts(last, self) && LoginOf(assignments, last, kind) == Some(login) then 1 else 0
  }

  function Recorded(assignments: Assignments, id: AgentId, kind: Harness, chosen: Option<Login>): Assignments {
    var logins := if id in assignments then assignments[id] else map[];
    assignments[id := if chosen.Some? then logins[kind := chosen.value] else logins - {kind}]
  }

  /** The uses map that `assign_login` counts holds each login's number of users, and nothing else. */
  ghost predicate CountsUses(inUse: Uses, agents: seq<Agent>, assignments: Assignments, kind: Harness, self: AgentId) {
    forall login :: UsesOf(inUse, login) == Using(agents, assignments, kind, Some(self), login)
  }

  /** One choice for `record`, and what is recorded of it. */
  ghost predicate Assigns(
    before: Assignments, agents: seq<Agent>, record: Agent, kind: Harness, allowed: LoginSet, usable: set<Login>,
    chosen: Option<Login>, after: Assignments
  ) {
    var kept := Retained(before, agents);
    && after == Recorded(kept, record.id, kind, chosen)
    && exists inUse ::
         && CountsUses(inUse, agents, kept, kind, record.id)
         && chosen == Choose(allowed, usable, LoginOf(kept, record, kind), inUse)
  }

  class AuthenticationManager {
    var assignments: Assignments

    constructor ()
      ensures assignments == map[]
    {
      assignments := map[];
    }

    /** How many other running agents use each login. */
    method CountUses(agents: seq<Agent>, kind: Harness, self: AgentId) returns (inUse: Uses)
      ensures CountsUses(inUse, agents, assignments, kind, self)
    {
      inUse := map[];
      var i := 0;
      while i < |agents|
        invariant 0 <= i <= |agents|
        invariant CountsUses(inUse, agents[..i], assignments, kind, self)
      {
        var other := agents[i];
        assert agents[..i + 1][..i] == agents[..i];
        if !(other.id == self || other.stopped || other.deleting) {
          var login := LoginOf(assignments, other, kind);
          if login.Some? {
            inUse := inUse[login.value := UsesOf(inUse, login.value) + 1];
          }
        }
        i := i + 1;
      }
      assert agents[..|agents|] == agents;
    }

    /** `assign_login`, once the usable logins and the agents are read. */
    method AssignLogin(agents: seq<Agent>, record: Agent, kind: Harness, allowed: LoginSet, usable: set<Login>)
      returns (result: Result<Option<Login>, Error>)
      modifies this
      ensures result.Err? <==> kind == Pi
      ensures result.Err? ==> assignments == old(assignments)
      ensures result.Ok? ==> Assigns(old(assignments), agents, record, kind, allowed, usable, result.value, assignments)
    {
      if kind == Pi { return Err(NoPlatformLogin); }
      assignments := map id | id in assignments && Listed(agents, id) :: assignments[id];
      ghost var kept := assignments;
      var inUse := CountUses(agents, kind, record.id);
      var chosen := Choose(allowed, usable, LoginOf(assignments, record, kind), inUse);
      var logins := if record.id in assignments then assignments[record.id] else map[];
      match chosen {
        case Some(login) => logins := logins[kind := login];
        case None => logins := logins - {kind};
      }
      assignments := assignments[record.id := logins];
      assert assignments == Recorded(kept, record.id, kind, chosen);
      return Ok(chosen);
    }
  }

  // ----- the spread -----

  /** Agents whose harness of one kind has the same set, and the logins usable for it. */
  datatype Pool = Pool(agents: seq<Agent>, kind: Harness, allowed: LoginSet, usable: set<Login>)
  {
    predicate May(login: Login) {
      Usable(allowed, usable, login)
    }

    function Has(a: Assignments, i: nat): Option<Login>
      requires i < |agents|
    {
      LoginOf(a, agents[i], kind)
    }

    function Users(a: Assignments, login: Login): nat {
      Using(agents, a, kind, None, login)
    }

    /** Every agent is running, has an identity of its own, and starts without a login. */
    predicate Fresh() {
      && (forall i, j :: 0 <= i < j < |agents| ==> agents[i].id != agents[j].id)
      && (forall i :: 0 <= i < |agents| ==> !agents[i].stopped && !agents[i].deleting && kind !in agents[i].recorded)
    }

    /** The agents up to the last. */
    function Front(): Pool
      requires agents != []
    {
      this.(agents := agents[..|agents| - 1])
    }
  }

  ghost predicate Pass(p: Pool, before: Assignments, i: nat, after: Assignments)
    requires i < |p.agents|
  {
    exists chosen :: Assigns(before, p.agents, p.agents[i], p.kind, p.allowed, p.usable, chosen, after)
  }

  /** Passes over the agents, each as often and in whatever order it comes. */
  ghost predicate Passes(p: Pool, history: seq<Assignments>, passes: seq<nat>) {
    && |history| == |passes| + 1 && history[0] == map[]
    && forall n :: 0 <= n < |passes| ==> passes[n] < |p.agents| && Pass(p, history[n], passes[n], history[n + 1])
  }

  /** Only agents of the list have a login, it is one they may use, and its users are close to any other's. */
  ghost predicate Spread(p: Pool, a: Assignments) {
    && (forall id :: id in a ==> Listed(p.agents, id))
    && (forall i :: 0 <= i < |p.agents| && p.Has(a, i).Some? ==> p.May(p.Has(a, i).value))
    && (forall l, m :: p.May(l) && p.May(m) ==> p.Users(a, l) <= p.Users(a, m) + 1)
  }

  lemma {:induction false} UsingOthers(agents: seq<Agent>, a: Assignments, kind: Harness, self: AgentId, login: Login)
    requires forall i :: 0 <= i < |agents| ==> agents[i].id != self || LoginOf(a, agents[i], kind) != Some(login)
    ensures Using(agents, a, kind, Some(self), login) == Using(agents, a, kind, None, login)
  {
    if agents != [] {
      UsingOthers(agents[..|agents| - 1], a, kind, self, login);
    }
  }

  lemma {:induction false} UsingSame(agents: seq<Agent>, a: Assignments, b: Assignments, kind: Harness, login: Login)
    requires forall k :: 0 <= k < |agents| ==> LoginOf(a, agents[k], kind) == LoginOf(b, agents[k], kind)
    ensures Using(agents, a, kind, None, login) == Using(agents, b, kind, None, login)
  {
    if agents != [] {
      UsingSame(agents[..|agents| - 1], a, b, kind, login);
    }
  }

  /** Who has which login after a pass. */
  lemma LoginsAfter(p: Pool, before: Assignments, i: nat, chosen: Option<Login>)
    requires p.Fresh() && i < |p.agents|
    ensures forall k :: 0 <= k < |p.agents| ==>
      p.Has(Recorded(before, p.agents[i].id, p.kind, chosen), k) == if k == i then chosen else p.Has(before, k)
  {
    forall k | 0 <= k < |p.agents|
      ensures p.Has(Recorded(before, p.agents[i].id, p.kind, chosen), k) == if k == i then chosen else p.Has(before, k)
    {
      assert k != i ==> p.agents[k].id != p.agents[i].id;
    }
  }

  /** One agent's login goes from none to `chosen`: one user more for it, and none for the others. */
  lemma {:induction false} UsersAfter(p: Pool, a: Assignments, b: Assignments, i: nat, chosen: Login, login: Login)
    requires p.Fresh() && i < |p.agents| && p.Has(a, i).None?
    requires forall k :: 0 <= k < |p.agents| ==> p.Has(b, k) == if k == i then Some(chosen) else p.Has(a, k)
    ensures p.Users(b, login) == p.Users(a, login) + if login == chosen then 1 else 0
    decreases |p.agents|
  {
    var n := |p.agents| - 1;
    assert p.Has(b, n) == if n == i then Some(chosen) else p.Has(a, n);
    forall k | 0 <= k < n
      ensures p.Front().Has(b, k) == if k == i then Some(chosen) else p.Front().Has(a, k)
    {
      assert p.Has(b, k) == if k == i then Some(chosen) else p.Has(a, k);
    }
    if i == n {
      forall k | 0 <= k < n
        ensures LoginOf(a, p.agents[..n][k], p.kind) == LoginOf(b, p.agents[..n][k], p.kind)
      {
        assert p.Front().Has(b, k) == p.Front().Has(a, k);
      }
      UsingSame(p.agents[..n], a, b, p.kind, login);
    } else {
      UsersAfter(p.Front(), a, b, i, chosen, login);
    }
  }

  /** A login chosen for an agent without one keeps every pair of usable logins within one of each other. */
  lemma FreshChoiceKeepsBalance(p: Pool, before: Assignments, i: nat, inUse: Uses, l: Login, m: Login)
    requires p.Fresh() && i < |p.agents| && p.Has(before, i).None?
    requires CountsUses(inUse, p.agents, before, p.kind, p.agents[i].id)
    requires p.May(l) && p.May(m) && p.Users(before, l) <= p.Users(before, m) + 1
    ensures
      var chosen := Choose(p.allowed, p.usable, None, inUse);
      var after := Recorded(before, p.agents[i].id, p.kind, chosen);
      chosen.Some? && p.Users(after, l) <= p.Users(after, m) + 1
  {
    ChooseKeepsOrSpreads(p.allowed, p.usable, None, inUse);
    var chosen := Choose(p.allowed, p.usable, None, inUse);
    var after := Recorded(before, p.agents[i].id, p.kind, chosen);
    LoginsAfter(p, before, i, chosen);
    UsersAfter(p, before, after, i, chosen.value, l);
    UsersAfter(p, before, after, i, chosen.value, m);
    OthersUse(p, before, i, inUse, l);
    OthersUse(p, before, i, inUse, m);
  }

  /** For an agent without a login the others' uses are everyone's. */
  lemma OthersUse(p: Pool, a: Assignments, i: nat, inUse: Uses, login: Login)
    requires p.Fresh() && i < |p.agents| && p.Has(a, i).None?
    requires CountsUses(inUse, p.agents, a, p.kind, p.agents[i].id)
    ensures UsesOf(inUse, login) == p.Users(a, login)
  {
    forall k | 0 <= k < |p.agents| && k != i
      ensures p.agents[k].id != p.agents[i].id
    {
    }
    UsingOthers(p.agents, a, p.kind, p.agents[i].id, login);
  }

  /** An agent that has a login has the same one after any pass. */
  ghost predicate Kept(p: Pool, before: Assignments, after: Assignments) {
    forall k :: 0 <= k < |p.agents| && p.Has(before, k).Some? ==> p.Has(after, k) == p.Has(before, k)
  }

  lemma PassKeepsBalance(p: Pool, before: Assignments, i: nat, inUse: Uses, l: Login, m: Login)
    requires p.Fresh() && i < |p.agents| && Spread(p, before) && p.May(l) && p.May(m)
    requires CountsUses(inUse, p.agents, before, p.kind, p.agents[i].id)
    ensures
      var chosen := Choose(p.allowed, p.usable, p.Has(before, i), inUse);
      var after := Recorded(before, p.agents[i].id, p.kind, chosen);
      p.Users(after, l) <= p.Users(after, m) + 1
  {
    var current := p.Has(before, i);
    if current.Some? {
      var after := Recorded(before, p.agents[i].id, p.kind, current);
      ChooseKeepsOrSpreads(p.allowed, p.usable, current, inUse);
      LoginsAfter(p, before, i, current);
      forall k | 0 <= k < |p.agents|
        ensures LoginOf(before, p.agents[k], p.kind) == LoginOf(after, p.agents[k], p.kind)
      {
        assert p.Has(after, k) == p.Has(before, k);
      }
      UsingSame(p.agents, before, after, p.kind, l);
      UsingSame(p.agents, before, after, p.kind, m);
    } else {
      FreshChoiceKeepsBalance(p, before, i, inUse, l, m);
    }
  }

  lemma PassKeepsLogins(p: Pool, before: Assignments, i: nat, inUse: Uses)
    requires p.Fresh() && i < |p.agents| && Spread(p, before)
    ensures
      var chosen := Choose(p.allowed, p.usable, p.Has(before, i), inUse);
      var after := Recorded(before, p.agents[i].id, p.kind, chosen);
      && (forall id :: id in after ==> Listed(p.agents, id))
      && (forall k :: 0 <= k < |p.agents| && p.Has(after, k).Some? ==> p.May(p.Has(after, k).value))
      && Kept(p, before, after)
      && ((exists l :: p.May(l)) ==> p.Has(after, i).Some?)
  {
    var chosen := Choose(p.allowed, p.usable, p.Has(before, i), inUse);
    ChooseKeepsOrSpreads(p.allowed, p.usable, p.Has(before, i), inUse);
    LoginsAfter(p, before, i, chosen);
  }

  lemma PassKeepsSpread(p: Pool, before: Assignments, i: nat, after: Assignments)
    requires p.Fresh() && i < |p.agents| && Spread(p, before) && Pass(p, before, i, after)
    ensures Spread(p, after) && Kept(p, before, after)
    ensures (exists l :: p.May(l)) ==> p.Has(after, i).Some?
  {
    assert Retained(before, p.agents) == before;
    var chosen :| Assigns(before, p.agents, p.agents[i], p.kind, p.allowed, p.usable, chosen, after);
    var inUse :| CountsUses(inUse, p.agents, before, p.kind, p.agents[i].id)
      && chosen == Choose(p.allowed, p.usable, p.Has(before, i), inUse);
    PassKeepsLogins(p, before, i, inUse);
    forall l, m | p.May(l) && p.May(m)
      ensures p.Users(after, l) <= p.Users(after, m) + 1
    {
      PassKeepsBalance(p, before, i, inUse, l, m);
    }
  }

  lemma {:induction false} SpreadAt(p: Pool, history: seq<Assignments>, passes: seq<nat>, at: nat)
    requires p.Fresh() && Passes(p, history, passes) && at <= |passes|
    ensures Spread(p, history[at])
    decreases at
  {
    if at == 0 {
      forall l, m
        ensures p.Users(history[0], l) <= p.Users(history[0], m) + 1
      {
        NoUsers(p.agents, p.kind, l);
      }
    } else {
      SpreadAt(p, history, passes, at - 1);
      assert Pass(p, history[at - 1], passes[at - 1], history[at]);
      PassKeepsSpread(p, history[at - 1], passes[at - 1], history[at]);
    }
  }

  lemma KeptAt(p: Pool, history: seq<Assignments>, passes: seq<nat>, at: nat)
    requires p.Fresh() && Passes(p, history, passes) && at < |passes|
    ensures Kept(p, history[at], history[at + 1])
    ensures passes[at] < |p.agents| && ((exists l :: p.May(l)) ==> p.Has(history[at + 1], passes[at]).Some?)
  {
    SpreadAt(p, history, passes, at);
    assert Pass(p, history[at], passes[at], history[at + 1]);
    PassKeepsSpread(p, history[at], passes[at], history[at + 1]);
  }

  lemma KeptTwice(p: Pool, a: Assignments, b: Assignments, c: Assignments)
    requires Kept(p, a, b) && Kept(p, b, c)
    ensures Kept(p, a, c)
  {
  }

  lemma {:induction false} KeptSince(p: Pool, history: seq<Assignments>, from: nat, at: nat)
    requires forall n :: 0 <= n < |history| - 1 ==> Kept(p, history[n], history[n + 1])
    requires from <= at < |history|
    ensures Kept(p, history[from], history[at])
    decreases at
  {
    if from < at {
      KeptSince(p, history, from, at - 1);
      assert Kept(p, history[at - 1], history[at - 1 + 1]);
      KeptTwice(p, history[from], history[at - 1], history[at]);
    }
  }

  /**
    However many fresh running agents are given logins of one set, with passes repeated and
    interleaved as they come, the logins' users differ by one at most; an agent given a login keeps
    it; and if any login is usable, every agent that had a pass has one.
  */
  lemma LoginsSpread(p: Pool, history: seq<Assignments>, passes: seq<nat>, l: Login, m: Login, n: nat)
    requires p.Fresh() && Passes(p, history, passes) && p.May(l) && p.May(m) && n < |passes|
    ensures p.Users(history[|passes|], l) <= p.Users(history[|passes|], m) + 1
    ensures Kept(p, history[n], history[|passes|])
    ensures passes[n] < |p.agents| && p.Has(history[|passes|], passes[n]).Some?
  {
    SpreadAt(p, history, passes, |passes|);
    forall k | 0 <= k < |passes|
      ensures Kept(p, history[k], history[k + 1])
    {
      KeptAt(p, history, passes, k);
    }
    KeptAt(p, history, passes, n);
    KeptSince(p, history, n, |passes|);
    KeptSince(p, history, n + 1, |passes|);
  }

  lemma {:induction false} NoUsers(agents: seq<Agent>, kind: Harness, login: Login)
    requires forall i :: 0 <= i < |agents| ==> kind !in agents[i].recorded
    ensures Using(agents, map[], kind, None, login) == 0
  {
    if agents != [] {
      NoUsers(agents[..|agents| - 1], kind, login);
    }
  }
}
