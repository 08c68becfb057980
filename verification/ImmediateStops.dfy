/**
  Requests for stops that end a sandbox at once (`ImmediateStops` in
  agentctl/src/control_plane/service.rs): at most one generation for each agent.
*/
module ImmediateStops {
  import opened Wrappers
  import opened AgentStore

  /** One agent's entry after a start stored at `generation` was read. */
  function Superseded(entry: Option<nat>, generation: nat): Option<nat> {
    if entry.Some? && entry.value < generation then None else entry
  }

  function Of(requests: map<Id, nat>, id: Id): Option<nat> {
    if id in requests then Some(requests[id]) else None
  }

  /** What is done to one agent's entry: a request, a take, a start that was read, or nothing. */
  datatype Use = Request(generation: nat) | Take | Supersede(generation: nat) | Unrelated

  function AfterUse(entry: Option<nat>, use: Use): Option<nat> {
    match use
    case Request(generation) => Some(generation)
    case Take => None
    case Supersede(generation) => Superseded(entry, generation)
    case Unrelated => entry
  }

  /** One agent's entry, none at first, after the first `n` of these. */
  function AfterUses(uses: seq<Use>, n: nat): Option<nat>
    requires n <= |uses|
  {
    if n == 0 then None else AfterUse(AfterUses(uses, n - 1), uses[n - 1])
  }

  /** The use takes away a request for `generation`: it takes any, or is a start newer than that. */
  predicate Removes(use: Use, generation: nat) {
    use.Take? || (use.Supersede? && generation < use.generation)
  }

  /** The request at `i` is the last of the first `n` made, however old, and nothing took it away. */
  predicate Stands(uses: seq<Use>, n: nat, i: nat, generation: nat)
    requires n <= |uses|
  {
    && i < n && uses[i] == Request(generation)
    && forall j :: i < j < n ==> !uses[j].Request? && !Removes(uses[j], generation)
  }

  /**
    Exactly when a request is there, and which: it is the last one made, and since then nothing took
    it and no start newer than it was read. While requests arrive in order of generation the last is
    the newest, so only a newer start forgets it; a late request for an older stop takes the place of
    a newer one, and then an older start forgets both.
  */
  lemma {:induction false} RequestedExactlyWhen(uses: seq<Use>, n: nat, generation: nat)
    requires n <= |uses|
    ensures AfterUses(uses, n) == Some(generation) <==> exists i: nat :: Stands(uses, n, i, generation)
  {
    if n > 0 {
      var last := uses[n - 1];
      RequestedExactlyWhen(uses, n - 1, generation);
      assert last == Request(generation) ==> Stands(uses, n, n - 1, generation);
      if i: nat :| Stands(uses, n, i, generation) {
        assert i < n - 1 ==> Stands(uses, n - 1, i, generation);
      }
      var before := n - 1;
      if i: nat :| Stands(uses, before, i, generation) {
        assert !last.Request? && !Removes(last, generation) ==> Stands(uses, n, i, generation);
      }
    }
  }

  class Requests {
    var requested: map<Id, nat>

    constructor ()
      ensures requested == map[]
    {
      requested := map[];
    }

    method Request(id: Id, generation: nat)
      modifies this
      ensures requested == old(requested)[id := generation]
    {
      requested := requested[id := generation];
    }

    method Take(id: Id) returns (generation: Option<nat>)
      modifies this
      ensures generation == Of(old(requested), id)
      ensures requested == old(requested) - {id}
    {
      if id in requested {
        generation := Some(requested[id]);
        requested := requested - {id};
      } else {
        generation := None;
      }
    }

    method Supersede(id: Id, generation: nat)
      modifies this
      ensures Of(requested, id) == Superseded(Of(old(requested), id), generation)
      ensures requested - {id} == old(requested) - {id}
    {
      if id in requested && requested[id] < generation {
        requested := requested - {id};
      }
    }
  }
}
