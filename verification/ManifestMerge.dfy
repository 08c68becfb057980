/**
  Overlaying one manifest on another (agentctl/src/manifest.rs, `merge_value`): mappings merge key by
  key, anything else replaces, and `null` removes.
*/
module ManifestMerge {
  import opened Wrappers

  /** A YAML value. Numbers and booleans are told apart only from the rest. */
  datatype Value =
    | Null
    | Text(text: string)
    | Scalar(token: int)
    | List(items: seq<Value>)
    | Mapping(fields: map<string, Value>)

  function Tag(fields: map<string, Value>): Option<string> {
    if "type" in fields && fields["type"].Text? then Some(fields["type"].text) else None
  }

  /** Both name a `type`, and not the same one: the choice, with all its fields, is replaced. */
  predicate Retyped(base: map<string, Value>, patch: map<string, Value>) {
    Tag(base).Some? && Tag(patch).Some? && Tag(base) != Tag(patch)
  }

  /** Whether the two merge key by key. */
  predicate Blends(base: Value, patch: Value) {
    base.Mapping? && patch.Mapping? && !Retyped(base.fields, patch.fields)
  }

  function Merge(base: Value, patch: Value): Value
    decreases patch
  {
    if !Blends(base, patch) then patch
    else
      Mapping(map key | key in base.fields.Keys + patch.fields.Keys && !Removed(base.fields, patch.fields, key) ::
        if key !in patch.fields then base.fields[key]
        else if key !in base.fields then patch.fields[key]
        else Merge(base.fields[key], patch.fields[key]))
  }

  predicate Removed(base: map<string, Value>, patch: map<string, Value>, key: string) {
    key in base && key in patch && patch[key].Null?
  }

  function Entry(fields: map<string, Value>, key: string): Option<Value> {
    if key in fields then Some(fields[key]) else None
  }

  /** What one key holds after the merge, from what it held in each. */
  function MergedEntry(base: Option<Value>, patch: Option<Value>): Option<Value> {
    if patch.None? then base
    else if base.None? then patch
    else if patch.value.Null? then None
    else Some(Merge(base.value, patch.value))
  }

  lemma EntryOfMerge(base: Value, patch: Value, key: string)
    requires Blends(base, patch)
    ensures Entry(Merge(base, patch).fields, key) == MergedEntry(Entry(base.fields, key), Entry(patch.fields, key))
  {
  }

  /** One turn of the loop of `merge_value`. */
  method MergeEntry(fields: map<string, Value>, key: string, value: Value) returns (next: map<string, Value>)
    ensures Entry(next, key) == MergedEntry(Entry(fields, key), Some(value))
    ensures forall other :: other != key ==> Entry(next, other) == Entry(fields, other)
    decreases value, 1
  {
    if value.Null? {
      if key in fields {
        next := fields - {key};
      } else {
        next := fields[key := value];
      }
    } else if key in fields {
      var inherited := MergeValue(fields[key], value);
      next := fields[key := inherited];
    } else {
      next := fields[key := value];
    }
  }

  /** `merge_value`: the patch's keys are taken one at a time, in whatever order the mapping gives them. */
  method MergeValue(base: Value, patch: Value) returns (merged: Value)
    ensures merged == Merge(base, patch)
    decreases patch, 0
  {
    if !(base.Mapping? && patch.Mapping?) || Retyped(base.fields, patch.fields) {
      return patch;
    }
    var fields := base.fields;
    var remaining := patch.fields.Keys;
    while remaining != {}
      invariant remaining <= patch.fields.Keys
      invariant PartlyMerged(base.fields, patch.fields, fields, remaining)
      decreases |remaining|
    {
      ghost var next := Member(remaining);
      assert next in remaining;
      var key :| key in remaining;
      ghost var before := fields;
      fields := MergeEntry(fields, key, patch.fields[key]);
      OneMoreKey(base.fields, patch.fields, before, fields, remaining, key);
      remaining := remaining - {key};
    }
    merged := Mapping(fields);
    forall key
      ensures Entry(fields, key) == Entry(Merge(base, patch).fields, key)
    {
      EntryOfMerge(base, patch, key);
    }
    SameEntries(fields, Merge(base, patch).fields);
  }

  /** Each key holds what the merge gives it, but those still to be taken. */
  ghost predicate PartlyMerged(
    base: map<string, Value>, patch: map<string, Value>, fields: map<string, Value>, remaining: set<string>
  ) {
    forall key :: Entry(fields, key) ==
      MergedEntry(Entry(base, key), if key in remaining then None else Entry(patch, key))
  }

  lemma OneMoreKey(
    base: map<string, Value>, patch: map<string, Value>, before: map<string, Value>, after: map<string, Value>,
    remaining: set<string>, key: string
  )
    requires PartlyMerged(base, patch, before, remaining) && key in remaining && key in patch
    requires Entry(after, key) == MergedEntry(Entry(before, key), Some(patch[key]))
    requires forall other :: other != key ==> Entry(after, other) == Entry(before, other)
    ensures PartlyMerged(base, patch, after, remaining - {key})
  {
    assert Entry(before, key) == Entry(base, key);
  }

  lemma SameEntries(a: map<string, Value>, b: map<string, Value>)
    requires forall key :: Entry(a, key) == Entry(b, key)
    ensures a == b
  {
    forall key
      ensures key in a <==> key in b
      ensures key in a ==> a[key] == b[key]
    {
      assert Entry(a, key) == Entry(b, key);
    }
  }

  // ----- what every path of the result holds -----

  /** The value at the end of a path of keys. */
  function Lookup(value: Value, path: seq<string>): Option<Value>
    decreases |path|
  {
    if path == [] then Some(value)
    else if value.Mapping? && path[0] in value.fields then Lookup(value.fields[path[0]], path[1..])
    else None
  }

  /** Every mapping strictly above `path` is in both values, and the two blend there. */
  predicate Reaches(base: Value, patch: Value, path: seq<string>) {
    forall i :: 0 <= i < |path| ==>
      var (b, p) := (Lookup(base, path[..i]), Lookup(patch, path[..i]));
      b.Some? && p.Some? && Blends(b.value, p.value)
  }

  lemma ReachesStep(base: Value, patch: Value, path: seq<string>)
    requires path != [] && Reaches(base, patch, path)
    ensures Blends(base, patch)
    ensures path[0] in base.fields && path[0] in patch.fields ==>
      Reaches(base.fields[path[0]], patch.fields[path[0]], path[1..])
    ensures |path| > 1 ==>
      path[0] in base.fields && path[0] in patch.fields && Blends(base.fields[path[0]], patch.fields[path[0]])
  {
    assert path[..0] == [];
    if |path| > 1 {
      assert path[..1][0] == path[0];
      assert path[..1][1..] == [];
      assert Lookup(base, path[..1]).Some? && Lookup(patch, path[..1]).Some?;
      assert Blends(Lookup(base, path[..1]).value, Lookup(patch, path[..1]).value);
      assert Lookup(base, path[..1]) == Some(base.fields[path[0]]) &&
        Lookup(patch, path[..1]) == Some(patch.fields[path[0]]);
    }
    if path[0] in base.fields && path[0] in patch.fields {
      var b, p := base.fields[path[0]], patch.fields[path[0]];
      forall i | 0 <= i < |path[1..]|
        ensures Lookup(b, path[1..][..i]).Some? && Lookup(p, path[1..][..i]).Some?
        ensures Blends(Lookup(b, path[1..][..i]).value, Lookup(p, path[1..][..i]).value)
      {
        assert path[..i + 1][1..] == path[1..][..i];
        assert path[..i + 1][0] == path[0];
      }
    }
  }

  /**
    What the result holds at a path both values reach. What the patch does not mention there stays as
    it was in the base; a `null` takes away what the base has; anything else is merged with what the
    base has, or stands as given.
  */
  lemma {:induction false} MergedAt(base: Value, patch: Value, path: seq<string>)
    requires path != [] && Reaches(base, patch, path)
    ensures
      var (b, p) := (Lookup(base, path), Lookup(patch, path));
      Lookup(Merge(base, patch), path) ==
        if p.None? then b
        else if b.None? then p
        else if p.value.Null? then None
        else Some(Merge(b.value, p.value))
    decreases |path|
  {
    ReachesStep(base, patch, path);
    if |path| == 1 {
      assert path[1..] == [];
    } else {
      var b, p := base.fields[path[0]], patch.fields[path[0]];
      MergedAt(b, p, path[1..]);
    }
  }

  /** Where an ancestor does not blend, the result below it is the patch's. */
  lemma {:induction false} ReplacedBelow(base: Value, patch: Value, path: seq<string>, rest: seq<string>)
    requires Reaches(base, patch, path)
    requires Lookup(base, path).Some? && Lookup(patch, path).Some?
    requires !Blends(Lookup(base, path).value, Lookup(patch, path).value)
    requires rest != []
    ensures Lookup(Merge(base, patch), path + rest) == Lookup(patch, path + rest)
    decreases |path|
  {
    if path == [] {
      assert path + rest == rest;
    } else {
      ReachesStep(base, patch, path);
      var b, p := base.fields[path[0]], patch.fields[path[0]];
      assert (path + rest)[1..] == path[1..] + rest;
      ReplacedBelow(b, p, path[1..], rest);
      if p.Null? {
        assert path[1..] == [];
        assert Lookup(patch, path + rest) == Lookup(p, path[1..] + rest);
      }
    }
  }

  /** Nothing in the patch is at this path or replaces what is above it. */
  predicate Unmentioned(base: Value, patch: Value, path: seq<string>) {
    exists i :: 0 < i <= |path| && Reaches(base, patch, path[..i]) && Lookup(patch, path[..i]).None?
  }

  lemma {:induction false} LookupSplit(value: Value, path: seq<string>, i: nat)
    requires i <= |path|
    ensures Lookup(value, path) ==
      match Lookup(value, path[..i]) { case None => None case Some(inner) => Lookup(inner, path[i..]) }
    decreases i
  {
    if i == 0 {
      assert path[..0] == [] && path[0..] == path;
    } else if value.Mapping? && path[0] in value.fields {
      assert path[..i][1..] == path[1..][..i - 1] && path[1..][i - 1..] == path[i..];
      LookupSplit(value.fields[path[0]], path[1..], i - 1);
    }
  }

  /** Keys an overlay does not mention keep their inherited value, at every depth. */
  lemma UnmentionedIsInherited(base: Value, patch: Value, path: seq<string>)
    requires Unmentioned(base, patch, path)
    ensures Lookup(Merge(base, patch), path) == Lookup(base, path)
  {
    var i :| 0 < i <= |path| && Reaches(base, patch, path[..i]) && Lookup(patch, path[..i]).None?;
    MergedAt(base, patch, path[..i]);
    LookupSplit(base, path, i);
    LookupSplit(Merge(base, patch), path, i);
  }

  // ----- applying a patch twice -----

  /** No `null` anywhere the merge looks: in a mapping, or in a mapping inside it. */
  predicate NullFree(patch: Value) {
    patch.Mapping? ==> forall key :: key in patch.fields ==> !patch.fields[key].Null? && NullFree(patch.fields[key])
  }

  lemma {:induction false} MergeWithItself(patch: Value)
    requires NullFree(patch)
    ensures Merge(patch, patch) == patch
  {
    if patch.Mapping? {
      forall key | key in patch.fields
        ensures Merge(patch.fields[key], patch.fields[key]) == patch.fields[key]
      {
        MergeWithItself(patch.fields[key]);
      }
      assert Merge(patch, patch).fields == patch.fields;
    }
  }

  /** The result has the patch's `type` if the patch names one, so the patch blends with it again. */
  lemma StillBlends(base: Value, patch: Value)
    requires Blends(base, patch)
    ensures Blends(Merge(base, patch), patch)
  {
    EntryOfMerge(base, patch, "type");
  }

  lemma {:induction false} NullFreeMergesOnce(base: Value, patch: Value)
    requires NullFree(patch)
    ensures Merge(Merge(base, patch), patch) == Merge(base, patch)
    decreases patch
  {
    if !Blends(base, patch) {
      MergeWithItself(patch);
    } else {
      var once := Merge(base, patch);
      StillBlends(base, patch);
      forall key | key in patch.fields
        ensures key in once.fields && Merge(once.fields[key], patch.fields[key]) == once.fields[key]
      {
        if key in base.fields {
          NullFreeMergesOnce(base.fields[key], patch.fields[key]);
        } else {
          MergeWithItself(patch.fields[key]);
        }
      }
      assert Merge(once, patch).fields == once.fields;
    }
  }

  /** Over itself, a patch with a `null` comes out different the second time. */
  lemma {:induction false} NullShowsTheSecondTime(patch: Value)
    requires !NullFree(patch)
    ensures Merge(Merge(patch, patch), patch) != Merge(patch, patch)
  {
    var once := Merge(patch, patch);
    var key :| key in patch.fields && (patch.fields[key].Null? || !NullFree(patch.fields[key]));
    if patch.fields[key].Null? {
      assert key !in once.fields;
      StillBlends(patch, patch);
      assert key in Merge(once, patch).fields;
    } else {
      NullShowsTheSecondTime(patch.fields[key]);
      assert once.fields[key] == Merge(patch.fields[key], patch.fields[key]);
      StillBlends(patch, patch);
      assert Merge(once, patch).fields[key] == Merge(once.fields[key], patch.fields[key]);
    }
  }

  /** Applying a patch again changes nothing, whatever the base, exactly when the patch has no `null`. */
  lemma ReapplyingChangesNothingExactlyWhen(patch: Value)
    ensures (forall base :: Merge(Merge(base, patch), patch) == Merge(base, patch)) <==> NullFree(patch)
  {
    if NullFree(patch) {
      forall base
        ensures Merge(Merge(base, patch), patch) == Merge(base, patch)
      {
        NullFreeMergesOnce(base, patch);
      }
    } else {
      NullShowsTheSecondTime(patch);
    }
  }
}
