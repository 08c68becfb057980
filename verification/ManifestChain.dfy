/**
  Expanding a manifest through the chain it extends (agentctl/src/manifest.rs, `resolve_value`). A
  variant names one sibling, so a chain is a walk that may run into itself, and is cut off at
  `MAX_VARIANT_CHAIN` manifests.
*/
module ManifestChain {
  import opened Wrappers
  import opened ManifestMerge

  const MAX_VARIANT_CHAIN := 16
  const KIND := "Agent"
  const VARIANT_KIND := "AgentVariant"

  const API_VERSION := "agents.platform/v1alpha1"
  const MANIFEST_FILE := "agent.yaml"

  /**
    The manifests of one directory by filename: what each readable file parses to, or `None` for one
    that is not YAML. `accepts` is the strict check on a complete agent.
  */
  datatype Directory = Directory(files: map<string, Option<Value>>, accepts: Value -> bool)

  datatype Problem =
    | Cycle | TooLong | Unreadable | NotYaml | NotAMapping | NoVersion | NoKind | VersionMismatch
    | NotAnAgent | ExpandedRefused | UnknownKind
    | BadFilename | BadFields | BadVersion | BadMetadata | NoName | BadSpec | BadBase

  datatype Failure = Failure(problem: Problem, path: string)

  function StringField(fields: map<string, Value>, name: string): Option<string> {
    if name in fields && fields[name].Text? then Some(fields[name].text) else None
  }

  // ----- filenames -----

  /** Lower-case letters and digits, in parts joined by single hyphens. */
  predicate IsVariantName(name: string) {
    && name != "" && name[0] != '-' && name[|name| - 1] != '-'
    && (forall i :: 0 <= i < |name| ==> 'a' <= name[i] <= 'z' || '0' <= name[i] <= '9' || name[i] == '-')
    && (forall i :: 0 <= i < |name| - 1 ==> name[i] != '-' || name[i + 1] != '-')
  }

  /** `variant_from_filename`. */
  function VariantOf(file: string): Option<string> {
    if |file| < 11 || file[..6] != "agent." || file[|file| - 5..] != ".yaml" then None
    else if IsVariantName(file[6..|file| - 5]) then Some(file[6..|file| - 5])
    else None
  }

  function Filename(variant: string): string {
    "agent." + variant + ".yaml"
  }

  /** A filename selects a variant exactly when it is the conventional one of a variant's name. */
  lemma VariantOfItsFilename(file: string, variant: string)
    ensures VariantOf(file) == Some(variant) <==> IsVariantName(variant) && file == Filename(variant)
  {
    var conventional := Filename(variant);
    assert conventional[..6] == "agent." && conventional[|conventional| - 5..] == ".yaml";
    assert conventional[6..|conventional| - 5] == variant;
    if VariantOf(file) == Some(variant) {
      assert file == file[..6] + file[6..|file| - 5] + file[|file| - 5..];
    }
  }

  predicate IsManifestFilename(file: string) {
    file == MANIFEST_FILE || VariantOf(file).Some?
  }

  // ----- the checks on one manifest -----

  /** The checks on one manifest by itself, in their order; `expected` is the chain's version so far. */
  function Problems(directory: Directory, path: string, expected: Option<string>): Option<Problem> {
    if path !in directory.files then Some(Unreadable)
    else if directory.files[path].None? then Some(NotYaml)
    else
      var value := directory.files[path].value;
      if !value.Mapping? then Some(NotAMapping)
      else if StringField(value.fields, "apiVersion").None? then Some(NoVersion)
      else if StringField(value.fields, "kind").None? then Some(NoKind)
      else if expected.Some? && StringField(value.fields, "apiVersion") != expected then Some(VersionMismatch)
      else None
  }

  /** The checks on a variant by itself, in their order. */
  function VariantProblems(path: string, fields: map<string, Value>): Option<Problem> {
    if VariantOf(path).None? then Some(BadFilename)
    else if
      || !(fields.Keys <= {"apiVersion", "kind", "extends", "metadata", "spec"})
      || StringField(fields, "extends").None? || "metadata" !in fields
    then Some(BadFields)
    else if StringField(fields, "apiVersion") != Some(API_VERSION) then Some(BadVersion)
    else if !fields["metadata"].Mapping? then Some(BadMetadata)
    else if StringField(fields["metadata"].fields, "name") in {None, Some("")} then Some(NoName)
    else if "spec" in fields && !fields["spec"].Null? && !fields["spec"].Mapping? then Some(BadSpec)
    else if !IsManifestFilename(fields["extends"].text) then Some(BadBase)
    else None
  }

  function Fields(directory: Directory, path: string): map<string, Value>
    requires path in directory.files && directory.files[path].Some? && directory.files[path].value.Mapping?
  {
    directory.files[path].value.fields
  }

  /** The sibling a sound variant extends. */
  function Base(directory: Directory, path: string): Option<string> {
    if Problems(directory, path, None).Some? then None
    else
      var fields := Fields(directory, path);
      if StringField(fields, "kind") == Some(VARIANT_KIND) && VariantProblems(path, fields).None? then
        StringField(fields, "extends")
      else None
  }

  /** A variant's own fields as they are laid over its base: without `extends`, as an agent. */
  function Overlay(fields: map<string, Value>): Value {
    Mapping((fields - {"extends"})["kind" := Text(KIND)])
  }

  function Contains(chain: seq<string>, path: string): bool {
    exists i :: 0 <= i < |chain| && chain[i] == path
  }

  /** `resolve_value`, given the manifests already in the chain and the first one's version. */
  function Resolve(
    directory: Directory, path: string, chain: seq<string>, expected: Option<string>
  ): Result<Value, Failure>
    requires |chain| <= MAX_VARIANT_CHAIN
    decreases MAX_VARIANT_CHAIN - |chain|
  {
    if Contains(chain, path) then Err(Failure(Cycle, path))
    else if |chain| == MAX_VARIANT_CHAIN then Err(Failure(TooLong, path))
    else if Problems(directory, path, expected).Some? then Err(Failure(Problems(directory, path, expected).value, path))
    else
      var fields := Fields(directory, path);
      var version := StringField(fields, "apiVersion");
      var kind := StringField(fields, "kind").value;
      if kind == KIND then
        if directory.accepts(Mapping(fields)) then Ok(Mapping(fields)) else Err(Failure(NotAnAgent, path))
      else if kind != VARIANT_KIND then Err(Failure(UnknownKind, path))
      else if VariantProblems(path, fields).Some? then Err(Failure(VariantProblems(path, fields).value, path))
      else
        match Resolve(directory, fields["extends"].text, chain + [path], if expected.Some? then expected else version)
        case Err(failure) => Err(failure)
        case Ok(inherited) =>
          var expanded := Merge(inherited, Overlay(fields));
          if directory.accepts(expanded) then Ok(expanded) else Err(Failure(ExpandedRefused, path))
  }

  /** The recursion, with the two vectors it pushes onto. */
  class Resolver {
    const directory: Directory
    var chain: seq<string>
    var versions: seq<(string, string)>

    constructor (directory: Directory)
      ensures this.directory == directory && chain == [] && versions == []
    {
      this.directory := directory;
      chain, versions := [], [];
    }

    function Expected(): Option<string>
      reads this
    {
      if versions == [] then None else Some(versions[0].1)
    }

    /** What is pushed stays pushed, so a failure can name the chain that led to it. */
    method ResolveValue(path: string) returns (result: Result<Value, Failure>)
      requires |chain| <= MAX_VARIANT_CHAIN
      modifies this
      ensures result == Resolve(directory, path, old(chain), old(Expected()))
      ensures old(chain) <= chain && old(versions) <= versions
      ensures |chain| <= MAX_VARIANT_CHAIN
      ensures result.Ok? ==> Walked(directory, path, old(chain), chain)
      decreases MAX_VARIANT_CHAIN - |chain|
    {
      if Contains(chain, path) {
        return Err(Failure(Cycle, path));
      }
      if |chain| == MAX_VARIANT_CHAIN {
        return Err(Failure(TooLong, path));
      }
      chain := chain + [path];
      var problem := Problems(directory, path, Expected());
      if problem.Some? {
        return Err(Failure(problem.value, path));
      }
      var fields := Fields(directory, path);
      var kind := StringField(fields, "kind").value;
      versions := versions + [(path, StringField(fields, "apiVersion").value)];
      if kind == KIND {
        WalkedToAnAgent(directory, path, old(chain));
        result := if directory.accepts(Mapping(fields)) then Ok(Mapping(fields)) else Err(Failure(NotAnAgent, path));
        return;
      }
      if kind != VARIANT_KIND {
        return Err(Failure(UnknownKind, path));
      }
      problem := VariantProblems(path, fields);
      if problem.Some? {
        return Err(Failure(problem.value, path));
      }
      var base := fields["extends"].text;
      ghost var before := old(chain);
      assert Base(directory, path) == Some(base);
      var inherited := ResolveValue(base);
      if inherited.Err? {
        return inherited;
      }
      WalkedFromAVariant(directory, path, base, before, chain);
      var expanded := MergeValue(inherited.value, Overlay(fields));
      result := if directory.accepts(expanded) then Ok(expanded) else Err(Failure(ExpandedRefused, path));
    }
  }

  /** The first `n` manifests met from `path`, as far as variants name the next. */
  function Walk(directory: Directory, path: string, n: nat): (walk: seq<string>)
    ensures |walk| <= n
    decreases n
  {
    if n == 0 then []
    else
      match Base(directory, path)
      case Some(base) => [path] + Walk(directory, base, n - 1)
      case None => [path]
  }

  /** From one chain to another by walking from `path`. */
  predicate Walked(directory: Directory, path: string, before: seq<string>, after: seq<string>) {
    |before| <= |after| && after == before + Walk(directory, path, |after| - |before|)
  }

  lemma WalkedToAnAgent(directory: Directory, path: string, before: seq<string>)
    requires Base(directory, path) == None
    ensures Walked(directory, path, before, before + [path])
  {
    assert Walk(directory, path, 1) == [path];
  }

  lemma WalkedFromAVariant(directory: Directory, path: string, base: string, before: seq<string>, after: seq<string>)
    requires Base(directory, path) == Some(base) && Walked(directory, base, before + [path], after)
    ensures Walked(directory, path, before, after)
  {
    var n := |after| - |before| - 1;
    assert Walk(directory, path, n + 1) == [path] + Walk(directory, base, n);
    assert before + [path] + Walk(directory, base, n) == before + ([path] + Walk(directory, base, n));
  }

  // ----- what a resolution is -----

  /** Each manifest is sound by itself. */
  predicate Sound(directory: Directory, chain: seq<string>) {
    forall i :: 0 <= i < |chain| ==> Problems(directory, chain[i], None).None?
  }

  /** The base overlaid in order to the leaf. */
  function Expanded(directory: Directory, chain: seq<string>): Value
    requires chain != [] && Sound(directory, chain)
    decreases |chain|
  {
    assert Problems(directory, chain[0], None).None?;
    var fields := Fields(directory, chain[0]);
    if |chain| == 1 then Mapping(fields) else Merge(Expanded(directory, chain[1..]), Overlay(fields))
  }

  /**
    A chain that leads from a leaf to a complete agent: each manifest is sound and of the leaf's
    version, each but the last extends the next, and each expansion is itself a valid agent.
  */
  predicate Lineage(directory: Directory, chain: seq<string>) {
    && chain != []
    && Sound(directory, chain)
    && (forall i :: 0 <= i < |chain| ==>
          StringField(Fields(directory, chain[i]), "apiVersion")
            == StringField(Fields(directory, chain[0]), "apiVersion"))
    && (forall i :: 0 <= i < |chain| - 1 ==> Base(directory, chain[i]) == Some(chain[i + 1]))
    && StringField(Fields(directory, chain[|chain| - 1]), "kind") == Some(KIND)
    && (forall i :: 0 <= i < |chain| ==> directory.accepts(Expanded(directory, chain[i..])))
  }

  lemma LineageOfTheBase(directory: Directory, chain: seq<string>)
    requires Lineage(directory, chain) && |chain| > 1
    ensures Lineage(directory, chain[1..])
  {
    var rest := chain[1..];
    forall i | 0 <= i < |rest|
      ensures directory.accepts(Expanded(directory, rest[i..]))
    {
      assert rest[i..] == chain[i + 1..];
    }
    assert rest[0] == chain[1];
  }

  /** A leaf has one lineage at most: two of them are as long as each other. */
  lemma {:induction false} OneLineage(directory: Directory, a: seq<string>, b: seq<string>)
    requires Lineage(directory, a) && Lineage(directory, b) && a[0] == b[0]
    ensures a == b
    decreases |a|
  {
    assert |a| == 1 <==> |b| == 1;
    if |a| > 1 {
      LineageOfTheBase(directory, a);
      LineageOfTheBase(directory, b);
      assert a[1] == b[1];
      OneLineage(directory, a[1..], b[1..]);
      assert a == [a[0]] + a[1..] && b == [b[0]] + b[1..];
    } else {
      assert a == [a[0]] && b == [b[0]];
    }
  }

  lemma {:induction false} LineageFrom(directory: Directory, chain: seq<string>, i: nat)
    requires Lineage(directory, chain) && i < |chain|
    ensures Lineage(directory, chain[i..])
    decreases i
  {
    if i == 0 {
      assert chain[0..] == chain;
    } else {
      LineageOfTheBase(directory, chain);
      LineageFrom(directory, chain[1..], i - 1);
      assert chain[1..][i - 1..] == chain[i..];
    }
  }

  /** A chain that ends in a complete agent never meets a manifest twice. */
  lemma LineageIsDistinct(directory: Directory, chain: seq<string>, i: nat, j: nat)
    requires Lineage(directory, chain) && i < j < |chain|
    ensures chain[i] != chain[j]
  {
    if chain[i] == chain[j] {
      LineageFrom(directory, chain, i);
      LineageFrom(directory, chain, j);
      OneLineage(directory, chain[i..], chain[j..]);
      assert false;
    }
  }

  // ----- every lineage short enough resolves -----

  predicate Apart(seen: seq<string>, chain: seq<string>) {
    forall i, j :: 0 <= i < |seen| && 0 <= j < |chain| ==> seen[i] != chain[j]
  }

  lemma {:induction false} LineageResolves(
    directory: Directory, chain: seq<string>, seen: seq<string>, expected: Option<string>
  )
    requires Lineage(directory, chain) && |seen| + |chain| <= MAX_VARIANT_CHAIN && Apart(seen, chain)
    requires expected.Some? ==> expected == StringField(Fields(directory, chain[0]), "apiVersion")
    ensures Resolve(directory, chain[0], seen, expected) == Ok(Expanded(directory, chain))
    decreases |chain|
  {
    var path := chain[0];
    var fields := Fields(directory, path);
    assert !Contains(seen, path);
    assert chain[0..] == chain;
    if |chain| > 1 {
      var rest := chain[1..];
      var version := StringField(fields, "apiVersion");
      LineageOfTheBase(directory, chain);
      forall i, j | 0 <= i < |seen + [path]| && 0 <= j < |rest|
        ensures (seen + [path])[i] != rest[j]
      {
        LineageIsDistinct(directory, chain, 0, j + 1);
        assert rest[j] == chain[j + 1];
      }
      assert StringField(Fields(directory, chain[1]), "apiVersion") == version;
      assert Base(directory, path) == Some(rest[0]);
      LineageResolves(directory, rest, seen + [path], version);
    }
  }

  // ----- and nothing else does -----

  lemma LineageOfAVariant(directory: Directory, path: string, rest: seq<string>)
    requires Lineage(directory, rest)
    requires Base(directory, path) == Some(rest[0])
    requires StringField(Fields(directory, path), "apiVersion") == StringField(Fields(directory, rest[0]), "apiVersion")
    requires directory.accepts(Merge(Expanded(directory, rest), Overlay(Fields(directory, path))))
    ensures Lineage(directory, [path] + rest)
    ensures Expanded(directory, [path] + rest) == Merge(Expanded(directory, rest), Overlay(Fields(directory, path)))
  {
    var chain := [path] + rest;
    ExpandedVariant(directory, path, rest);
    forall i | 0 <= i < |chain|
      ensures directory.accepts(Expanded(directory, chain[i..]))
    {
      AcceptedFrom(directory, path, rest, i);
    }
  }

  lemma ExpandedVariant(directory: Directory, path: string, rest: seq<string>)
    requires rest != [] && Sound(directory, rest) && Base(directory, path).Some?
    ensures Sound(directory, [path] + rest)
    ensures Expanded(directory, [path] + rest) == Merge(Expanded(directory, rest), Overlay(Fields(directory, path)))
  {
    assert ([path] + rest)[1..] == rest;
  }

  lemma AcceptedFrom(directory: Directory, path: string, rest: seq<string>, i: nat)
    requires rest != [] && i <= |rest| && Sound(directory, [path] + rest) && Sound(directory, rest)
    requires forall k :: 0 <= k < |rest| ==> directory.accepts(Expanded(directory, rest[k..]))
    requires directory.accepts(Expanded(directory, [path] + rest))
    ensures directory.accepts(Expanded(directory, ([path] + rest)[i..]))
  {
    var chain := [path] + rest;
    if i > 0 {
      assert chain[i..] == rest[i - 1..];
    } else {
      assert chain[0..] == chain;
    }
  }

  lemma {:induction false} ResolvedHasLineage(
    directory: Directory, path: string, seen: seq<string>, expected: Option<string>
  ) returns (chain: seq<string>)
    requires |seen| <= MAX_VARIANT_CHAIN
    requires Resolve(directory, path, seen, expected).Ok?
    ensures Lineage(directory, chain) && chain[0] == path && |seen| + |chain| <= MAX_VARIANT_CHAIN
    ensures expected.Some? ==> StringField(Fields(directory, path), "apiVersion") == expected
    ensures Resolve(directory, path, seen, expected) == Ok(Expanded(directory, chain))
    decreases MAX_VARIANT_CHAIN - |seen|
  {
    var fields := Fields(directory, path);
    var version := StringField(fields, "apiVersion");
    if StringField(fields, "kind") == Some(KIND) {
      chain := [path];
      assert chain[0..] == chain;
    } else {
      var rest := ResolvedHasLineage(directory, fields["extends"].text, seen + [path], version);
      LineageOfAVariant(directory, path, rest);
      chain := [path] + rest;
    }
  }

  /**
    Resolution succeeds exactly for the leaves a lineage of at most sixteen manifests leads from, and
    then gives its base overlaid in order to the leaf. So the search for cycles refuses nothing that
    reaches a complete agent, and no cycle is ever mistaken for one.
  */
  lemma ResolvesExactlyWhen(directory: Directory, leaf: string, value: Value)
    ensures Resolve(directory, leaf, [], None) == Ok(value) <==>
      exists chain ::
        && Lineage(directory, chain) && chain[0] == leaf && |chain| <= MAX_VARIANT_CHAIN
        && Expanded(directory, chain) == value
  {
    if Resolve(directory, leaf, [], None).Ok? {
      var chain := ResolvedHasLineage(directory, leaf, [], None);
    }
    forall chain | Lineage(directory, chain) && chain[0] == leaf && |chain| <= MAX_VARIANT_CHAIN
      ensures Resolve(directory, leaf, [], None) == Ok(Expanded(directory, chain))
    {
      LineageResolves(directory, chain, [], None);
    }
  }

  // ----- what the two chain errors mean -----

  /** Each manifest names the next. */
  predicate Steps(directory: Directory, walk: seq<string>) {
    forall i :: 0 <= i < |walk| - 1 ==> Base(directory, walk[i]) == Some(walk[i + 1])
  }

  predicate Distinct(walk: seq<string>) {
    forall i, j :: 0 <= i < j < |walk| ==> walk[i] != walk[j]
  }

  /** A walk from `path` by bases, no manifest twice, that ends by naming the failure's manifest. */
  predicate EndsAt(directory: Directory, path: string, walk: seq<string>, failure: Failure) {
    && Steps(directory, walk + [failure.path]) && Distinct(walk) && (walk + [failure.path])[0] == path
    && match failure.problem
       case Cycle => failure.path in walk
       case TooLong => |walk| == MAX_VARIANT_CHAIN && failure.path !in walk
       case _ => |walk| < MAX_VARIANT_CHAIN && failure.path !in walk
  }

  lemma {:induction false} FailureWalk(directory: Directory, path: string, seen: seq<string>, expected: Option<string>)
    returns (walk: seq<string>)
    requires |seen| <= MAX_VARIANT_CHAIN && Distinct(seen) && Steps(directory, seen + [path])
    requires Resolve(directory, path, seen, expected).Err?
    ensures EndsAt(directory, (seen + [path])[0], walk, Resolve(directory, path, seen, expected).error)
    decreases MAX_VARIANT_CHAIN - |seen|
  {
    walk := seen;
    if !Contains(seen, path) && |seen| < MAX_VARIANT_CHAIN && Problems(directory, path, expected).None? {
      var fields := Fields(directory, path);
      var settled := if expected.Some? then expected else StringField(fields, "apiVersion");
      if Base(directory, path).Some? {
        var next, longer := fields["extends"].text, seen + [path];
        if Resolve(directory, next, longer, settled).Err? {
          assert (longer + [next])[..|longer|] == longer;
          walk := FailureWalk(directory, next, longer, settled);
        }
      }
    }
  }

  /**
    Every failure is found on the way: the manifest it names is reached from the leaf through distinct
    manifests; a cycle is one that comes back to one of them, and a chain is too long only when
    sixteen distinct manifests lead to a seventeenth.
  */
  lemma FailuresAreReached(directory: Directory, leaf: string)
    requires Resolve(directory, leaf, [], None).Err?
    ensures exists walk :: EndsAt(directory, leaf, walk, Resolve(directory, leaf, [], None).error)
  {
    assert ([] + [leaf])[0] == leaf;
    var walk := FailureWalk(directory, leaf, [], None);
  }

  // ----- what a leaf inherits -----

  /** Along the chain below its base, no manifest mentions `path` or replaces what is above it. */
  predicate NeverMentioned(directory: Directory, chain: seq<string>, path: seq<string>)
    requires Lineage(directory, chain)
    decreases |chain|
  {
    |chain| > 1 ==>
      Lineage(directory, chain[1..])
      && NeverMentioned(directory, chain[1..], path)
      && Unmentioned(Expanded(directory, chain[1..]), Overlay(Fields(directory, chain[0])), path)
  }

  /** Then the leaf has there exactly what the complete agent at the end of the chain has. */
  lemma {:induction false} InheritedThroughTheChain(directory: Directory, chain: seq<string>, path: seq<string>)
    requires Lineage(directory, chain) && NeverMentioned(directory, chain, path)
    ensures Lookup(Expanded(directory, chain), path) == Lookup(Mapping(Fields(directory, chain[|chain| - 1])), path)
    decreases |chain|
  {
    if |chain| > 1 {
      InheritedThroughTheChain(directory, chain[1..], path);
      UnmentionedIsInherited(Expanded(directory, chain[1..]), Overlay(Fields(directory, chain[0])), path);
    }
  }
}
