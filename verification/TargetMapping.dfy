/** src/crypto/encryption-transition.ts: the target paths of a transition, fixed before the first upload. */
module TargetMapping {
  import opened Paths
  import opened Basics

  datatype MappingError = UnsafePath | CollidesWithSource | TargetCollision | DuplicateLogical

  /** `assertSafeTransitionPath` accepts the path. */
  predicate Safe(p: Path) {
    && Normalized(p)
    && !Protected(p)
    && forall k :: 0 <= k < |p| ==> p[k] != "." && p[k] != ".." && '\0' !in p[k]
  }

  /** What a transition refuses of a path: it has no segment, or one that names no entry or is reserved. */
  lemma UnsafeIff(p: Path)
    ensures !Safe(p) <==> p == [] || exists k :: 0 <= k < |p| && (BadSegment(p[k]) || ProtectedSegment(p[k]))
  {
    if Normalized(p) { assert Normalize(p) == p; }
  }

  /** Neither path is the other or lies below it: deleting one recursively keeps the other. */
  predicate Apart(a: Path, b: Path) {
    !(a <= b) && !(b <= a)
  }

  /** The entry is safe, clear of every source, and clear of every entry before it. */
  ghost predicate Fits(entries: seq<(Path, Path)>, i: nat, sources: seq<Path>)
    requires i < |entries|
  {
    && Safe(entries[i].0) && Safe(entries[i].1)
    && (forall j :: 0 <= j < |sources| ==> Apart(entries[i].1, sources[j]))
    && (forall j :: 0 <= j < i ==> entries[i].0 != entries[j].0 && Apart(entries[i].1, entries[j].1))
  }

  /** What a complete mapping must satisfy before anything is uploaded. */
  ghost predicate Admissible(entries: seq<(Path, Path)>, sources: seq<Path>) {
    && (forall i :: 0 <= i < |sources| ==> Safe(sources[i]))
    && (forall i :: 0 <= i < |entries| ==> Fits(entries, i, sources))
  }

  /** The record that the entries spell. */
  function Record(entries: seq<(Path, Path)>): map<Path, Path> {
    if entries == [] then map[]
    else var last := entries[|entries| - 1]; Record(entries[..|entries| - 1])[last.0 := last.1]
  }

  /** `getAncestorDirectories` over a set of normalized paths. */
  ghost predicate HasBelow(path: Path, candidates: set<Path>) {
    exists c :: c in candidates && path < c
  }

  ghost predicate HasAbove(path: Path, candidates: set<Path>) {
    exists c :: c in candidates && c < path
  }

  method HasPathAncestor(path: Path, candidates: set<Path>) returns (found: bool)
    requires [] !in candidates
    ensures found <==> HasAbove(path, candidates)
  {
    var index := 1;
    while index < |path|
      invariant 1 <= index
      invariant forall c :: c in candidates && c < path ==> |c| >= index
    {
      if path[..index] in candidates {
        return true;
      }
      assert forall c :: c in candidates && c < path && |c| == index ==> c == path[..index];
      index := index + 1;
    }
    return false;
  }

  /** The paths seen so far, with their strict ancestors, as the source keeps them. */
  datatype Footprint = Footprint(paths: set<Path>, ancestors: set<Path>) {
    ghost predicate Valid() {
      && (forall p :: p in paths ==> Safe(p))
      && (forall a :: a in ancestors <==> a != [] && HasBelow(a, paths))
    }

    function Add(p: Path): Footprint { Footprint(paths + {p}, ancestors + Ancestors(p)) }

    lemma AddKeepsValid(p: Path)
      requires Valid() && Safe(p)
      ensures Add(p).Valid()
    {
      forall a ensures a in Add(p).ancestors <==> a != [] && HasBelow(a, Add(p).paths) {
        if a != [] && a < p { assert p in Add(p).paths; }
        if a in ancestors { var c :| c in paths && a < c; assert c in Add(p).paths; }
      }
    }

    method Clashes(p: Path) returns (clash: bool)
      requires Valid() && Safe(p)
      ensures clash <==> exists c :: c in paths && !Apart(p, c)
    {
      var below := HasPathAncestor(p, paths);
      clash := p in paths || p in ancestors || below;
      if c :| c in paths && !Apart(p, c) { assert p == c || p < c || c < p; }
      if p in ancestors { var c :| c in paths && p < c; assert !Apart(p, c); }
      if below { var c :| c in paths && c < p; assert !Apart(p, c); }
      if p in paths { assert !Apart(p, p); }
    }
  }

  method CollectSources(sourcePaths: seq<Path>) returns (result: Option<Footprint>)
    ensures result.Some? <==> forall i :: 0 <= i < |sourcePaths| ==> Safe(sourcePaths[i])
    ensures result.Some? ==> result.value.Valid() && result.value.paths == set p | p in sourcePaths
  {
    var source := Footprint({}, {});
    for i := 0 to |sourcePaths|
      invariant source.Valid() && source.paths == set p | p in sourcePaths[..i]
      invariant forall k :: 0 <= k < i ==> Safe(sourcePaths[k])
    {
      if !Safe(sourcePaths[i]) { return None; }
      source.AddKeepsValid(sourcePaths[i]);
      source := source.Add(sourcePaths[i]);
    }
    assert sourcePaths[..|sourcePaths|] == sourcePaths;
    return Some(source);
  }

  /** The target paths of the entries before one. */
  ghost function RawPaths(entries: seq<(Path, Path)>, i: nat): set<Path>
    requires i <= |entries|
  {
    set k | 0 <= k < i :: entries[k].1
  }

  lemma MoreRawPaths(entries: seq<(Path, Path)>, i: nat)
    requires i < |entries|
    ensures RawPaths(entries, i + 1) == RawPaths(entries, i) + {entries[i].1}
  {}

  /** The checks of one entry, in the order of the source. */
  method CheckEntry(entries: seq<(Path, Path)>, i: nat, source: Footprint, targets: Footprint,
                    logicals: set<Path>, ghost sources: seq<Path>)
    returns (error: Option<MappingError>)
    requires i < |entries| && source.Valid() && targets.Valid()
    requires source.paths == set p | p in sources
    requires targets.paths == RawPaths(entries, i)
    requires logicals == set k | 0 <= k < i :: entries[..i][k].0
    ensures error.None? <==> Fits(entries, i, sources)
  {
    var (logicalPath, rawPath) := entries[i];
    if !Safe(logicalPath) || !Safe(rawPath) { return Some(UnsafePath); }
    var collides := source.Clashes(rawPath);
    if collides { return Some(CollidesWithSource); }
    var nested := targets.Clashes(rawPath);
    if nested { return Some(TargetCollision); }
    assert forall j :: 0 <= j < |sources| ==> sources[j] in source.paths;
    return if logicalPath in logicals then Some(DuplicateLogical) else None;
  }

  lemma {:induction false} RecordKeys(entries: seq<(Path, Path)>)
    ensures Record(entries).Keys == set i | 0 <= i < |entries| :: entries[i].0
  {
    if entries != [] { RecordKeys(entries[..|entries| - 1]); }
  }

  method CreateTargetRawMapping(entries: seq<(Path, Path)>, sourcePaths: seq<Path>)
    returns (result: Result<map<Path, Path>, MappingError>)
    ensures result.Success? <==> Admissible(entries, sourcePaths)
    ensures result.Success? ==> result.value == Record(entries)
  {
    var sources := CollectSources(sourcePaths);
    if sources.None? { return Failure(UnsafePath); }
    var source := sources.value;
    var targets := Footprint({}, {});
    var rawByLogical: map<Path, Path> := map[];
    for i := 0 to |entries|
      invariant forall k :: 0 <= k < i ==> Fits(entries, k, sourcePaths)
      invariant targets.Valid() && targets.paths == RawPaths(entries, i)
      invariant rawByLogical == Record(entries[..i])
    {
      hide Footprint.Valid, RawPaths, Safe, Apart;
      RecordKeys(entries[..i]);
      var error := CheckEntry(entries, i, source, targets, rawByLogical.Keys, sourcePaths);
      if error.Some? { return Failure(error.value); }
      MoreRawPaths(entries, i);
      targets.AddKeepsValid(entries[i].1);
      targets := targets.Add(entries[i].1);
      rawByLogical := rawByLogical[entries[i].0 := entries[i].1];
      assert entries[..i + 1][..i] == entries[..i];
    }
    assert entries[..|entries|] == entries;
    return Success(rawByLogical);
  }

  // What an accepted mapping guarantees.

  /** The record holds exactly the entries, one raw path per logical path and back. */
  lemma {:induction false} RecordIsExact(entries: seq<(Path, Path)>, sources: seq<Path>)
    requires Admissible(entries, sources)
    ensures forall l, r :: (l in Record(entries) && Record(entries)[l] == r) <==> (l, r) in entries
    ensures forall l, m :: l in Record(entries) && m in Record(entries) && l != m
              ==> Apart(Record(entries)[l], Record(entries)[m])
  {
    if entries != [] {
      var init, last := entries[..|entries| - 1], entries[|entries| - 1];
      assert Admissible(init, sources) by {
        forall i | 0 <= i < |init| ensures Fits(init, i, sources) { assert Fits(entries, i, sources); }
      }
      RecordIsExact(init, sources);
      assert Fits(entries, |entries| - 1, sources);
      assert entries == init + [last];
      forall l | l in Record(init) ensures l != last.0 && Apart(Record(init)[l], last.1) {
        var j :| 0 <= j < |init| && init[j] == (l, Record(init)[l]);
        assert entries[j] == init[j];
      }
    }
  }

  /** Deleting every source recursively removes no target, and rolling back every target removes no source. */
  lemma CleanupsAreDisjoint(entries: seq<(Path, Path)>, sources: seq<Path>, source: Path, target: Path)
    requires Admissible(entries, sources) && source in sources && target in Record(entries).Values
    ensures Apart(source, target)
  {
    RecordIsExact(entries, sources);
    var l :| l in Record(entries) && Record(entries)[l] == target;
    var i :| 0 <= i < |entries| && entries[i] == (l, target);
    assert Fits(entries, i, sources);
  }

  /** The reader of a persisted mapping accepts it in whatever order the record enumerates. */
  lemma ReloadIsAdmissible(entries: seq<(Path, Path)>, sources: seq<Path>,
                           again: seq<(Path, Path)>, againSources: seq<Path>)
    requires Admissible(entries, sources)
    requires forall i :: 0 <= i < |again| ==> again[i] in entries
    requires forall i :: 0 <= i < |againSources| ==> againSources[i] in sources
    requires forall i, j :: 0 <= i < j < |again| ==> again[i] != again[j]
    ensures Admissible(again, againSources)
  {
    RecordIsExact(entries, sources);
    var m := Record(entries);
    forall i | 0 <= i < |again| ensures Fits(again, i, againSources) {
      assert again[i] in entries;
      var k :| 0 <= k < |entries| && entries[k] == again[i];
      assert Fits(entries, k, sources);
      forall j | 0 <= j < |againSources| ensures Apart(again[i].1, againSources[j]) {
        assert againSources[j] in sources;
        var s :| 0 <= s < |sources| && sources[s] == againSources[j];
      }
      forall j | 0 <= j < i ensures again[i].0 != again[j].0 && Apart(again[i].1, again[j].1) {
        assert again[j] in entries && again[i] in entries;
        assert m[again[i].0] == again[i].1 && m[again[j].0] == again[j].1;
      }
    }
  }
}
