/** src/crypto/replacement-cleanup.ts: the passes that delete a replaced namespace, and the rules of
    src/crypto/replacement.ts for the plans they record. Paths are relative to the sync root. */
module ReplacementCleanup {
  import opened Basics
  import opened Paths
  import opened DeletionCover

  /** `EncryptionReplacementScope` */
  datatype Scope = Scope(syncPatterns: seq<string>, excludePatterns: seq<string>, syncDotObsidian: bool, configDir: string)

  /** A replacement: what never changes during its cleanup, and then the recorded plan and the raw paths it keeps. */
  datatype Replacement = Replacement(
    sourceEpoch: string, targetEpoch: string, scope: Scope, deletions: seq<Action>, preserved: set<Path>)

  /** The source codec: none for plaintext, known, or not known yet. */
  datatype Codec = Plain | Known | Unknown

  /** What building the source codec from the local transition yields. */
  datatype Acquire = Unavailable | Refused | Acquired

  /** The filters and the source codec as the classification sees them. `inspect` is told whether names may be
      encrypted; `inScope` is the replacement filter, for directories the filter of whole subtrees. */
  datatype Policy = Policy(
    inspect: (Path, bool) -> bool, decodes: Path -> bool, inScope: (Path, Kind) -> bool, plainSource: bool, acquire: Acquire)

  /** How the resources read so far are sorted. */
  datatype Sorting = Sorting(removable: set<Path>, collapsible: set<Path>, preserved: set<Path>, codec: Codec)

  // `isPreservedRawPath` and the validator.

  ghost predicate Preserves(preserved: set<Path>, path: Path) { exists root :: root in preserved && root <= path }

  /** `validPaths([path])` */
  predicate ValidPath(p: Path) {
    Normalized(p) && forall k :: 0 <= k < |p| ==> p[k] != "." && p[k] != ".." && '\0' !in p[k]
  }

  /** The rules of `validateEncryptionReplacement` that relate paths to each other. */
  ghost predicate Apart(r: Replacement) {
    && (forall i :: 0 <= i < |r.deletions| ==>
          !Preserves(r.preserved, r.deletions[i].path) && forall keep :: keep in r.preserved ==> !(r.deletions[i].path < keep))
    && forall i, j :: 0 <= i < |r.deletions| && 0 <= j < |r.deletions| && i != j ==> !(r.deletions[j].path <= r.deletions[i].path)
  }

  /** The rules about each path alone. */
  ghost predicate Spelled(r: Replacement) {
    && (forall p :: p in r.preserved ==> ValidPath(p))
    && forall i :: 0 <= i < |r.deletions| ==> ValidPath(r.deletions[i].path) && !Protected(r.deletions[i].path)
  }

  /** The rules about what never changes. */
  predicate ValidNamespace(r: Replacement) {
    r.sourceEpoch != "" && r.targetEpoch != "" && r.sourceEpoch != r.targetEpoch && r.scope.configDir != ""
  }

  /** `validateEncryptionReplacement` accepts the replacement. */
  ghost predicate Validates(r: Replacement) { ValidNamespace(r) && Spelled(r) && Apart(r) }

  predicate BadPath(p: Path) { p == [] || exists k :: 0 <= k < |p| && BadSegment(p[k]) }

  lemma BadPathIff(p: Path)
    ensures ValidPath(p) <==> !BadPath(p)
    ensures ValidPath(p) ==> (Protected(p) <==> exists k :: 0 <= k < |p| && ProtectedSegment(p[k]))
  {
    if Normalized(p) { assert Normalize(p) == p; }
  }

  /** A deletion that is badly spelled or reserved, or that meets something preserved or another deletion. */
  ghost predicate BadDeletion(r: Replacement, i: nat)
    requires i < |r.deletions|
  {
    var p := r.deletions[i].path;
    || BadPath(p) || (exists k :: 0 <= k < |p| && ProtectedSegment(p[k]))
    || (exists keep :: keep in r.preserved && (keep <= p || p <= keep))
    || exists j :: 0 <= j < |r.deletions| && j != i && r.deletions[j].path <= p
  }

  /** What the validator refuses. */
  lemma RefusedIff(r: Replacement)
    ensures !Validates(r) <==>
      || r.sourceEpoch == "" || r.targetEpoch == "" || r.sourceEpoch == r.targetEpoch || r.scope.configDir == ""
      || (exists p :: p in r.preserved && BadPath(p))
      || exists i :: 0 <= i < |r.deletions| && BadDeletion(r, i)
  {
    hide ValidPath, BadPath, BadDeletion, Sound, Validates;
    ValidatesIff(r);
    forall p ensures ValidPath(p) <==> !BadPath(p) { BadPathIff(p); }
    forall i | 0 <= i < |r.deletions| ensures Sound(r, i) <==> !BadDeletion(r, i) { SoundIff(r, i); }
  }

  lemma ValidatesIff(r: Replacement)
    ensures Validates(r) <==>
      && ValidNamespace(r) && (forall p :: p in r.preserved ==> ValidPath(p))
      && forall i :: 0 <= i < |r.deletions| ==> Sound(r, i)
  {
    hide ValidPath, Protected, Preserves, ValidNamespace;
    if Spelled(r) && Apart(r) {
      forall i | 0 <= i < |r.deletions| ensures Sound(r, i) {}
    }
    if forall i :: 0 <= i < |r.deletions| ==> Sound(r, i) {
      forall i | 0 <= i < |r.deletions|
        ensures ValidPath(r.deletions[i].path) && !Protected(r.deletions[i].path) && !Preserves(r.preserved, r.deletions[i].path)
        ensures forall keep :: keep in r.preserved ==> !(r.deletions[i].path < keep)
        ensures forall j :: 0 <= j < |r.deletions| && i != j ==> !(r.deletions[j].path <= r.deletions[i].path)
      {
        assert Sound(r, i);
      }
    }
  }

  ghost predicate Sound(r: Replacement, i: nat)
    requires i < |r.deletions|
  {
    var p := r.deletions[i].path;
    && ValidPath(p) && !Protected(p) && !Preserves(r.preserved, p) && (forall keep :: keep in r.preserved ==> !(p < keep))
    && forall j :: 0 <= j < |r.deletions| && i != j ==> !(r.deletions[j].path <= p)
  }

  lemma SoundIff(r: Replacement, i: nat)
    requires i < |r.deletions|
    ensures Sound(r, i) <==> !BadDeletion(r, i)
  {
    BadPathIff(r.deletions[i].path);
    hide ValidPath, Protected, BadPath;
  }

  // Classification of one listing.

  predicate Under(deletions: seq<Action>, raw: Path) { exists i :: 0 <= i < |deletions| && deletions[i].path <= raw }

  predicate UnderDirectory(deletions: seq<Action>, raw: Path) {
    exists i :: 0 <= i < |deletions| && deletions[i].kind == Dir && deletions[i].path <= raw
  }

  /** A directory with a file somewhere below it. */
  predicate Populated(resources: seq<Action>, dir: Path) {
    exists i :: 0 <= i < |resources| && resources[i].kind == File && dir < resources[i].path
  }

  predicate KeepsBelow(kept: set<Path>, dir: Path) { exists p :: p in kept && dir < p }

  /** The codec in force once a resource needs it. */
  function CodecFor(policy: Policy, deletions: seq<Action>, codec: Codec, r: Action): Option<Codec> {
    var early := if codec == Unknown && policy.plainSource then Plain else codec;
    if early == Unknown && r.kind == File && !Under(deletions, r.path) then
      match policy.acquire
      case Unavailable => Some(Unknown)
      case Refused => None
      case Acquired => Some(Known)
    else Some(early)
  }

  /** One resource, under the codec found for it; None when the pass fails. */
  function Place(policy: Policy, deletions: seq<Action>, s: Sorting, r: Action): Option<Sorting> {
    if s.codec == Unknown then
      if Under(deletions, r.path) then
        if r.kind == File then Some(s.(removable := s.removable + {r.path}))
        else if UnderDirectory(deletions, r.path) then Some(s.(collapsible := s.collapsible + {r.path}))
        else Some(s)
      else if r.kind == Dir then Some(s) else None
    else if !policy.decodes(r.path) then None
    else if r.kind == Dir then Some(if policy.inScope(r.path, Dir) then s.(collapsible := s.collapsible + {r.path}) else s)
    else if policy.inScope(r.path, File) then Some(s.(removable := s.removable + {r.path}))
    else Some(s.(preserved := s.preserved + {r.path}))
  }

  function Classify(policy: Policy, targets: set<Path>, deletions: seq<Action>, all: seq<Action>, s: Sorting, r: Action)
    : Option<Sorting>
  {
    if r.kind == Dir && !Populated(all, r.path) then Some(s)
    else if r.path in targets || (r.kind == Dir && KeepsBelow(targets + s.preserved, r.path)) then Some(s)
    else if !policy.inspect(r.path, s.codec != Plain) then
      Some(if r.kind == File then s.(preserved := s.preserved + {r.path}) else s)
    else
      var codec := CodecFor(policy, deletions, s.codec, r);
      if codec.None? then None else Place(policy, deletions, s.(codec := codec.value), r)
  }

  ghost function ClassifyAll(policy: Policy, targets: set<Path>, deletions: seq<Action>, all: seq<Action>, s: Sorting, n: nat)
    : Option<Sorting>
    requires n <= |all|
  {
    if n == 0 then Some(s)
    else
      var before := ClassifyAll(policy, targets, deletions, all, s, n - 1);
      if before.None? then None else Classify(policy, targets, deletions, all, before.value, all[n - 1])
  }

  /** Every file listed so far is a live target, removable, or preserved; only files become removable, never a target;
      and what was preserved stays preserved. */
  ghost predicate AccountedFor(targets: set<Path>, all: seq<Action>, n: nat, s: Sorting, t: Sorting)
    requires n <= |all|
  {
    && s.preserved <= t.preserved
    && (forall i :: 0 <= i < n && all[i].kind == File ==>
          all[i].path in targets || all[i].path in t.removable || all[i].path in t.preserved)
    && (forall p :: p in t.removable && p !in s.removable ==> p !in targets && exists i :: 0 <= i < n && all[i] == Action(p, File))
    && (forall p :: p in t.preserved && p !in s.preserved ==> exists i :: 0 <= i < n && all[i] == Action(p, File))
  }

  lemma {:induction false} EveryFileIsAccountedFor(
      policy: Policy, targets: set<Path>, deletions: seq<Action>, all: seq<Action>, s: Sorting, n: nat)
    requires n <= |all| && ClassifyAll(policy, targets, deletions, all, s, n).Some?
    ensures s.removable <= ClassifyAll(policy, targets, deletions, all, s, n).value.removable
    ensures AccountedFor(targets, all, n, s, ClassifyAll(policy, targets, deletions, all, s, n).value)
  {
    hide CodecFor, Under, UnderDirectory, Populated, KeepsBelow;
    if n > 0 {
      EveryFileIsAccountedFor(policy, targets, deletions, all, s, n - 1);
      var before := ClassifyAll(policy, targets, deletions, all, s, n - 1).value;
      var after := Classify(policy, targets, deletions, all, before, all[n - 1]).value;
      assert before.removable <= after.removable <= before.removable + {all[n - 1].path};
      assert all[n - 1].path in after.removable && all[n - 1].path !in before.removable ==> all[n - 1] == Action(all[n - 1].path, File);
      assert after.preserved <= before.preserved + {all[n - 1].path};
      assert all[n - 1].path in after.preserved && all[n - 1].path !in before.preserved ==> all[n - 1] == Action(all[n - 1].path, File);
    }
  }

  // What decides about a file or a directory, in terms of the filters alone.

  /** The name passes the filter of raw names, whether or not names may be encrypted. */
  predicate Looked(policy: Policy, p: Path) { policy.inspect(p, true) || policy.inspect(p, false) }

  predicate AlwaysLooked(policy: Policy, p: Path) { policy.inspect(p, true) && policy.inspect(p, false) }

  predicate InScope(policy: Policy, p: Path, kind: Kind) { policy.decodes(p) && policy.inScope(p, kind) }

  predicate ClearlyReplaceable(policy: Policy, r: Action) { AlwaysLooked(policy, r.path) && InScope(policy, r.path, r.kind) }

  /** The source codec is out of reach, but the path lies under a deletion that is recorded already. */
  predicate Replayed(policy: Policy, deletions: seq<Action>, codec: Codec, p: Path) {
    codec == Unknown && !policy.plainSource && exists i :: 0 <= i < |deletions| && deletions[i].path <= p
  }

  predicate ReplayedDirectory(policy: Policy, deletions: seq<Action>, codec: Codec, p: Path) {
    codec == Unknown && !policy.plainSource && exists i :: 0 <= i < |deletions| && deletions[i].kind == Dir && deletions[i].path <= p
  }

  /** A file that a cleanup may delete. */
  predicate Replaceable(policy: Policy, deletions: seq<Action>, codec: Codec, p: Path) {
    Looked(policy, p) && (InScope(policy, p, File) || Replayed(policy, deletions, codec, p))
  }

  /** The pass has had a codec that decodes the name, or has found none and needs none. */
  predicate Served(policy: Policy, deletions: seq<Action>, s: Codec, t: Codec, p: Path) {
    Replayed(policy, deletions, s, p) || (policy.decodes(p) && (s != Unknown || policy.plainSource || t == Known))
  }

  /** Files: only replaceable ones become removable, every clearly replaceable one does, and all others are preserved;
      none that is inspected has been passed over without a codec for its name. */
  ghost predicate FilesByPolicy(policy: Policy, targets: set<Path>, deletions: seq<Action>, all: seq<Action>, n: nat, s: Sorting, t: Sorting)
    requires n <= |all|
  {
    && (forall p :: p in t.removable && p !in s.removable ==> Replaceable(policy, deletions, s.codec, p))
    && forall i :: 0 <= i < n && all[i].kind == File && all[i].path !in targets ==>
         && (ClearlyReplaceable(policy, all[i]) ==> all[i].path in t.removable)
         && (AlwaysLooked(policy, all[i].path) && Replayed(policy, deletions, t.codec, all[i].path) ==> all[i].path in t.removable)
         && (AlwaysLooked(policy, all[i].path) ==> Served(policy, deletions, s.codec, t.codec, all[i].path))
         && (!Replaceable(policy, deletions, s.codec, all[i].path) ==> all[i].path in t.preserved)
  }

  /** A directory that may be deleted as a whole as far as its name and its place tell. */
  ghost predicate Collapses(policy: Policy, targets: set<Path>, all: seq<Action>, kept: set<Path>, p: Path) {
    && p !in targets && (exists j :: 0 <= j < |all| && all[j].kind == File && p < all[j].path)
    && forall keep :: keep in targets + kept ==> !(p < keep)
  }

  /** Directories: only replaceable ones with files and nothing to keep below them collapse, and with the codec at
      hand, or none to be had, every clearly replaceable one does. */
  ghost predicate DirectoriesByPolicy(policy: Policy, targets: set<Path>, deletions: seq<Action>, all: seq<Action>, n: nat, s: Sorting, t: Sorting)
    requires n <= |all|
  {
    && (forall p :: p in t.collapsible && p !in s.collapsible ==>
          && Action(p, Dir) in all && Collapses(policy, targets, all, s.preserved, p) && Looked(policy, p)
          && (InScope(policy, p, Dir) || ReplayedDirectory(policy, deletions, s.codec, p)))
    && forall i :: 0 <= i < n && all[i].kind == Dir && AlwaysLooked(policy, all[i].path)
                   && Collapses(policy, targets, all, t.preserved, all[i].path) ==>
         && (s.codec != Unknown && InScope(policy, all[i].path, Dir) ==> all[i].path in t.collapsible)
         && (ReplayedDirectory(policy, deletions, t.codec, all[i].path) ==> all[i].path in t.collapsible)
         && (s.codec != Unknown ==> policy.decodes(all[i].path))
  }

  /** What makes a classification fail: a name that does not decode, or a file that needs a codec which cannot be had. */
  predicate Fails(policy: Policy, targets: set<Path>, deletions: seq<Action>, codec: Codec, r: Action) {
    && r.path !in targets && Looked(policy, r.path)
    && (!policy.decodes(r.path)
        || (r.kind == File && codec == Unknown && !policy.plainSource && policy.acquire != Acquired
            && !Replayed(policy, deletions, codec, r.path)))
  }

  /** The codec is looked for only while it is unknown, and once found it stays. */
  predicate CodecGrows(policy: Policy, s: Codec, t: Codec) {
    if s != Unknown then t == s
    else if policy.plainSource then t in {Unknown, Plain}
    else t == Unknown || (t == Known && policy.acquire == Acquired)
  }

  lemma OneByPolicy(policy: Policy, targets: set<Path>, deletions: seq<Action>, all: seq<Action>, s: Sorting, r: Action)
    ensures var t := Classify(policy, targets, deletions, all, s, r);
      if t.None? then Fails(policy, targets, deletions, s.codec, r)
      else
        && CodecGrows(policy, s.codec, t.value.codec) && s.preserved <= t.value.preserved
        && s.removable <= t.value.removable <= s.removable + {r.path} && s.collapsible <= t.value.collapsible <= s.collapsible + {r.path}
  {}

  lemma OneFileByPolicy(policy: Policy, targets: set<Path>, deletions: seq<Action>, all: seq<Action>, s: Sorting, r: Action)
    requires Classify(policy, targets, deletions, all, s, r).Some?
    ensures var t := Classify(policy, targets, deletions, all, s, r).value;
      && (r.path in t.removable && r.path !in s.removable ==> r.kind == File && Replaceable(policy, deletions, s.codec, r.path))
      && (r.kind == File && r.path !in targets && ClearlyReplaceable(policy, r) ==> r.path in t.removable)
      && (r.kind == File && r.path !in targets && AlwaysLooked(policy, r.path) ==>
            && (Replayed(policy, deletions, t.codec, r.path) ==> r.path in t.removable)
            && Served(policy, deletions, s.codec, t.codec, r.path))
      && (r.kind == File && r.path !in targets && !Replaceable(policy, deletions, s.codec, r.path) ==> r.path in t.preserved)
  {}

  lemma OneDirectoryByPolicy(policy: Policy, targets: set<Path>, deletions: seq<Action>, all: seq<Action>, s: Sorting, r: Action)
    requires Classify(policy, targets, deletions, all, s, r).Some?
    ensures var t := Classify(policy, targets, deletions, all, s, r).value;
      && (r.path in t.collapsible && r.path !in s.collapsible ==>
            && r.kind == Dir && Collapses(policy, targets, all, s.preserved, r.path) && Looked(policy, r.path)
            && (InScope(policy, r.path, Dir) || ReplayedDirectory(policy, deletions, s.codec, r.path)))
      && (r.kind == Dir && AlwaysLooked(policy, r.path) && Collapses(policy, targets, all, s.preserved, r.path) ==>
            && (s.codec != Unknown && InScope(policy, r.path, Dir) ==> r.path in t.collapsible)
            && (ReplayedDirectory(policy, deletions, t.codec, r.path) ==> r.path in t.collapsible)
            && (s.codec != Unknown ==> policy.decodes(r.path)))
  {}

  /** What a codec found on the way allows, the unknown one allowed before. */
  lemma CodecOnlyNarrows(policy: Policy, deletions: seq<Action>, s: Codec, t: Codec, p: Path)
    requires CodecGrows(policy, s, t)
    ensures Replayed(policy, deletions, t, p) ==> Replayed(policy, deletions, s, p)
    ensures ReplayedDirectory(policy, deletions, t, p) ==> ReplayedDirectory(policy, deletions, s, p)
    ensures s != Unknown ==> t == s
  {}

  lemma {:induction false} SortedByPolicy(
      policy: Policy, targets: set<Path>, deletions: seq<Action>, all: seq<Action>, s: Sorting, n: nat)
    requires n <= |all|
    ensures var t := ClassifyAll(policy, targets, deletions, all, s, n);
      if t.None? then exists i :: 0 <= i < n && Fails(policy, targets, deletions, s.codec, all[i])
      else
        && CodecGrows(policy, s.codec, t.value.codec) && s.preserved <= t.value.preserved
        && FilesByPolicy(policy, targets, deletions, all, n, s, t.value) && DirectoriesByPolicy(policy, targets, deletions, all, n, s, t.value)
  {
    hide Classify, Looked, ClearlyReplaceable, InScope, Replayed, ReplayedDirectory, CodecGrows, Collapses, Fails;
    if n == 0 { NothingGrows(policy, s.codec); }
    else {
      SortedByPolicy(policy, targets, deletions, all, s, n - 1);
      var before := ClassifyAll(policy, targets, deletions, all, s, n - 1);
      if before.Some? { OneMoreByPolicy(policy, targets, deletions, all, s, before.value, n); }
    }
  }

  lemma NothingGrows(policy: Policy, codec: Codec)
    ensures CodecGrows(policy, codec, codec)
  {}

  lemma OneMoreByPolicy(policy: Policy, targets: set<Path>, deletions: seq<Action>, all: seq<Action>, s: Sorting, before: Sorting, n: nat)
    requires 0 < n <= |all| && CodecGrows(policy, s.codec, before.codec) && s.preserved <= before.preserved
    requires FilesByPolicy(policy, targets, deletions, all, n - 1, s, before)
    requires DirectoriesByPolicy(policy, targets, deletions, all, n - 1, s, before)
    ensures var t := Classify(policy, targets, deletions, all, before, all[n - 1]);
      if t.None? then Fails(policy, targets, deletions, s.codec, all[n - 1])
      else
        && CodecGrows(policy, s.codec, t.value.codec) && s.preserved <= t.value.preserved
        && FilesByPolicy(policy, targets, deletions, all, n, s, t.value) && DirectoriesByPolicy(policy, targets, deletions, all, n, s, t.value)
  {
    var r := all[n - 1];
    OneByPolicy(policy, targets, deletions, all, before, r);
    CodecOnlyNarrows(policy, deletions, s.codec, before.codec, r.path);
    var t := Classify(policy, targets, deletions, all, before, r);
    if t.None? { FailsNarrows(policy, targets, deletions, s.codec, before.codec, r); }
    else {
      GrowsOn(policy, s.codec, before.codec, t.value.codec);
      OneFileByPolicy(policy, targets, deletions, all, before, r);
      OneDirectoryByPolicy(policy, targets, deletions, all, before, r);
      hide Classify, Looked, ClearlyReplaceable, InScope, Replayed, ReplayedDirectory, CodecGrows, Collapses, Fails;
      forall p | Collapses(policy, targets, all, before.preserved, p) ensures Collapses(policy, targets, all, s.preserved, p) {
        CollapsesLess(policy, targets, all, s.preserved, before.preserved, p);
      }
      forall p | Collapses(policy, targets, all, t.value.preserved, p) ensures Collapses(policy, targets, all, before.preserved, p) {
        CollapsesLess(policy, targets, all, before.preserved, t.value.preserved, p);
      }
    }
  }

  lemma FailsNarrows(policy: Policy, targets: set<Path>, deletions: seq<Action>, s: Codec, t: Codec, r: Action)
    requires CodecGrows(policy, s, t) && Fails(policy, targets, deletions, t, r)
    ensures Fails(policy, targets, deletions, s, r)
  {}

  lemma GrowsOn(policy: Policy, a: Codec, b: Codec, c: Codec)
    requires CodecGrows(policy, a, b) && CodecGrows(policy, b, c)
    ensures CodecGrows(policy, a, c)
  {}

  lemma CollapsesLess(policy: Policy, targets: set<Path>, all: seq<Action>, less: set<Path>, more: set<Path>, p: Path)
    requires less <= more && Collapses(policy, targets, all, more, p)
    ensures Collapses(policy, targets, all, less, p)
  {
    assert targets + less <= targets + more;
  }

  /** The loop of the source over the listed resources: what it sorts is accounted for, and sorted by the filters. */
  method ClassifyResources(policy: Policy, targets: set<Path>, deletions: seq<Action>, all: seq<Action>, start: Sorting)
    returns (result: Option<Sorting>)
    ensures result.Some? ==> start.removable <= result.value.removable && AccountedFor(targets, all, |all|, start, result.value)
    ensures result.Some? ==> FilesByPolicy(policy, targets, deletions, all, |all|, start, result.value)
    ensures result.Some? ==> DirectoriesByPolicy(policy, targets, deletions, all, |all|, start, result.value)
    ensures result.Some? ==> CodecGrows(policy, start.codec, result.value.codec)
    ensures result.None? ==> exists i :: 0 <= i < |all| && Fails(policy, targets, deletions, start.codec, all[i])
    ensures result == ClassifyAll(policy, targets, deletions, all, start, |all|)
  {
    SortedByPolicy(policy, targets, deletions, all, start, |all|);
    result := SortResources(policy, targets, deletions, all, start);
    if result.Some? { EveryFileIsAccountedFor(policy, targets, deletions, all, start, |all|); }
  }

  method SortResources(policy: Policy, targets: set<Path>, deletions: seq<Action>, all: seq<Action>, start: Sorting)
    returns (result: Option<Sorting>)
    ensures result == ClassifyAll(policy, targets, deletions, all, start, |all|)
  {
    var removable, collapsible, preserved, codec := start.removable, start.collapsible, start.preserved, start.codec;
    for n := 0 to |all|
      invariant ClassifyAll(policy, targets, deletions, all, start, n) == Some(Sorting(removable, collapsible, preserved, codec))
    {
      ghost var before := Sorting(removable, collapsible, preserved, codec);
      ghost var rest := ClassifyAll(policy, targets, deletions, all, start, n + 1);
      assert rest == Classify(policy, targets, deletions, all, before, all[n]);
      StaysFailed(policy, targets, deletions, all, start, n + 1, |all|);
      hide ClassifyAll, Under, UnderDirectory, Populated, KeepsBelow;
      var raw, kind := all[n].path, all[n].kind;
      if kind == Dir && !Populated(all, raw) { continue; }
      if raw in targets || (kind == Dir && KeepsBelow(targets + preserved, raw)) { continue; }
      if !policy.inspect(raw, codec != Plain) {
        if kind == File { preserved := preserved + {raw}; }
        continue;
      }
      if codec == Unknown && policy.plainSource { codec := Plain; }
      if codec == Unknown && kind == File && !Under(deletions, raw) {
        if policy.acquire == Refused { return None; }
        if policy.acquire == Acquired { codec := Known; }
      }
      if codec == Unknown {
        if Under(deletions, raw) {
          if kind == File { removable := removable + {raw}; }
          else if UnderDirectory(deletions, raw) { collapsible := collapsible + {raw}; }
          continue;
        }
        if kind == Dir { continue; }
        return None;
      }
      if !policy.decodes(raw) { return None; }
      if kind == Dir {
        if policy.inScope(raw, Dir) { collapsible := collapsible + {raw}; }
      } else if policy.inScope(raw, File) {
        removable := removable + {raw};
      } else {
        preserved := preserved + {raw};
      }
    }
    return Some(Sorting(removable, collapsible, preserved, codec));
  }

  lemma {:induction false} StaysFailed(
      policy: Policy, targets: set<Path>, deletions: seq<Action>, all: seq<Action>, s: Sorting, n: nat, m: nat)
    requires n <= m <= |all|
    ensures ClassifyAll(policy, targets, deletions, all, s, n).None? ==> ClassifyAll(policy, targets, deletions, all, s, m).None?
    decreases m
  {
    hide Classify;
    if n < m { StaysFailed(policy, targets, deletions, all, s, n, m - 1); }
  }

  // Deletion.

  /** The replacement in the maintenance of the canonical index; None when it has no such maintenance. */
  type Canonical = Option<Replacement>

  /** What happens while the workers delete, in the order in which it happens: a foreign device changes the canonical
      index, the guard of a DELETE of one action runs, or its subtree is looked at under the same guard. `current` is
      whether the lifetime, the connection and the rest of the authority still hold. */
  datatype Moment =
    | Overwritten(canonical: Canonical)
    | Guarded(action: nat, current: bool)
    | LookedAt(action: nat, current: bool, gone: bool)

  /** A DELETE that was sent, with what the canonical index recorded at that moment. */
  datatype Sent = Sent(action: Action, canonical: Canonical)

  predicate WasSent(log: seq<Sent>, action: Action) { exists d :: d in log && d.action == action }

  lemma SentMore(log: seq<Sent>, more: Sent)
    ensures WasSent(log + [more], more.action) && forall action :: WasSent(log, action) ==> WasSent(log + [more], action)
  {
    assert more in log + [more];
    forall action | WasSent(log, action) ensures WasSent(log + [more], action) {
      var d :| d in log && d.action == action;
      assert d in log + [more];
    }
  }

  predicate Retains(retained: set<Path>, root: Path) { exists path :: path in retained && root <= path }

  /** The guard of `deleteReplacementGroup`: the canonical index still records exactly the replacement that this
      device holds, the action is in its plan, and nothing to be retained lies at or below it. */
  predicate MaySend(canonical: Canonical, held: Replacement, retained: set<Path>, action: Action) {
    canonical == Some(held) && action in canonical.value.deletions && !Retains(retained, action.path)
  }

  /** The plan is recorded, and nothing to be retained lies at or below any of it. */
  ghost predicate Clear(plan: seq<Action>, held: Replacement, retained: set<Path>) {
    forall i :: 0 <= i < |plan| ==> plan[i] in held.deletions && forall path :: path in retained ==> !(plan[i].path <= path)
  }

  /** Nothing happens meanwhile but this cleanup, whose authority holds: every action is guarded, and found gone
      later. */
  ghost predicate Undisturbed(n: nat, moments: seq<Moment>) {
    && (forall k :: 0 <= k < |moments| ==>
          match moments[k] case Overwritten(_) => false case Guarded(_, current) => current case LookedAt(_, current, gone) => current && gone)
    && forall i :: 0 <= i < n ==> DoneBy(i, moments)
  }

  ghost predicate DoneBy(i: nat, moments: seq<Moment>) {
    exists j, k :: 0 <= j < k < |moments| && moments[j] == Guarded(i, true) && moments[k] == LookedAt(i, true, true)
  }

  lemma DoneMore(moments: seq<Moment>, more: Moment)
    ensures forall i: nat :: DoneBy(i, moments + [more]) ==>
      DoneBy(i, moments) || (more == LookedAt(i, true, true) && Guarded(i, true) in moments)
  {
    forall i: nat | DoneBy(i, moments + [more])
      ensures DoneBy(i, moments) || (more == LookedAt(i, true, true) && Guarded(i, true) in moments)
    {
      var all := moments + [more];
      var j, k :| 0 <= j < k < |all| && all[j] == Guarded(i, true) && all[k] == LookedAt(i, true, true);
      assert moments[j] == all[j];
      if k < |moments| { assert moments[k] == all[k]; }
    }
  }

  /** `deleteReplacementGroup`, for every interleaving of its workers with each other and with foreign devices: a
      DELETE is sent only for an action of the plan that the canonical index records at that moment, and success means
      that every action was sent and found gone. Undisturbed, a plan that is recorded and keeps clear of what is
      retained succeeds. */
  method DeleteGroup(plan: seq<Action>, held: Replacement, retained: set<Path>, moments: seq<Moment>, start: Canonical)
    returns (ok: bool, log: seq<Sent>, canonical: Canonical)
    ensures forall d :: d in log ==> d.action in plan && MaySend(d.canonical, held, retained, d.action)
    ensures forall d, path :: d in log && path in retained ==> !(d.action.path <= path)
    ensures Undisturbed(|plan|, moments) && start == Some(held) && Clear(plan, held, retained) ==> ok && canonical == start
    ensures ok ==> forall i :: 0 <= i < |plan| ==> WasSent(log, plan[i]) && LookedAt(i, true, true) in moments
    ensures log != [] ==> start == Some(held) || Overwritten(Some(held)) in moments
  {
    var failed := false;
    var sent: set<nat>, settled: set<nat> := {}, {};
    log, canonical := [], start;
    for k := 0 to |moments|
      invariant forall d :: d in log ==> d.action in plan && MaySend(d.canonical, held, retained, d.action)
      invariant forall i :: i in sent ==> i < |plan| && WasSent(log, plan[i])
      invariant forall i :: i in settled ==> i < |plan| && WasSent(log, plan[i]) && LookedAt(i, true, true) in moments
      invariant canonical == start || Overwritten(canonical) in moments
      invariant log != [] ==> start == Some(held) || Overwritten(Some(held)) in moments
      invariant Undisturbed(|plan|, moments) && start == Some(held) && Clear(plan, held, retained) ==>
        && !failed && canonical == start
        && (forall i :: 0 <= i < |plan| && Guarded(i, true) in moments[..k] ==> i in sent)
        && (forall i :: 0 <= i < |plan| && DoneBy(i, moments[..k]) ==> i in settled)
    {
      assert moments[..k + 1] == moments[..k] + [moments[k]];
      DoneMore(moments[..k], moments[k]);
      match moments[k]
      case Overwritten(foreign) => canonical := foreign;
      case Guarded(i, current) =>
        if failed || i >= |plan| { continue; }
        if current && MaySend(canonical, held, retained, plan[i]) {
          SentMore(log, Sent(plan[i], canonical));
          log, sent := log + [Sent(plan[i], canonical)], sent + {i};
        } else {
          failed := true;
        }
      case LookedAt(i, current, gone) =>
        if i !in sent { continue; }
        if !failed && current && gone && MaySend(canonical, held, retained, plan[i]) {
          settled := settled + {i};
          assert moments[k] == LookedAt(i, true, true);
        } else {
          failed := true;
        }
    }
    assert moments[..|moments|] == moments;
    ok := !failed && forall i :: 0 <= i < |plan| ==> i in settled;
  }

  // One pass.

  /** What a foreign device did to the canonical index since this device last looked. */
  datatype Foreign = Untouched | Wrote(canonical: Canonical)

  /** What one pass meets: the canonical index and its live targets while the authority holds, the raw listing with
      the protected paths seen below a directory, the filters, whether the save of a new plan succeeds or takes effect
      although it fails, what happens while the workers delete, whether the verification repaired a target, and
      whether the authority still holds at the end. */
  datatype Input = Input(
    foreign: Foreign, authority: bool, targets: set<Path>, listing: Option<seq<Action>>, protectedBelow: set<Path>, policy: Policy,
    saved: bool, landed: bool, moments: seq<Moment>, repaired: Option<bool>, confirmed: bool)

  datatype Verdict = Failed | Again | Done

  /** What a pass makes of its listing. */
  ghost function Sorted(x: Input, r: Replacement, codec: Codec): Option<Sorting>
    requires x.listing.Some?
  {
    ClassifyAll(x.policy, x.targets, r.deletions, x.listing.value,
                Sorting({}, {}, r.preserved + x.targets + x.protectedBelow, codec), |x.listing.value|)
  }

  ghost function TreeOf(x: Input, s: Sorting): Tree
    requires x.listing.Some?
  {
    Tree(Entries(x.listing.value), s.removable, s.preserved, p => p in s.collapsible)
  }

  /** The pass found nothing to delete and nothing to repair, under an authority that still held at its end. */
  ghost predicate FoundNothing(x: Input, r: Replacement, codec: Codec) {
    && x.authority && x.listing.Some? && Sorted(x, r, codec).Some?
    && TreeOf(x, Sorted(x, r, codec).value).Cover() == {} && x.repaired == Some(false) && x.confirmed
  }

  method Plan(x: Input, r: Replacement, codec: Codec) returns (result: Option<(seq<Action>, Sorting)>)
    requires x.listing.Some?
    ensures result.Some? <==> Sorted(x, r, codec).Some?
    ensures result.Some? ==>
      && result.value.1 == Sorted(x, r, codec).value && ByDepth(Roots(result.value.0))
      && forall p :: p in Roots(result.value.0) <==> p in TreeOf(x, result.value.1).Cover()
  {
    var sorting := ClassifyResources(x.policy, x.targets, r.deletions, x.listing.value,
                                     Sorting({}, {}, r.preserved + x.targets + x.protectedBelow, codec));
    if sorting.None? { return None; }
    var s := sorting.value;
    var plan := PlanRecursiveDeletes(x.listing.value, s.removable, s.preserved, p => p in s.collapsible);
    return Some((plan, s));
  }

  /** The plan of a pass must be recorded first when it is new or when new paths must be kept. */
  predicate MustRecord(plan: seq<Action>, preserved: set<Path>, targets: set<Path>, r: Replacement) {
    (plan != [] && plan != r.deletions) || !(preserved - targets <= r.preserved)
  }

  /** A DELETE of a pass: the canonical index records, at the moment it is sent, the replacement that this device
      holds, the action is in its plan and is a root of the cover computed for the pass, and nothing retained lies at
      or below it. */
  ghost predicate Rightful(x: Input, r: Replacement, codec: Codec, held: Replacement, d: Sent) {
    && d.canonical == Some(held) && d.action in held.deletions && x.listing.Some? && Sorted(x, r, codec).Some?
    && d.action.path in TreeOf(x, Sorted(x, r, codec).value).Cover()
    && forall path :: path in x.targets + Sorted(x, r, codec).value.preserved ==> !(d.action.path <= path)
  }

  /** Something kept a pass from its end: the authority, the listing, the sorting, the save of its plan, another
      device or an object that did not go while it deleted, or the verification. */
  ghost predicate Hindered(x: Input, r: Replacement, codec: Codec, start: Canonical, plan: seq<Action>, save: Option<Replacement>) {
    || !x.authority || (if x.foreign.Wrote? then x.foreign.canonical else start) != Some(r)
    || x.listing.None? || Sorted(x, r, codec).None? || (save.Some? && !x.saved)
    || !Undisturbed(|plan|, x.moments) || x.repaired.None? || !x.confirmed
  }

  /** A new plan is recorded when it differs from the recorded one, or keeps something that the recorded one does not. */
  ghost predicate Records(x: Input, r: Replacement, codec: Codec, plan: seq<Action>, save: Option<Replacement>)
    requires x.listing.Some? && Sorted(x, r, codec).Some?
  {
    var kept := Sorted(x, r, codec).value.preserved;
    && (forall p :: p in Roots(plan) <==> p in TreeOf(x, Sorted(x, r, codec).value).Cover())
    && match save
       case Some(next) =>
         && next == r.(deletions := plan, preserved := set p | p in kept && p !in x.targets)
         && ((plan != [] && plan != r.deletions) || exists p :: p in kept && p !in x.targets && p !in r.preserved)
       case None => (plan == [] || plan == r.deletions) && forall p :: p in kept && p !in x.targets ==> p in r.preserved
  }

  /** One pass of `cleanupEncryptionReplacement`. What it holds afterwards is the replacement it began with, or a new
      plan that it saved before the first DELETE. */
  method CleanPass(x: Input, r: Replacement, codec: Codec, start: Canonical)
    returns (verdict: Verdict, next: Replacement, nextCodec: Codec, save: Option<Replacement>, log: seq<Sent>, canonical: Canonical,
             plan: seq<Action>)
    requires Apart(r)
    ensures verdict == Done ==> FoundNothing(x, r, codec) && canonical == Some(next)
    ensures verdict == Done ==> x.authority && x.repaired == Some(false) && x.confirmed && plan == []
    ensures verdict == Again ==> plan != [] || x.repaired == Some(true)
    ensures verdict == Failed ==> Hindered(x, r, codec, start, plan, save)
    ensures verdict != Failed || save.Some? ==> x.listing.Some? && Sorted(x, r, codec).Some? && Records(x, r, codec, plan, save)
    ensures forall d :: d in log ==> Rightful(x, r, codec, next, d)
    ensures forall d, f :: d in log && x.listing.Some? && Action(f, File) in x.listing.value && d.action.path <= f ==>
      f !in x.targets && Replaceable(x.policy, r.deletions, codec, f)
    ensures Apart(next) && next == (if save.Some? then save.value else r)
    ensures next == r.(deletions := next.deletions, preserved := next.preserved)
    ensures log != [] || verdict != Failed ==> (save.Some? ==> x.saved)
    ensures log != [] && save.None? ==> next == r && (start == Some(r) || x.foreign == Wrote(Some(r)))
  {
    verdict, next, nextCodec, save, log, plan := Failed, r, codec, None, [], [];
    canonical := if x.foreign.Wrote? then x.foreign.canonical else start;
    if !x.authority || canonical != Some(r) || x.listing.None? { return; }
    var planned := Plan(x, r, codec);
    if planned.None? { return; }
    var sorting := planned.value.1;
    plan, nextCodec := planned.value.0, sorting.codec;
    PlanIsApart(x, r, codec, plan, sorting);
    if MustRecord(plan, sorting.preserved, x.targets, r) {
      next := r.(deletions := plan, preserved := sorting.preserved - x.targets);
      save := Some(next);
      if x.saved || x.landed { canonical := Some(next); }
      if !x.saved { return; }
    }
    var ok;
    PlanIsClear(x, r, codec, plan, sorting, next);
    ok, log, canonical := DeleteGroup(plan, next, x.targets + next.preserved, x.moments, canonical);
    forall d | d in log ensures Rightful(x, r, codec, next, d) {
      RightfulDelete(x, r, codec, plan, sorting, next, d);
    }
    forall d, f | d in log && Action(f, File) in x.listing.value && d.action.path <= f
      ensures f !in x.targets && Replaceable(x.policy, r.deletions, codec, f)
    {
      DeletedIsReplaceable(x, r, codec, next, d, f);
    }
    if !ok || x.repaired.None? { return; }
    if plan != [] || x.repaired.value { verdict := Again; return; }
    if !x.confirmed || canonical != Some(next) { return; }
    EmptyPlan(plan, TreeOf(x, sorting).Cover());
    verdict := Done;
  }

  /** Every listed file that a DELETE takes with it passed the filters and is in the replacement scope, or lies under
      a deletion recorded before; a file outside the scope, or one whose name was not looked at, survives them all. */
  lemma DeletedIsReplaceable(x: Input, r: Replacement, codec: Codec, held: Replacement, d: Sent, f: Path)
    requires Rightful(x, r, codec, held, d) && Action(f, File) in x.listing.value && d.action.path <= f
    ensures f !in x.targets && Replaceable(x.policy, r.deletions, codec, f)
  {
    hide Replaceable;
    var all := x.listing.value;
    SortedByPolicy(x.policy, x.targets, r.deletions, all, Sorting({}, {}, r.preserved + x.targets + x.protectedBelow, codec), |all|);
    var i :| 0 <= i < |all| && all[i] == Action(f, File);
  }

  lemma EmptyPlan(plan: seq<Action>, cover: set<Path>)
    requires plan == [] && forall p :: p in Roots(plan) <==> p in cover
    ensures cover == {}
  {}

  /** The plan with the paths it preserves satisfies the no-overlap rules of the validator. */
  lemma PlanIsApart(x: Input, r: Replacement, codec: Codec, plan: seq<Action>, s: Sorting)
    requires x.listing.Some? && ByDepth(Roots(plan)) && forall p :: p in Roots(plan) <==> p in TreeOf(x, s).Cover()
    ensures Apart(r.(deletions := plan, preserved := s.preserved - x.targets))
  {
    var t := TreeOf(x, s);
    forall i | 0 <= i < |plan| ensures plan[i].path in t.Cover() { assert Roots(plan)[i] == plan[i].path; }
    forall i | 0 <= i < |plan| { CoverIsSafe(t, plan[i].path); }
    forall i, j | 0 <= i < |plan| && 0 <= j < |plan| && i != j ensures !(plan[j].path <= plan[i].path) {
      CoverIsSafe(t, plan[i].path);
      assert Roots(plan)[i] != Roots(plan)[j];
    }
  }

  /** Nothing that is retained lies at or below the plan. */
  lemma PlanIsClear(x: Input, r: Replacement, codec: Codec, plan: seq<Action>, s: Sorting, held: Replacement)
    requires x.listing.Some? && Sorted(x, r, codec) == Some(s) && forall p :: p in Roots(plan) <==> p in TreeOf(x, s).Cover()
    requires (held == r || held.preserved <= s.preserved) && forall i :: 0 <= i < |plan| ==> plan[i] in held.deletions
    ensures Clear(plan, held, x.targets + held.preserved)
  {
    SortedByPolicy(x.policy, x.targets, r.deletions, x.listing.value, Sorting({}, {}, r.preserved + x.targets + x.protectedBelow, codec),
                   |x.listing.value|);
    assert x.targets <= s.preserved && r.preserved <= s.preserved;
    hide Sorted;
    forall i | 0 <= i < |plan| ensures forall path :: path in x.targets + held.preserved ==> !(plan[i].path <= path) {
      assert Roots(plan)[i] == plan[i].path;
      CoverIsSafe(TreeOf(x, s), plan[i].path);
    }
  }

  lemma RightfulDelete(x: Input, r: Replacement, codec: Codec, plan: seq<Action>, s: Sorting, held: Replacement, d: Sent)
    requires x.listing.Some? && Sorted(x, r, codec) == Some(s) && forall p :: p in Roots(plan) <==> p in TreeOf(x, s).Cover()
    requires d.action in plan && s.preserved - x.targets <= held.preserved
    requires MaySend(d.canonical, held, x.targets + held.preserved, d.action)
    ensures Rightful(x, r, codec, held, d)
  {
    hide Sorted;
    var i :| 0 <= i < |plan| && plan[i] == d.action;
    assert Roots(plan)[i] == d.action.path;
    assert forall path :: path in x.targets + s.preserved ==> path in x.targets + held.preserved;
  }

  // The whole cleanup.

  /** The state in which a pass begins, what it holds after recording its plan, the DELETEs it sends, and its end. */
  datatype Pass = Pass(begins: Replacement, codec: Codec, held: Replacement, log: seq<Sent>, ends: Verdict)

  const PASSES := 4

  /** What the pass holds it began with, or it has saved it to the canonical index. */
  predicate Recorded(x: Input, pass: Pass) { pass.held == pass.begins || x.saved }

  /** What the passes so far have kept: each begins with what the one before it held and had recorded, none sends a
      DELETE before that, and the DELETEs are rightful. */
  ghost predicate Kept(inputs: seq<Input>, initial: Replacement, codec: Codec, passes: seq<Pass>)
    requires |passes| <= |inputs|
  {
    && (passes != [] ==> passes[0].begins == initial && passes[0].codec == codec)
    && (forall k :: 0 < k < |passes| ==> passes[k].begins == passes[k - 1].held)
    && (forall k :: 0 <= k < |passes| - 1 ==> passes[k].ends == Again)
    && (forall k :: 0 <= k < |passes| && (passes[k].log != [] || k + 1 < |passes|) ==> Recorded(inputs[k], passes[k]))
    && (forall k :: 0 <= k < |passes| ==> Apart(passes[k].held))
    && forall k, d :: 0 <= k < |passes| && d in passes[k].log ==>
         Rightful(inputs[k], passes[k].begins, passes[k].codec, passes[k].held, d)
  }

  lemma KeptOneMore(inputs: seq<Input>, initial: Replacement, codec: Codec, passes: seq<Pass>, pass: Pass)
    requires |passes| < |inputs| && Kept(inputs, initial, codec, passes)
    requires if passes == [] then pass.begins == initial && pass.codec == codec else pass.begins == passes[|passes| - 1].held
    requires passes != [] ==> Recorded(inputs[|passes| - 1], passes[|passes| - 1]) && passes[|passes| - 1].ends == Again
    requires pass.log != [] ==> Recorded(inputs[|passes|], pass)
    requires Apart(pass.held) && forall d :: d in pass.log ==> Rightful(inputs[|passes|], pass.begins, pass.codec, pass.held, d)
    ensures Kept(inputs, initial, codec, passes + [pass])
  {
    hide Rightful, Apart;
  }

  /** `cleanupEncryptionReplacement`: up to four passes against a canonical index that foreign devices may change at
      any time; it returns normally only after a pass that found nothing. */
  method CleanupReplacement(inputs: seq<Input>, initial: Replacement, codec: Codec, start: Canonical)
    returns (ok: bool, passes: seq<Pass>, canonical: Canonical)
    requires |inputs| == PASSES && Apart(initial)
    ensures 0 < |passes| <= PASSES && Kept(inputs, initial, codec, passes)
    ensures if ok then passes[|passes| - 1].ends == Done else |passes| == PASSES || passes[|passes| - 1].ends == Failed
    ensures ok ==> var last := |passes| - 1;
      && FoundNothing(inputs[last], passes[last].begins, passes[last].codec) && canonical == Some(passes[last].held)
  {
    hide Rightful, FoundNothing, Apart, Kept;
    var replacement, source := initial, codec;
    ok, passes, canonical := false, [], start;
    NothingKept(inputs, initial, codec);
    for pass := 0 to PASSES
      invariant |passes| == pass && Apart(replacement) && !ok && Kept(inputs, initial, codec, passes)
      invariant pass > 0 ==> Recorded(inputs[pass - 1], passes[pass - 1]) && passes[pass - 1].ends == Again
      invariant if pass == 0 then replacement == initial && source == codec else replacement == passes[pass - 1].held
    {
      var verdict, next, nextCodec, save, log;
      var plan;
      verdict, next, nextCodec, save, log, canonical, plan := CleanPass(inputs[pass], replacement, source, canonical);
      KeptOneMore(inputs, initial, codec, passes, Pass(replacement, source, next, log, verdict));
      passes := passes + [Pass(replacement, source, next, log, verdict)];
      if verdict == Done { ok := true; return; }
      if verdict == Failed { return; }
      replacement, source := next, nextCodec;
    }
  }

  lemma NothingKept(inputs: seq<Input>, initial: Replacement, codec: Codec)
    ensures Kept(inputs, initial, codec, [])
  {}

  /** Over all passes: whatever a DELETE names, the canonical index records a plan with it at that moment, and that
      plan is the one the cleanup began with or one that a pass of it saved before. */
  lemma DeletesAreRecorded(inputs: seq<Input>, initial: Replacement, codec: Codec, passes: seq<Pass>, k: nat, d: Sent)
    requires |passes| <= |inputs| && Kept(inputs, initial, codec, passes) && k < |passes| && d in passes[k].log
    ensures inputs[k].listing.Some? && Sorted(inputs[k], passes[k].begins, passes[k].codec).Some?
    ensures d.canonical.Some? && d.action in d.canonical.value.deletions && d.canonical == Some(passes[k].held)
    ensures passes[k].held == initial || exists j :: 0 <= j <= k && inputs[j].saved && passes[j].held == passes[k].held
    ensures var kept := inputs[k].targets + Sorted(inputs[k], passes[k].begins, passes[k].codec).value.preserved;
      forall path :: path in kept ==> !(d.action.path <= path)
  {
    hide Apart;
    assert Rightful(inputs[k], passes[k].begins, passes[k].codec, passes[k].held, d);
    HeldIsRecorded(inputs, initial, codec, passes, k);
  }

  lemma {:induction false} HeldIsRecorded(inputs: seq<Input>, initial: Replacement, codec: Codec, passes: seq<Pass>, k: nat)
    requires |passes| <= |inputs| && Kept(inputs, initial, codec, passes) && k < |passes|
    requires forall j :: 0 <= j <= k ==> Recorded(inputs[j], passes[j])
    ensures passes[k].held == initial || exists j :: 0 <= j <= k && inputs[j].saved && passes[j].held == passes[k].held
  {
    hide Rightful, Apart;
    if passes[k].held == passes[k].begins && k > 0 { HeldIsRecorded(inputs, initial, codec, passes, k - 1); }
  }

  /** What nothing found means: every listed file of that pass is a live target or overlaps a preserved path. */
  lemma NothingFoundIsClean(x: Input, r: Replacement, codec: Codec, f: Path)
    requires FoundNothing(x, r, codec)
    requires Action(f, File) in x.listing.value && Normalized(f)
    requires forall i, j :: 0 <= i < j < |x.listing.value| ==> x.listing.value[i].path != x.listing.value[j].path
    ensures f in x.targets || exists keep :: keep in Sorted(x, r, codec).value.preserved && (f <= keep || keep <= f)
  {
    var all, s := x.listing.value, Sorted(x, r, codec).value;
    EveryFileIsAccountedFor(x.policy, x.targets, r.deletions, all,
                            Sorting({}, {}, r.preserved + x.targets + x.protectedBelow, codec), |all|);
    if f in s.removable {
      ListedKind(all, f);
      RemovableFileIsCovered(TreeOf(x, s), f);
    }
  }

  lemma {:induction false} ListedKind(all: seq<Action>, f: Path)
    requires Action(f, File) in all && forall i, j :: 0 <= i < j < |all| ==> all[i].path != all[j].path
    ensures f in Listed(all) && Listed(all)[f] == File
  {
    var init := all[..|all| - 1];
    if all[|all| - 1] != Action(f, File) {
      var i :| 0 <= i < |all| && all[i] == Action(f, File);
      assert init[i] == all[i];
      ListedKind(init, f);
    }
  }

  /** An ancestor of a well-spelled unprotected path is one itself. */
  lemma AncestorIsSpelled(a: Path, p: Path)
    requires a != [] && a <= p && ValidPath(p) && !Protected(p)
    ensures ValidPath(a) && !Protected(a)
  {
    hide Normalize, ProtectedSegment;
    assert forall k :: 0 <= k < |a| ==> a[k] == p[k];
    assert Normalized(a) && Normalized(p);
    assert forall k :: 0 <= k < |Normalize(a)| ==> Normalize(a)[k] == Normalize(p)[k];
  }

  /** Whatever a pass records, its readers accept exactly when they accept the epochs and the scope that it began
      with, provided that the listing and the paths kept so far are well spelled. */
  lemma RecordedPlanValidates(x: Input, r: Replacement, codec: Codec, plan: seq<Action>, s: Sorting)
    requires x.listing.Some? && Sorted(x, r, codec) == Some(s)
    requires ByDepth(Roots(plan)) && forall p :: p in Roots(plan) <==> p in TreeOf(x, s).Cover()
    requires forall i :: 0 <= i < |x.listing.value| ==> ValidPath(x.listing.value[i].path) && !Protected(x.listing.value[i].path)
    requires forall p :: p in r.preserved + x.protectedBelow ==> ValidPath(p)
    ensures Validates(r.(deletions := plan, preserved := s.preserved - x.targets)) <==> ValidNamespace(r)
  {
    var all := x.listing.value;
    PlanIsApart(x, r, codec, plan, s);
    EveryFileIsAccountedFor(x.policy, x.targets, r.deletions, all,
                            Sorting({}, {}, r.preserved + x.targets + x.protectedBelow, codec), |all|);
    forall i | 0 <= i < |plan| ensures ValidPath(plan[i].path) && !Protected(plan[i].path) {
      assert Roots(plan)[i] in TreeOf(x, s).Cover();
      EntryIsSpelled(all, plan[i].path);
    }
  }

  lemma EntryIsSpelled(all: seq<Action>, p: Path)
    requires p in Entries(all) && p != []
    requires forall i :: 0 <= i < |all| ==> ValidPath(all[i].path) && !Protected(all[i].path)
    ensures ValidPath(p) && !Protected(p)
  {
    ListedPaths(all);
    if p !in Listed(all) {
      var q :| q in Listed(all) && p in Ancestors(q);
      AncestorIsSpelled(p, q);
    }
  }

  lemma {:induction false} ListedPaths(all: seq<Action>)
    ensures forall p :: p in Listed(all) ==> exists i :: 0 <= i < |all| && all[i].path == p
  {
    if all != [] {
      var init := all[..|all| - 1];
      ListedPaths(init);
      forall p | p in Listed(all) ensures exists i :: 0 <= i < |all| && all[i].path == p {
        if p == all[|all| - 1].path { assert all[|all| - 1].path == p; }
        else {
          assert p in Listed(init);
          var i :| 0 <= i < |init| && init[i].path == p;
          assert all[i].path == p;
        }
      }
    }
  }
}
