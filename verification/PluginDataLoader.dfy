/** src/plugin-data-loader.ts: which persisted transitions a reload accepts. */
module PluginDataLoader {
  import opened Basics
  import opened Paths
  import opened EncryptionTypes
  import opened TargetMapping

  /** A guarded transition as stored; the entries of its mapping come in the order in which the record enumerates
      them. */
  datatype TransitionRecord = TransitionRecord(
    claim: Claim, phase: Phase, sourceRawPaths: seq<Path>, sourceFingerprints: map<Path, string>,
    targetEntries: seq<(Path, Path)>, targetFingerprints: map<Path, string>, backupProof: Option<BackupProof>)

  /** `assertCurrentSnapshot` */
  predicate ValidSnapshot(s: Snapshot) {
    if s.enabled then
      && s.hardened && s.salt.Some? && s.salt.value != "" && s.password.Some? && s.password.value != ""
      && s.revision.Some? && 1 <= s.revision.value <= MAX_SAFE_INTEGER
    else s == Snapshot(false, None, None, None, false)
  }

  /** The modes belong to the kind, as far as snapshots show it. */
  predicate SnapshotPair(kind: Kind, source: Snapshot, target: Snapshot) {
    match kind
    case Enable => !source.enabled && target.enabled
    case Disable => source.enabled && !target.enabled
    case Rotate => source.enabled && target.enabled && Precedes(source.revision, target.revision) && target.salt != source.salt
  }

  predicate ValidClaim(claim: Claim) {
    && ValidSnapshot(claim.source) && ValidSnapshot(claim.target) && claim.id != ""
    && 0 <= claim.sourceCanonicalRevision <= MAX_SAFE_INTEGER
    && SnapshotPair(claim.kind, claim.source, claim.target)
  }

  predicate ValidProof(proof: Option<BackupProof>) {
    proof.Some? ==>
      && proof.value.path != "" && proof.value.sha256 != "" && proof.value.epoch != "" && proof.value.localSnapshotDigest != ""
      && 0 <= proof.value.canonicalRevision <= MAX_SAFE_INTEGER && 0 <= proof.value.createdAt <= MAX_SAFE_INTEGER
  }

  predicate NonEmptyStrings(record: map<Path, string>) { forall p :: p in record ==> record[p] != "" }

  ghost predicate Accepts(r: TransitionRecord) {
    && ValidClaim(r.claim)
    && Distinct(r.sourceRawPaths)
    && r.sourceFingerprints.Keys == (set p | p in r.sourceRawPaths) && NonEmptyStrings(r.sourceFingerprints)
    && Admissible(r.targetEntries, r.sourceRawPaths)
    && NonEmptyStrings(r.targetFingerprints)
    && r.targetFingerprints.Keys <= Record(r.targetEntries).Values
    && (r.phase != Prepared ==> Record(r.targetEntries).Values <= r.targetFingerprints.Keys)
    && ValidProof(r.backupProof)
  }

  /** The whole check of stored data with a transition: the settings are those of one of its modes. */
  ghost predicate Loads(r: TransitionRecord, settings: Snapshot) {
    Accepts(r) && (settings == r.claim.source || settings == r.claim.target)
  }

  /** An encrypted snapshot without one of its parts, or a plaintext one with some. */
  predicate BrokenSnapshot(s: Snapshot) {
    if !s.enabled then s.hardened || s.salt.Some? || s.password.Some? || s.revision.Some?
    else !s.hardened ||
         match (s.salt, s.password, s.revision)
         case (Some(salt), Some(password), Some(revision)) =>
           salt == "" || password == "" || revision <= 0 || revision > 9007199254740991
         case _ => true
  }

  /** What a reload refuses of a claim: no identity, an impossible revision, a broken snapshot, or modes that are not
      those of its kind. */
  lemma ClaimIsExact(claim: Claim)
    ensures !ValidClaim(claim) <==>
      || claim.id == "" || claim.sourceCanonicalRevision < 0 || claim.sourceCanonicalRevision > 9007199254740991
      || BrokenSnapshot(claim.source) || BrokenSnapshot(claim.target)
      || match claim.kind
         case Enable => claim.source.enabled || !claim.target.enabled
         case Disable => !claim.source.enabled || claim.target.enabled
         case Rotate =>
           || !claim.source.enabled || !claim.target.enabled || claim.target.salt == claim.source.salt
           || claim.target.revision.value <= claim.source.revision.value
  {}

  /** ... and of a backup proof, when there is one. */
  lemma ProofIsExact(proof: BackupProof)
    ensures !ValidProof(Some(proof)) <==>
      || "" in {proof.path, proof.sha256, proof.epoch, proof.localSnapshotDigest}
      || proof.canonicalRevision < 0 || proof.canonicalRevision > 9007199254740991
      || proof.createdAt < 0 || proof.createdAt > 9007199254740991
    ensures ValidProof(None)
  {}

  ghost predicate AllSafe(paths: seq<Path>) { forall i :: 0 <= i < |paths| ==> Safe(paths[i]) }

  /** The loop over the source paths: each safe, none repeated. */
  method CollectSourcePaths(paths: seq<Path>) returns (result: Option<set<Path>>)
    ensures result.Some? <==> Distinct(paths) && AllSafe(paths)
    ensures result.Some? ==> result.value == (set p | p in paths) && |result.value| == |paths|
  {
    hide Safe;
    var sourcePaths: set<Path> := {};
    for i := 0 to |paths|
      invariant sourcePaths == set p | p in paths[..i]
      invariant |sourcePaths| == i && Distinct(paths[..i]) && AllSafe(paths[..i])
    {
      if !Safe(paths[i]) { return None; }
      if paths[i] in sourcePaths { return None; }
      assert paths[..i + 1] == paths[..i] + [paths[i]];
      sourcePaths := sourcePaths + {paths[i]};
    }
    assert paths[..|paths|] == paths;
    return Some(sourcePaths);
  }

  lemma AdmissibleIsSafe(entries: seq<(Path, Path)>, paths: seq<Path>)
    requires Admissible(entries, paths)
    ensures AllSafe(paths)
  {
    hide Safe, Fits;
  }

  /** `assertCurrentTransition` */
  method AssertCurrentTransition(r: TransitionRecord) returns (accepted: bool)
    ensures accepted <==> Accepts(r)
  {
    hide ValidClaim, Record, AllSafe, Distinct, Admissible;
    if !ValidClaim(r.claim) { return false; }
    var collected := CollectSourcePaths(r.sourceRawPaths);
    if collected.None? {
      if Admissible(r.targetEntries, r.sourceRawPaths) { AdmissibleIsSafe(r.targetEntries, r.sourceRawPaths); }
      return false;
    }
    var sourcePaths := collected.value;
    if !NonEmptyStrings(r.sourceFingerprints) || |r.sourceFingerprints| != |sourcePaths|
      || exists p :: p in sourcePaths && p !in r.sourceFingerprints
    {
      return false;
    }
    SameSize(sourcePaths, r.sourceFingerprints.Keys);
    var mapping := CreateTargetRawMapping(r.targetEntries, r.sourceRawPaths);
    if mapping.Failure? || !NonEmptyStrings(r.targetFingerprints) { return false; }
    var targetPaths := mapping.value.Values;
    return r.targetFingerprints.Keys <= targetPaths && (r.phase == Prepared || targetPaths <= r.targetFingerprints.Keys)
      && ValidProof(r.backupProof);
  }

  /** The part of `assertCurrentData` that concerns a transition. */
  method AssertCurrentData(r: TransitionRecord, settings: Snapshot) returns (accepted: bool)
    ensures accepted <==> Loads(r, settings)
  {
    accepted := AssertCurrentTransition(r);
    accepted := accepted && (settings == r.claim.source || settings == r.claim.target);
  }
}
