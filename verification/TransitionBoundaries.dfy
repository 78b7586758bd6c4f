/** Where the promises of the transition end: an input whose persisted transition no reload accepts, and, for every
    transition that can be mapped, a run into the state in which its recovery refuses to go on. */
module TransitionBoundaries {
  import opened Basics
  import opened Paths
  import opened EncryptionTypes
  import opened TransitionProtocol
  import opened TransitionSafety
  import opened TransitionRecords
  import opened TransitionCleanup
  import DirectoryPaging
  import ManifestSchema
  import PluginDataLoader
  import TargetMapping

  // A captured path that no reload accepts.

  const SALT := "AAAAAAAAAAAAAAAAAAAAAA=="
  const VERIFIER := "AAAAAAAAAAAAAAAAAAAAAAAAAAAAAAAAAAAAAAAA"
  const PLAINTEXT := Snapshot(false, None, None, None, false)
  const ENCRYPTED := Snapshot(true, Some(SALT), Some("password"), Some(1), true)
  const ENCRYPTED_MODE := Mode(true, Some(1), Some(SALT), Some(VERIFIER))

  /** The segments of a captured path whose name ends with a backslash and two dots. */
  const UNSAFE: Path := ["a", ".."]

  /** A vault that is about to be encrypted; its remote folder holds one file that is not in the index. */
  const UNLOADABLE := Config(
    Claim("id", Enable, PLAINTEXT, ENCRYPTED, 0), "device", 0, PLAINTEXT_MODE, ENCRYPTED_MODE,
    v => if v == VERIFIER then Some(Target) else None,
    {}, map[], [], map[], false, [UNSAFE], map[UNSAFE := Object(Source, [], "fingerprint")], None)

  function Begins(c: Config): State {
    var l := Local(Some(Transition(Prepared, false, map[])), map[], c.claim.source);
    State(Canonical(Source, c.claim.sourceCanonicalRevision, None), None, c.sources, {}, l, l, Claiming, None)
  }

  lemma ExampleModesAreValid()
    ensures ManifestSchema.ValidMode(ENCRYPTED_MODE) && ManifestSchema.ValidMode(PLAINTEXT_MODE)
  {
    assert |SALT| == 24 && |VERIFIER| == 40;
  }

  lemma UnsafeIsUnsafe()
    ensures !TargetMapping.Safe(UNSAFE)
  {
    assert UNSAFE[1] == "..";
  }

  lemma UnloadableIsValid()
    ensures UNLOADABLE.Valid() && Initial(UNLOADABLE, Begins(UNLOADABLE))
  {
    ExampleModesAreValid();
    UnsafeIsUnsafe();
    hide ManifestSchema.ValidMode, TargetMapping.Safe;
    assert UNLOADABLE.sourcePaths[0] == UNSAFE;
    assert StableManifest(UNLOADABLE, Source, "device", VERIFIER) == None && FreshVerifier(UNLOADABLE, Source, VERIFIER);
  }

  /** The listing of the remote folder yields such a path, the transition begins with it, and its first persisted
      record is refused. */
  lemma UnsafeCaptureIsRefused(root: Path)
    requires root == [] || Normalized(root)
    ensures var item := DirectoryPaging.Backslashed(root, "a", "..");
      DirectoryPaging.ValidItem(root, item) && Normalize(item.path) == root + UNSAFE
    ensures UNLOADABLE.Valid() && Initial(UNLOADABLE, Begins(UNLOADABLE))
    ensures !PluginDataLoader.Accepts(RecordOf(UNLOADABLE, Begins(UNLOADABLE).disk.transition.value))
  {
    DirectoryPaging.BackslashIsAccepted(root, "a", "..");
    UnloadableIsValid();
    UnsafeIsUnsafe();
    hide Config.Valid, Initial, DirectoryPaging.ValidItem, TargetMapping.Safe;
    assert UNLOADABLE.sourcePaths[0] == UNSAFE;
  }

  // A run into the state that recovery refuses.

  lemma {:induction false} RunSnoc(c: Config, s: State, actions: seq<Action>, last: State, a: Action, next: State)
    requires Run(c, s, actions, last) && Exec(c, last, a) == Some(next)
    ensures Run(c, s, actions + [a], next)
    decreases actions
  {
    hide Exec;
    if actions == [] {
      assert [] + [a] == [a] && [a][1..] == [];
      assert Run(c, next, [], next);
    } else {
      RunSnoc(c, Exec(c, s, actions[0]).value, actions[1..], last, a, next);
      assert (actions + [a])[1..] == actions[1..] + [a];
    }
  }

  predicate Copies(a: Action) { a.Advance? || a.Upload? || a.Verify? }

  /** The device has come here by its own copying alone. */
  ghost predicate Reached(c: Config, first: State, actions: seq<Action>, s: State) {
    Run(c, first, actions, s) && forall a :: a in actions ==> Copies(a)
  }

  lemma ReachSnoc(c: Config, first: State, before: seq<Action>, s: State, a: Action, n: State)
    requires Reached(c, first, before, s) && Exec(c, s, a) == Some(n) && Copies(a)
    ensures Reached(c, first, before + [a], n)
  {
    hide Run, Exec;
    RunSnoc(c, first, before, s, a, n);
  }

  /** The next step before the commit. */
  lemma Executes(c: Config, first: State, before: seq<Action>, s: State, o: Outcome, n: State)
    requires Reached(c, first, before, s) && s.memory.transition.Some? && BeforeCommit(s.pc) && !Waiting(s.pc)
    requires ExecuteStep(c, s, o) == n
    ensures Reached(c, first, before + [Advance(o, "")], n)
  {
    hide Reached, ExecuteStep;
    ReachSnoc(c, first, before, s, Advance(o, ""), n);
  }

  /** An uninterrupted copy: these files are still to be uploaded. */
  ghost predicate Uploading(c: Config, s: State, files: set<Path>) {
    && s.pc == Copying(files) && files <= c.live && s.canonical.codec == Source && s.inflight == {}
    && s.canonical.maintenance.Some? && s.loaded == s.canonical.maintenance
    && s.memory.transition.Some? && s.memory.transition.value.mapped
    && (forall p :: p in c.sources ==> p in s.objects && s.objects[p] == c.sources[p])
    && s.objects.Keys <= c.sources.Keys + c.targetOf.Values
    && forall l :: l in files ==> l in c.targetOf && c.targetOf[l] !in s.objects
  }

  /** The claim is persisted and published, and the mapping recorded. */
  lemma StartsUploading(c: Config, first: State) returns (actions: seq<Action>, s: State)
    requires c.Valid() && c.mappable && Initial(c, first)
    ensures Reached(c, first, actions, s) && Uploading(c, s, c.live)
  {
    ValidIsSound(c);
    hide Reached, ExecuteStep, Uploading, Config.Sound, Initial;
    var s1, s2 := Claims(c, first);
    var s3 := PublishesClaim(c, s2);
    var s4, last := Maps(c, s3);
    s := last;
    NothingReached(c, first);
    var step := Advance(Done, "");
    Executes(c, first, [], first, Done, s1);
    Executes(c, first, [] + [step], s1, Done, s2);
    Executes(c, first, [] + [step] + [step], s2, Done, s3);
    Executes(c, first, [] + [step] + [step] + [step], s3, Done, s4);
    actions := [] + [step] + [step] + [step] + [step];
    Executes(c, first, actions, s4, Done, s);
    actions := actions + [step];
  }

  /** The claim is in the canonical index and persisted, and the captured objects are untouched. */
  ghost predicate ClaimedBy(c: Config, s: State) {
    && s.pc == PublishPrepared && s.canonical.codec == Source && s.inflight == {} && s.objects == c.sources
    && s.canonical.maintenance == Some(Maintenance(AuthorityAt(c, Prepared, None), map[])) && s.loaded == s.canonical.maintenance
    && s.memory.transition.Some?
  }

  lemma Claims(c: Config, first: State) returns (s1: State, s2: State)
    requires c.ValidTree() && Initial(c, first)
    ensures first.memory.transition.Some? && BeforeCommit(first.pc) && !Waiting(first.pc) && ExecuteStep(c, first, Done) == s1
    ensures s1.memory.transition.Some? && BeforeCommit(s1.pc) && !Waiting(s1.pc) && ExecuteStep(c, s1, Done) == s2
    ensures ClaimedBy(c, s2)
  {
    assert SourceUnchanged(c, first);
    hide AuthorityAt, SourceUnchanged, Config.ValidTree, StableManifest, FreshVerifier;
    s1 := ExecuteStep(c, first, Done);
    s2 := ExecuteStep(c, s1, Done);
  }

  /** The same, once the manifest is published. */
  ghost predicate PublishedBy(c: Config, s: State) { s.pc == ApplyTarget && ClaimedBy(c, s.(pc := PublishPrepared)) }

  lemma PublishesClaim(c: Config, s2: State) returns (s3: State)
    requires c.ValidModes() && ClaimedBy(c, s2)
    ensures s2.memory.transition.Some? && BeforeCommit(s2.pc) && !Waiting(s2.pc) && ExecuteStep(c, s2, Done) == s3
    ensures PublishedBy(c, s3)
  {
    TransitionManifestReadable(c, Prepared, None);
    hide TransitionManifest, Config.ValidModes, AuthorityAt, SourceUnchanged;
    s3 := ExecuteStep(c, s2, Done);
  }

  lemma Maps(c: Config, s3: State) returns (s4: State, s: State)
    requires c.Sound() && c.mappable && PublishedBy(c, s3)
    ensures s3.memory.transition.Some? && BeforeCommit(s3.pc) && !Waiting(s3.pc) && ExecuteStep(c, s3, Done) == s4
    ensures s4.memory.transition.Some? && BeforeCommit(s4.pc) && !Waiting(s4.pc) && ExecuteStep(c, s4, Done) == s
    ensures Uploading(c, s, c.live)
  {
    hide TransitionManifest, AuthorityAt, SourceUnchanged;
    s4 := ExecuteStep(c, s3, Done);
    s := ExecuteStep(c, s4, Done);
  }

  lemma NothingReached(c: Config, s: State)
    ensures Reached(c, s, [], s)
  {}

  lemma OneUpload(c: Config, s: State, files: set<Path>, l: Path) returns (middle: State, n: State)
    requires c.Sound() && c.mappable && Uploading(c, s, files) && l in files
    ensures Exec(c, s, Upload(l, "new")) == Some(middle) && Exec(c, middle, Verify(l, Done)) == Some(n)
    ensures Uploading(c, n, files - {l})
  {
    var raw := c.targetOf[l];
    middle := s.(objects := s.objects[raw := Object(Target, l, "new")]);
    n := Pinned(middle, s.memory.transition.value, raw, Done, Copying(files - {l}));
    UploadedOne(c, s, files, l, n);
    hide Uploading, Config.Sound, Pinned;
    assert Exec(c, s, Upload(l, "new")) == Some(middle);
  }

  lemma UploadedOne(c: Config, s: State, files: set<Path>, l: Path, n: State)
    requires c.Sound() && c.mappable && Uploading(c, s, files) && l in files
    requires n.pc == Copying(files - {l}) && n.canonical == s.canonical && n.loaded == s.loaded && n.inflight == s.inflight
    requires n.objects == s.objects[c.targetOf[l] := Object(Target, l, "new")]
    requires n.memory.transition.Some? && n.memory.transition.value.mapped
    ensures Uploading(c, n, files - {l})
  {
    assert c.targetOf[l] in c.targetOf.Values;
  }

  lemma {:induction false} Uploads(c: Config, first: State, before: seq<Action>, s: State, files: set<Path>)
    returns (actions: seq<Action>, n: State)
    requires c.Sound() && c.mappable && Reached(c, first, before, s) && Uploading(c, s, files)
    ensures Reached(c, first, actions, n) && Uploading(c, n, {})
    decreases |files|
  {
    hide Reached, Exec, Uploading;
    if files == {} { return before, s; }
    var l :| l in files;
    var middle, next := OneUpload(c, s, files, l);
    ReachSnoc(c, first, before, s, Upload(l, "new"), middle);
    ReachSnoc(c, first, before + [Upload(l, "new")], middle, Verify(l, Done), next);
    actions, n := Uploads(c, first, before + [Upload(l, "new")] + [Verify(l, Done)], next, files - {l});
  }

  /** The index is committed, and the device was told otherwise. */
  ghost predicate Committing(c: Config, s: State) {
    && s.pc == Idle && s.canonical.codec == Target && s.canonical.maintenance.Some?
    && s.canonical.maintenance.value.cleanup == c.Fingerprints()
    && s.memory.transition.Some? && s.memory.transition.value.phase == FilesCopied
  }

  lemma CommitsUnreported(c: Config, first: State, before: seq<Action>, s: State) returns (actions: seq<Action>, n: State)
    requires c.Sound() && c.ValidModes() && Reached(c, first, before, s) && Uploading(c, s, {})
    ensures Reached(c, first, actions, n) && Committing(c, n)
  {
    hide Reached, ExecuteStep, Uploading, Committing, Config.ValidModes;
    var s1, s2 := Records(c, s);
    var s3, last := CommitsOnly(c, s2);
    n := last;
    var step := Advance(Done, "");
    Executes(c, first, before, s, Done, s1);
    Executes(c, first, before + [step], s1, Done, s2);
    Executes(c, first, before + [step] + [step], s2, Done, s3);
    actions := before + [step] + [step] + [step];
    Executes(c, first, actions, s3, Unreported, n);
    actions := actions + [Advance(Unreported, "")];
  }

  /** The copy is finished and recorded. */
  ghost predicate CopiedBy(c: Config, s: State) {
    && s.pc == PublishCopied && s.canonical.codec == Source && s.canonical.maintenance.Some? && s.loaded == s.canonical.maintenance
    && s.memory.transition.Some? && s.memory.transition.value.phase == FilesCopied
  }

  lemma Records(c: Config, s: State) returns (s1: State, s2: State)
    requires c.Sound() && Uploading(c, s, {})
    ensures s.memory.transition.Some? && BeforeCommit(s.pc) && !Waiting(s.pc) && ExecuteStep(c, s, Done) == s1
    ensures s1.memory.transition.Some? && BeforeCommit(s1.pc) && !Waiting(s1.pc) && ExecuteStep(c, s1, Done) == s2
    ensures CopiedBy(c, s2)
  {
    s1 := s.(pc := CopiedPhase);
    assert SourceUnchanged(c, s1);
    hide SourceUnchanged, Config.Sound;
    s2 := ExecuteStep(c, s1, Done);
  }

  lemma CommitsOnly(c: Config, s2: State) returns (s3: State, n: State)
    requires c.ValidModes() && CopiedBy(c, s2)
    ensures s2.memory.transition.Some? && BeforeCommit(s2.pc) && !Waiting(s2.pc) && ExecuteStep(c, s2, Done) == s3
    ensures s3.memory.transition.Some? && BeforeCommit(s3.pc) && !Waiting(s3.pc) && ExecuteStep(c, s3, Unreported) == n
    ensures Committing(c, n)
  {
    TransitionManifestReadable(c, IndexCommitted, Some(s2.canonical.revision + 1));
    hide TransitionManifest, Config.ValidModes, AuthorityAt, SourceUnchanged;
    s3 := ExecuteStep(c, s2, Done);
    n := ExecuteStep(c, s3, Unreported);
  }

  /** A foreign device has published the target, moved the maintenance on, and is deleting the sources. */
  ghost predicate Sweeping(c: Config, s: State, rest: set<Path>) {
    && Committing(c, s) && s.canonical.maintenance.value.authority.phase == Cleanup
    && FinishedElsewhere(c, s.(canonical := s.canonical.(maintenance := None)))
    && rest <= c.sources.Keys && forall p :: p in c.sources && p in s.objects ==> p in rest
  }

  /** The verifier that a foreign device publishes. */
  function ForeignVerifier(c: Config): string { if c.targetMode.verifier.Some? then c.targetMode.verifier.value else "" }

  lemma TakesOver(c: Config, s: State) returns (middle: State, n: State)
    requires c.ValidModes() && Committing(c, s)
    ensures Exec(c, s, ForeignPublish("foreign", ForeignVerifier(c))) == Some(middle)
    ensures Exec(c, middle, ForeignAdvance) == Some(n) && Sweeping(c, n, c.sources.Keys)
  {
    hide ManifestSchema.Base64Of;
    var m := s.canonical.maintenance.value;
    middle := s.(manifest := StableManifest(c, Target, "foreign", ForeignVerifier(c)));
    n := middle.(canonical := Canonical(Target, s.canonical.revision + 1, Some(m.(authority := m.authority.(phase := Cleanup)))));
  }

  lemma OneSweep(c: Config, s: State, rest: set<Path>, p: Path) returns (middle: State, n: State)
    requires Sweeping(c, s, rest) && p in rest
    ensures Exec(c, s, ForeignRequest(p)) == Some(middle) && Exec(c, middle, Land(p)) == Some(n) && Sweeping(c, n, rest - {p})
  {
    middle := s.(inflight := s.inflight + {p});
    n := middle.(objects := s.objects - {p}, inflight := middle.inflight - {p});
  }

  predicate Sweeps(a: Action) { a.ForeignRequest? || a.Land? }

  lemma {:induction false} SweepsAll(c: Config, first: State, before: seq<Action>, sweep: seq<Action>, s: State, rest: set<Path>)
    returns (more: seq<Action>, n: State)
    requires Run(c, first, before + sweep, s) && Sweeping(c, s, rest) && forall a :: a in sweep ==> Sweeps(a)
    ensures Run(c, first, before + more, n) && Sweeping(c, n, {}) && forall a :: a in more ==> Sweeps(a)
    decreases |rest|
  {
    hide Run, Exec, Sweeping;
    if rest == {} { return sweep, s; }
    var p :| p in rest;
    var middle, next := OneSweep(c, s, rest, p);
    RunSnoc(c, first, before + sweep, s, ForeignRequest(p), middle);
    RunSnoc(c, first, before + sweep + [ForeignRequest(p)], middle, Land(p), next);
    var longer := sweep + [ForeignRequest(p)] + [Land(p)];
    assert before + sweep + [ForeignRequest(p)] + [Land(p)] == before + longer;
    more, n := SweepsAll(c, first, before, longer, next, rest - {p});
  }

  /** For every transition that can be mapped there is a run after which its recovery refuses to go on, however the
      settings are applied. The device copies and commits, and the commit is not reported; then a foreign device
      publishes the target, moves the maintenance to its cleanup phase, deletes the sources and ends the maintenance,
      in the order of src/crypto/encryption-transition.ts:693-766. */
  lemma ForeignFinishIsReachable(c: Config, first: State) returns (own: seq<Action>, sweep: seq<Action>, last: State)
    requires c.Valid() && c.mappable && Initial(c, first)
    ensures var takeover := [ForeignPublish("foreign", ForeignVerifier(c))] + [ForeignAdvance];
      Run(c, first, own + takeover + sweep + [ForeignFinish], last)
    ensures (forall a :: a in own ==> Copies(a)) && forall a :: a in sweep ==> Sweeps(a)
    ensures c.Sound() && Inv(c, last) && FinishedElsewhere(c, last) && !Committed(last.memory.transition.value.phase)
    ensures forall o :: StartRecovery(c, last, o).pc == Idle
  {
    ValidIsSound(c);
    var a1, s1 := StartsUploading(c, first);
    var a2, s2 := Uploads(c, first, a1, s1, c.live);
    var s3;
    own, s3 := CommitsUnreported(c, first, a2, s2);
    sweep, last := ForeignRun(c, first, own, s3);
    hide Reached, Run, Exec, Inv, Config.ValidTree, Config.ValidModes, Config.Sound, Initial, FinishedElsewhere, Uploading, Committing;
    var takeover := [ForeignPublish("foreign", ForeignVerifier(c))] + [ForeignAdvance];
    InitialInv(c, first);
    RunKeepsInv(c, first, own + takeover + sweep + [ForeignFinish], last);
    OwnReached(c, first, own, s3);
    FinishedRefuses(c, last);
  }

  lemma OwnReached(c: Config, first: State, own: seq<Action>, s: State)
    requires Reached(c, first, own, s)
    ensures Run(c, first, own, s) && forall a :: a in own ==> Copies(a)
  {}

  lemma FinishedRefuses(c: Config, s: State)
    requires FinishedElsewhere(c, s) && s.memory.transition.value.phase == FilesCopied
    ensures !Committed(s.memory.transition.value.phase) && forall o :: StartRecovery(c, s, o).pc == Idle
  {
    RefusesUncommitted(c, s);
  }

  lemma ForeignRun(c: Config, first: State, own: seq<Action>, s: State) returns (sweep: seq<Action>, last: State)
    requires c.ValidModes() && Reached(c, first, own, s) && Committing(c, s)
    ensures var takeover := [ForeignPublish("foreign", ForeignVerifier(c))] + [ForeignAdvance];
      Run(c, first, own + takeover + sweep + [ForeignFinish], last)
    ensures forall a :: a in sweep ==> Sweeps(a)
    ensures FinishedElsewhere(c, last) && last.memory.transition.value.phase == FilesCopied
  {
    hide Run, Exec, Config.ValidModes, Sweeping, Committing;
    var publish := ForeignPublish("foreign", ForeignVerifier(c));
    var before := own + ([publish] + [ForeignAdvance]);
    var s1, s2 := TakesOver(c, s);
    RunSnoc(c, first, own, s, publish, s1);
    RunSnoc(c, first, own + [publish], s1, ForeignAdvance, s2);
    assert own + [publish] + [ForeignAdvance] == before && before + [] == before;
    var s3;
    sweep, s3 := SweepsAll(c, first, before, [], s2, c.sources.Keys);
    last := Finishes(c, s3);
    RunSnoc(c, first, before + sweep, s3, ForeignFinish, last);
  }

  lemma Finishes(c: Config, s: State) returns (n: State)
    requires Sweeping(c, s, {})
    ensures Exec(c, s, ForeignFinish) == Some(n)
    ensures FinishedElsewhere(c, n) && n.memory.transition.value.phase == FilesCopied
  {
    n := s.(canonical := Canonical(Target, s.canonical.revision + 1, None));
  }

  lemma RefusesUncommitted(c: Config, s: State)
    requires s.memory.transition.Some? && s.canonical.codec == Target && s.canonical.maintenance.None?
    requires !Committed(s.memory.transition.value.phase)
    ensures forall o :: StartRecovery(c, s, o).pc == Idle
  {
    assert !Coherent(c, s.memory.transition.value.phase, s.manifest, None, Target);
  }
}
