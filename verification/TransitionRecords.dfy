/** Readers of what the protocol writes: at every step of every run the persisted transition passes the loader, and
    the manifest in the remote store parses back to itself. */
module TransitionRecords {
  import opened Basics
  import opened Paths
  import opened EncryptionTypes
  import opened TransitionProtocol
  import opened TransitionSafety
  import opened TransitionSettings
  import ManifestSchema
  import PluginDataLoader
  import TargetMapping

  /** The stored form of a local transition. */
  function RecordOf(c: Config, t: Transition): PluginDataLoader.TransitionRecord {
    PluginDataLoader.TransitionRecord(c.claim, t.phase, c.sourcePaths, c.Fingerprints(),
                                      if t.mapped then c.entries else [], t.proofs, c.backupProof)
  }

  predicate Complete(c: Config, t: Transition) { t.mapped && t.proofs.Keys == c.targetOf.Values }

  /** Proofs name mapped targets, and past the first phase every target has one. */
  ghost predicate LocalExact(c: Config, codec: Side, l: Local) {
    l.transition.Some? ==>
      var t := l.transition.value;
      && (t.proofs != map[] ==> t.mapped) && t.proofs.Keys <= c.targetOf.Values
      && (forall p :: p in t.proofs ==> t.proofs[p] != "")
      && (t.phase != Prepared || codec == Target ==> Complete(c, t))
      && (t.mapped ==> c.mappable)
  }

  /** What the running procedure has already made sure of. */
  ghost predicate PcExact(c: Config, pc: Pc, memory: Local, disk: Local)
    requires c.Sound()
  {
    pc != Idle ==>
      && memory.transition.Some?
      && var t := memory.transition.value;
      && (pc.Copying? ==> t.mapped && forall l :: l in c.live - pc.files ==> c.targetOf[l] in t.proofs)
      && (pc.CopiedPhase? ==> Complete(c, t))
      && (pc.PublishCopied? || pc.CommitIndex? ==> Complete(c, t) && disk == memory)
      && (pc.VerifyTargets? && pc.unchecked != {} ==> t.mapped)
  }

  ghost predicate LocalRecords(c: Config, s: State)
    requires c.Sound()
  {
    && LocalExact(c, s.canonical.codec, s.memory) && LocalExact(c, s.canonical.codec, s.disk)
    && PcExact(c, s.pc, s.memory, s.disk)
  }

  /** Only this transition's maintenance is ever in the canonical index. */
  predicate OwnMaintenance(c: Config, m: Option<Maintenance>) {
    m.Some? ==>
      m.value.authority == AuthorityAt(c, m.value.authority.phase, m.value.authority.targetRevision)
  }

  predicate Owned(c: Config, s: State) { OwnMaintenance(c, s.loaded) && OwnMaintenance(c, s.canonical.maintenance) }

  predicate ManifestReadable(s: State) { s.manifest.Some? ==> ManifestSchema.WellFormed(s.manifest.value) }

  ghost predicate Records(c: Config, s: State)
    requires c.Sound()
  {
    LocalRecords(c, s) && Owned(c, s) && ManifestReadable(s)
  }

  // Manifests.

  lemma StableManifestReadable(c: Config, side: Side, owner: string, verifier: string)
    requires c.ValidModes() && owner != "" && FreshVerifier(c, side, verifier)
    ensures var m := StableManifest(c, side, owner, verifier);
            && (m.Some? <==> c.ModeOf(side).enabled)
            && (m.Some? ==> ManifestSchema.WellFormed(m.value))
  {
    hide ManifestSchema.Base64Of;
  }

  lemma TransitionManifestReadable(c: Config, phase: Phase, targetRevision: Option<int>)
    requires c.ValidModes()
    ensures var m := TransitionManifest(c, AuthorityAt(c, phase, targetRevision));
            m.Some? && ManifestSchema.WellFormed(m.value)
  {
    hide ManifestSchema.Base64Of;
  }

  lemma PublishedReadable(c: Config, s: State, authority: Authority, o: Outcome, next: Pc)
    requires c.ValidModes() && authority == AuthorityAt(c, authority.phase, authority.targetRevision) && ManifestReadable(s)
    ensures ManifestReadable(PublishTransition(c, s, authority, o, next))
  {
    hide ManifestSchema.WellFormed, TransitionManifest;
    TransitionManifestReadable(c, authority.phase, authority.targetRevision);
  }

  // The local transition, one lemma per group of steps.

  lemma CopiedIsComplete(c: Config, s: State)
    requires c.Sound() && LocalRecords(c, s) && s.memory.transition.Some? && s.pc == Copying({})
    ensures Complete(c, s.memory.transition.value)
  {
    forall p | p in c.targetOf.Values ensures p in s.memory.transition.value.proofs {
      var l :| l in c.targetOf && c.targetOf[l] == p;
      assert l in c.live - s.pc.files;
    }
  }

  lemma ExecuteKeepsLocal(c: Config, s: State, o: Outcome)
    requires c.Sound() && LocalRecords(c, s) && s.memory.transition.Some? && BeforeCommit(s.pc)
    ensures LocalRecords(c, ExecuteStep(c, s, o))
  {
    hide TransitionManifest, SourceUnchanged, LoadedAuthority, CommitAuthority, AuthorityAt, LocalExact, PcExact, Complete;
    match s.pc
    case Copying(files) => if files == {} { CopiedIsComplete(c, s); CopyingKeepsLocal(c, s, o); }
    case CommitIndex => CommitKeepsLocal(c, s, o);
    case _ => WriteKeepsLocal(c, s, o);
  }

  lemma CopyingKeepsLocal(c: Config, s: State, o: Outcome)
    requires c.Sound() && LocalRecords(c, s) && s.pc == Copying({}) && s.memory.transition.Some? && Complete(c, s.memory.transition.value)
    ensures LocalRecords(c, ExecuteStep(c, s, o))
  {}

  lemma CommitKeepsLocal(c: Config, s: State, o: Outcome)
    requires c.Sound() && LocalRecords(c, s) && s.memory.transition.Some? && s.pc.CommitIndex?
    ensures LocalRecords(c, ExecuteStep(c, s, o))
  {
    hide AuthorityAt;
  }

  lemma WriteKeepsLocal(c: Config, s: State, o: Outcome)
    requires c.Sound() && LocalRecords(c, s) && s.memory.transition.Some? && BeforeCommit(s.pc)
    requires !s.pc.Copying? && !s.pc.CommitIndex?
    ensures LocalRecords(c, ExecuteStep(c, s, o))
  {
    hide TransitionManifest, SourceUnchanged, LoadedAuthority, CommitAuthority, AuthorityAt;
    if s.pc.CopiedPhase? { CopiedKeepsLocal(c, s, o); }
  }

  lemma CopiedKeepsLocal(c: Config, s: State, o: Outcome)
    requires c.Sound() && LocalRecords(c, s) && s.memory.transition.Some? && s.pc.CopiedPhase?
    ensures LocalRecords(c, ExecuteStep(c, s, o))
  {
    hide SourceUnchanged;
  }

  lemma CompleteKeepsPc(c: Config, s: State, o: Outcome, verifier: string)
    requires c.Sound() && s.memory.transition.Some? && AfterCommit(s.pc)
    ensures var n := CompleteStep(c, s, o, verifier); PcExact(c, n.pc, n.memory, n.disk)
  {
    hide TransitionManifest, StableManifest, RetiresTarget, HoldsAuthority, LoadedAuthority, Complete;
    CompleteIsQuiet(c, s, o, verifier);
  }

  lemma CompleteKeepsLocal(c: Config, s: State, o: Outcome, verifier: string)
    requires c.Sound() && LocalRecords(c, s) && s.memory.transition.Some? && AfterCommit(s.pc) && s.canonical.codec == Target
    ensures LocalRecords(c, CompleteStep(c, s, o, verifier))
  {
    hide TransitionManifest, StableManifest, RetiresTarget, HoldsAuthority, LoadedAuthority, CommitAuthority, AuthorityAt;
    hide PcExact;
    CompleteKeepsPc(c, s, o, verifier);
  }

  lemma RollbackKeepsLocal(c: Config, s: State, o: Outcome, verifier: string)
    requires c.Sound() && LocalRecords(c, s) && s.memory.transition.Some? && RollingBack(s.pc)
    ensures LocalRecords(c, RollbackStep(c, s, o, verifier))
  {
    hide StableManifest, RetiresSource, RollbackValid;
  }

  /** Pinning the fingerprint of a live target keeps the transition exact. */
  lemma PinKeepsExact(c: Config, codec: Side, l: Local, raw: Path, fingerprint: string)
    requires LocalExact(c, codec, l) && l.transition.Some? && l.transition.value.mapped
    requires raw in c.targetOf.Values && fingerprint != ""
    ensures var t := l.transition.value;
            LocalExact(c, codec, l.(transition := Some(t.(proofs := t.proofs[raw := fingerprint]))))
  {}

  lemma VerifyKeepsLocal(c: Config, s: State, l: Path, o: Outcome)
    requires c.Sound() && Inv(c, s) && LocalRecords(c, s) && Exec(c, s, Verify(l, o)).Some?
    ensures LocalRecords(c, Exec(c, s, Verify(l, o)).value)
  {
    hide Inv, LocalExact, ObjectsKnown, LocalKnown, Uploaded;
    var raw := c.targetOf[l];
    if raw in s.objects {
      assert raw in c.targetOf.Values;
      VerifyMapped(c, s, l, o);
      PinKeepsExact(c, s.canonical.codec, s.memory, raw, s.objects[raw].fingerprint);
    }
  }

  lemma VerifyMapped(c: Config, s: State, l: Path, o: Outcome)
    requires c.Sound() && Inv(c, s) && LocalRecords(c, s) && Exec(c, s, Verify(l, o)).Some? && c.targetOf[l] in s.objects
    ensures s.memory.transition.value.mapped && s.objects[c.targetOf[l]].fingerprint != ""
  {
    hide HoldsTarget, LocalKnown, Uploaded;
  }

  lemma RecoveryKeepsLocal(c: Config, s: State, o: Outcome)
    requires c.Sound() && LocalRecords(c, s) && s.pc == Idle && s.memory.transition.Some?
    ensures LocalRecords(c, StartRecovery(c, s, o))
  {
    hide Coherent, DecisionOf, Complete;
  }

  lemma OtherKeepsLocal(c: Config, s: State, a: Action)
    requires c.Sound() && LocalRecords(c, s) && Exec(c, s, a).Some? && !a.Advance? && !a.Verify? && !a.Recover?
    ensures LocalRecords(c, Exec(c, s, a).value)
  {
    hide StableManifest, FreshVerifier, RollbackValid, HoldsAuthority, Complete;
  }

  lemma StepKeepsLocal(c: Config, s: State, a: Action)
    requires c.Sound() && Inv(c, s) && LocalRecords(c, s) && Exec(c, s, a).Some?
    ensures LocalRecords(c, Exec(c, s, a).value)
  {
    hide LocalRecords;
    match a
    case Advance(o, verifier) =>
      if BeforeCommit(s.pc) { ExecuteKeepsLocal(c, s, o); }
      else if RollingBack(s.pc) { RollbackKeepsLocal(c, s, o, verifier); }
      else { CompleteKeepsLocal(c, s, o, verifier); }
    case Verify(l, o) => VerifyKeepsLocal(c, s, l, o);
    case Recover(o) => RecoveryKeepsLocal(c, s, o);
    case _ => OtherKeepsLocal(c, s, a);
  }

  // The maintenance and the manifest.

  lemma AdvanceKeepsOwned(c: Config, s: State, o: Outcome, verifier: string)
    requires Owned(c, s) && s.memory.transition.Some?
    ensures Owned(c, ExecuteStep(c, s, o)) && Owned(c, CompleteStep(c, s, o, verifier)) && Owned(c, RollbackStep(c, s, o, verifier))
  {
    ExecuteKeepsOwned(c, s, o);
    CompleteKeepsOwned(c, s, o, verifier);
    RollbackKeepsOwned(c, s, o, verifier);
  }

  lemma ExecuteKeepsOwned(c: Config, s: State, o: Outcome)
    requires Owned(c, s) && s.memory.transition.Some?
    ensures Owned(c, ExecuteStep(c, s, o))
  {
    hide TransitionManifest, SourceUnchanged;
  }

  lemma CompleteKeepsOwned(c: Config, s: State, o: Outcome, verifier: string)
    requires Owned(c, s) && s.memory.transition.Some?
    ensures Owned(c, CompleteStep(c, s, o, verifier))
  {
    hide TransitionManifest, StableManifest, RetiresTarget, HoldsAuthority;
  }

  lemma RollbackKeepsOwned(c: Config, s: State, o: Outcome, verifier: string)
    requires Owned(c, s) && s.memory.transition.Some?
    ensures Owned(c, RollbackStep(c, s, o, verifier))
  {
    hide StableManifest, RetiresSource, RollbackValid;
  }

  lemma StepKeepsOwned(c: Config, s: State, a: Action)
    requires Owned(c, s) && Exec(c, s, a).Some?
    ensures Owned(c, Exec(c, s, a).value)
  {
    hide ExecuteStep, CompleteStep, RollbackStep, TransitionManifest, StableManifest, SourceUnchanged,
      HoldsTarget, FreshVerifier, RollbackValid, HoldsAuthority,
      MayDelete, RetiresSource, RetiresTarget, Coherent, DecisionOf;
    if a.Advance? { AdvanceKeepsOwned(c, s, a.outcome, a.verifier); }
  }

  lemma ExecuteKeepsManifest(c: Config, s: State, o: Outcome)
    requires c.ValidModes() && Owned(c, s) && ManifestReadable(s) && s.memory.transition.Some?
    ensures ManifestReadable(ExecuteStep(c, s, o))
  {
    hide ManifestSchema.WellFormed, Config.ValidModes, FreshVerifier, TransitionManifest, SourceUnchanged, ManifestReadable, PublishTransition;
    if s.pc == PublishPrepared { PublishedReadable(c, s, LoadedAuthority(c, s), o, ApplyTarget); }
    else if s.pc == PublishCopied { PublishedReadable(c, s, CommitAuthority(c, s), o, CommitIndex); }
    else { SameManifest(s, ExecuteStep(c, s, o)); }
  }

  lemma SameManifest(s: State, n: State)
    requires ManifestReadable(s) && n.manifest == s.manifest
    ensures ManifestReadable(n)
  {}

  lemma CompleteKeepsManifest(c: Config, s: State, o: Outcome, verifier: string)
    requires c.ValidModes() && Owned(c, s) && ManifestReadable(s) && s.memory.transition.Some?
    requires s.pc == PublishTarget ==> FreshVerifier(c, Target, verifier)
    ensures ManifestReadable(CompleteStep(c, s, o, verifier))
  {
    hide ManifestSchema.WellFormed, ManifestSchema.ValidMode, ModePair, FreshVerifier, TransitionManifest,
      StableManifest, ManifestReadable, PublishTransition, RetiresTarget;
    if s.pc == PublishCommitted { PublishedReadable(c, s, LoadedAuthority(c, s), o, TargetAuthority); }
    else if s.pc == PublishTarget { StablePublished(c, s, Target, c.device, verifier, CompleteStep(c, s, o, verifier)); }
    else { SameManifest(s, CompleteStep(c, s, o, verifier)); }
  }

  lemma StablePublished(c: Config, s: State, side: Side, owner: string, verifier: string, n: State)
    requires c.ValidModes() && ManifestReadable(s) && owner != "" && FreshVerifier(c, side, verifier)
    requires n.manifest == s.manifest || n.manifest == StableManifest(c, side, owner, verifier)
    ensures ManifestReadable(n)
  {
    hide ManifestSchema.WellFormed, Config.ValidModes, FreshVerifier, StableManifest;
    StableManifestReadable(c, side, owner, verifier);
  }

  lemma RollbackKeepsManifest(c: Config, s: State, o: Outcome, verifier: string)
    requires c.ValidModes() && ManifestReadable(s) && s.memory.transition.Some?
    requires s.pc == PublishSource ==> FreshVerifier(c, Source, verifier)
    ensures ManifestReadable(RollbackStep(c, s, o, verifier))
  {
    hide ManifestSchema.WellFormed, ManifestSchema.ValidMode, ModePair, FreshVerifier, StableManifest, ManifestReadable, RetiresSource, RollbackValid;
    if s.pc == PublishSource { StablePublished(c, s, Source, c.device, verifier, RollbackStep(c, s, o, verifier)); }
    else { SameManifest(s, RollbackStep(c, s, o, verifier)); }
  }

  lemma StepKeepsManifest(c: Config, s: State, a: Action)
    requires c.ValidModes() && Owned(c, s) && ManifestReadable(s) && Exec(c, s, a).Some?
    ensures ManifestReadable(Exec(c, s, a).value)
  {
    hide Config.ValidModes, ExecuteStep, CompleteStep, RollbackStep, ManifestReadable, Owned, TransitionManifest,
      StableManifest, SourceUnchanged, HoldsTarget, FreshVerifier, RollbackValid, HoldsAuthority,
      MayDelete, RetiresSource, RetiresTarget, Coherent, DecisionOf;
    var n := Exec(c, s, a).value;
    match a
    case ForeignPublish(owner, verifier) => StablePublished(c, s, Target, owner, verifier, n);
    case Advance(o, verifier) =>
      if BeforeCommit(s.pc) { ExecuteKeepsManifest(c, s, o); }
      else if RollingBack(s.pc) { RollbackKeepsManifest(c, s, o, verifier); }
      else { CompleteKeepsManifest(c, s, o, verifier); }
    case _ => SameManifest(s, n);
  }

  // Runs.

  lemma InitialRecords(c: Config, s: State)
    requires c.Sound() && c.ValidModes() && Initial(c, s)
    ensures Records(c, s)
  {
    var owner, verifier :| owner != "" && FreshVerifier(c, Source, verifier)
          && s.manifest == StableManifest(c, Source, owner, verifier);
    StableManifestReadable(c, Source, owner, verifier);
  }

  lemma {:induction false} RunKeepsRecords(c: Config, s: State, actions: seq<Action>, last: State)
    requires c.Sound() && c.ValidModes() && Inv(c, s) && Records(c, s) && Run(c, s, actions, last)
    ensures Inv(c, last) && Records(c, last)
    decreases actions
  {
    hide Inv, LocalRecords, Owned, ManifestReadable, Exec;
    if actions != [] {
      StepKeepsInv(c, s, actions[0]);
      StepKeepsLocal(c, s, actions[0]);
      StepKeepsOwned(c, s, actions[0]);
      StepKeepsManifest(c, s, actions[0]);
      RunKeepsRecords(c, Exec(c, s, actions[0]).value, actions[1..], last);
    }
  }

  /** Over all runs, the manifest in the remote store reads back as itself. */
  lemma EveryManifestParses(c: Config, first: State, actions: seq<Action>, last: State)
    requires c.Valid() && Initial(c, first) && Run(c, first, actions, last)
    ensures last.manifest.Some? ==> ManifestSchema.ParseManifest(ManifestSchema.ToJson(last.manifest.value)) == last.manifest
  {
    ValidIsSound(c);
    InitialInv(c, first);
    InitialRecords(c, first);
    RunKeepsRecords(c, first, actions, last);
    if last.manifest.Some? { ManifestSchema.ManifestRoundTrip(last.manifest.value); }
  }

  /** What the loader demands of the claim and the captured tree, before any step is taken. */
  ghost predicate LoadableClaim(c: Config) {
    && PluginDataLoader.ValidClaim(c.claim) && PluginDataLoader.ValidProof(c.backupProof) && Distinct(c.sourcePaths)
    && forall i :: 0 <= i < |c.sourcePaths| ==> TargetMapping.Safe(c.sourcePaths[i])
  }

  lemma RecordFacts(c: Config)
    requires c.ValidTree()
    ensures c.Fingerprints().Keys == set p | p in c.sourcePaths
    ensures PluginDataLoader.NonEmptyStrings(c.Fingerprints())
  {}

  /** The entries of a mapping in some order in which its record may enumerate them. */
  ghost predicate Enumerates(entries: seq<(Path, Path)>, record: map<Path, Path>) {
    && |entries| == |record| && Distinct(entries)
    && forall l, r :: (l, r) in entries <==> l in record && record[l] == r
  }

  function MappingOf(c: Config, t: Transition): map<Path, Path> { if t.mapped then c.targetOf else map[] }

  /** However the record enumerates an admissible mapping, the loader rebuilds the same record. */
  lemma EnumerationIsAdmissible(c: Config, again: seq<(Path, Path)>)
    requires c.ValidTree() && c.mappable && Enumerates(again, c.targetOf)
    ensures TargetMapping.Admissible(again, c.sourcePaths) && TargetMapping.Record(again) == c.targetOf
  {
    hide TargetMapping.Safe, TargetMapping.Fits, TargetMapping.Apart, TargetMapping.Record;
    TargetMapping.RecordIsExact(c.entries, c.sourcePaths);
    forall i | 0 <= i < |again| ensures again[i] in c.entries { assert (again[i].0, again[i].1) in again; }
    TargetMapping.ReloadIsAdmissible(c.entries, c.sourcePaths, again, c.sourcePaths);
    TargetMapping.RecordIsExact(again, c.sourcePaths);
    SameRecord(TargetMapping.Record(again), c.targetOf, again);
  }

  lemma SameRecord(a: map<Path, Path>, b: map<Path, Path>, entries: seq<(Path, Path)>)
    requires forall l, r :: (l in a && a[l] == r) <==> (l, r) in entries
    requires forall l, r :: (l, r) in entries <==> l in b && b[l] == r
    ensures a == b
  {
    forall l ensures l in a <==> l in b {
      if l in a { assert (l, a[l]) in entries; }
      if l in b { assert (l, b[l]) in entries; }
    }
    forall l | l in a && l in b ensures a[l] == b[l] { assert (l, a[l]) in entries; }
  }

  lemma LocalLoads(c: Config, codec: Side, l: Local, again: seq<(Path, Path)>)
    requires c.ValidTree() && LocalExact(c, codec, l) && l.transition.Some? && Enumerates(again, MappingOf(c, l.transition.value))
    ensures PluginDataLoader.Accepts(RecordOf(c, l.transition.value).(targetEntries := again)) <==> LoadableClaim(c)
  {
    hide TargetMapping.Safe, TargetMapping.Fits;
    RecordFacts(c);
    var t := l.transition.value;
    if t.mapped { EnumerationIsAdmissible(c, again); } else { assert again == [] && TargetMapping.Record([]) == map[]; }
  }

  /** Over all runs, in whatever order the stored record enumerates the mapping, a reload accepts the persisted
      transition with the settings persisted beside it exactly when it would have accepted the first one: exactly when
      the claim and the backup proof are valid and the captured source paths are distinct and safe. */
  lemma EveryPersistedTransitionLoads(c: Config, first: State, actions: seq<Action>, last: State, again: seq<(Path, Path)>)
    requires c.Valid() && Initial(c, first) && Run(c, first, actions, last) && last.disk.transition.Some?
    requires Enumerates(again, MappingOf(c, last.disk.transition.value))
    ensures PluginDataLoader.Loads(RecordOf(c, last.disk.transition.value).(targetEntries := again), last.disk.settings)
      <==> LoadableClaim(c)
  {
    ValidIsSound(c);
    InitialInv(c, first);
    InitialRecords(c, first);
    hide Inv, Owned, ManifestReadable, Initial, Run, LoadableClaim, Enumerates, PluginDataLoader.Accepts, Config.ValidModes;
    RunKeepsRecords(c, first, actions, last);
    SettingsFollowCodec(c, first, actions, last);
    LocalLoads(c, last.canonical.codec, last.disk, again);
  }
}
