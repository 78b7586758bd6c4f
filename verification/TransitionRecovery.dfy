/** Convergence of the guarded transition on a single device: at every crash point the coherence check accepts what was
    left behind, and an uninterrupted recovery ends with no transition, no maintenance and one generation of objects. */
module TransitionRecovery {
  import opened Basics
  import opened Paths
  import opened EncryptionTypes
  import opened TransitionProtocol
  import opened TransitionSafety
  import opened TransitionRecords
  import opened TransitionSettings
  import ManifestSchema
  import PluginDataLoader

  predicate SingleDevice(a: Action) { !a.ForeignPublish? && !a.ForeignAdvance? && !a.ForeignRequest? && !a.ForeignFinish? }

  // What the stores hold between two steps.

  /** The manifest of a codec that is not in transition. */
  predicate StableOf(c: Config, side: Side, m: Option<Manifest>) {
    if !c.ModeOf(side).enabled then m.None?
    else
      && m.Some? && m.value.state == Enabled && c.verifiedBy(m.value.verifier) == Some(side)
      && Some(m.value.salt) == c.ModeOf(side).salt && Some(m.value.revision) == c.ModeOf(side).revision
  }

  /** The manifest of this transition in a phase. */
  predicate TransitionOf(c: Config, phase: Phase, m: Option<Manifest>) {
    && m.Some? && m.value.transition.Some? && m.value.state == ExpectedState(c.claim.kind)
    && c.verifiedBy(m.value.verifier) == Some(DeclaringSide(c))
    && var d := m.value.transition.value;
    && d.id == c.claim.id && d.initiatedBy == c.device && d.phase == phase
    && d.source == c.sourceMode && d.target == c.targetMode
  }

  predicate Copied(l: Local) { l.transition.Some? && l.transition.value.phase == FilesCopied }

  predicate MaintenanceKnown(c: Config, canonical: Canonical) {
    canonical.maintenance.Some? ==>
      var m := canonical.maintenance.value;
      if canonical.codec == Source then m == Maintenance(AuthorityAt(c, Prepared, None), map[])
      else
        && m.cleanup == c.Fingerprints() && (m.authority.phase == IndexCommitted || m.authority.phase == Cleanup)
        && m.authority == AuthorityAt(c, m.authority.phase, m.authority.targetRevision)
  }

  predicate ManifestKnown(c: Config, s: State) {
    var maintenance := s.canonical.maintenance;
    || StableOf(c, s.canonical.codec, s.manifest)
    || (maintenance.Some? && s.canonical.codec == Source && TransitionOf(c, Prepared, s.manifest))
    || (maintenance.Some? && s.canonical.codec == Source && TransitionOf(c, IndexCommitted, s.manifest)
        && Copied(s.memory) && Copied(s.disk))
    || (maintenance.Some? && s.canonical.codec == Target && maintenance.value.authority.phase == IndexCommitted
        && TransitionOf(c, IndexCommitted, s.manifest))
  }

  /** What the local data, in memory or on disk, always knows about the remote store. */
  ghost predicate LocalSettled(c: Config, canonical: Canonical, objects: map<Path, Object>, l: Local) {
    && (canonical.maintenance.None? ==> l.pending == map[])
    && (canonical.maintenance.Some? ==> l.transition.Some?)
    && (canonical.codec == Target ==> l.pending.Keys <= c.sources.Keys)
    && (l.transition.Some? && canonical.codec == Target && canonical.maintenance.None? ==> Committed(l.transition.value.phase))
    && (l.transition.Some? && canonical.codec == Source ==>
          var t := l.transition.value;
          && l.pending.Keys <= t.proofs.Keys
          && (!(objects.Keys <= c.sources.Keys) ==> t.mapped)
          && forall p :: p in t.proofs && p in objects ==> t.proofs[p] == objects[p].fingerprint)
  }

  /** Without maintenance only one generation of objects is left. */
  ghost predicate OneGeneration(c: Config, canonical: Canonical, objects: map<Path, Object>) {
    canonical.maintenance.None? ==>
      if canonical.codec == Source then objects.Keys <= c.sources.Keys else objects.Keys !! c.sources.Keys
  }

  ghost predicate Stores(c: Config, s: State) {
    && MaintenanceKnown(c, s.canonical) && s.canonical.revision >= c.claim.sourceCanonicalRevision
    && ManifestKnown(c, s)
    && LocalSettled(c, s.canonical, s.objects, s.memory) && LocalSettled(c, s.canonical, s.objects, s.disk)
    && OneGeneration(c, s.canonical, s.objects)
  }

  // What the running procedure knows.

  predicate Unclaimed(pc: Pc) { pc.Claiming? || pc.ClearTarget? || pc.RetireTarget? || pc.ClearSource? || pc.RetireSource? }

  /** The last write of the local data reached the disk. */
  predicate Synced(pc: Pc) {
    || BeforeCommit(pc) || pc.CommittedPhase? || pc.PublishCommitted?
    || pc.PrepareCleanup? || pc.Deleting? || pc.FinishTarget?
    || pc.SourceAuthority? || pc.PublishSource? || pc.DeletingTargets? || pc.FinishSource?
  }

  ghost predicate Observed(c: Config, s: State) {
    && s.loaded == s.canonical.maintenance
    && (Unclaimed(s.pc) ==> s.canonical.maintenance.None?)
    && (!Unclaimed(s.pc) && !s.pc.VerifyTargets? ==> s.canonical.maintenance.Some?)
    && (Synced(s.pc) ==> s.disk == s.memory)
    && s.memory.transition.Some?
  }

  ghost predicate Executing(c: Config, s: State)
    requires s.memory.transition.Some?
  {
    var t := s.memory.transition.value;
    && (BeforeCommit(s.pc) || s.pc.CommittedPhase? ==> s.memory.pending == map[])
    && (BeforeCommit(s.pc) ==> t.proofs.Keys <= s.objects.Keys)
    && (s.pc.Claiming? || s.pc.ClaimPhase? ==> t.phase == Prepared)
    && (s.pc.PublishCopied? || s.pc.CommitIndex? ==> t.phase == FilesCopied)
    && (s.pc.CommitIndex? ==> TransitionOf(c, IndexCommitted, s.manifest))
  }

  predicate Gone(pc: Pc, p: Path, inflight: set<Path>)
    requires pc.Deleting? || pc.DeletingTargets?
  {
    p !in pc.asked || p in inflight
  }

  ghost predicate Completing(c: Config, s: State)
    requires s.memory.transition.Some? && s.canonical.maintenance.Some?
  {
    var t, m := s.memory.transition.value, s.canonical.maintenance.value;
    && (s.pc.CommittedPhase? || s.pc.PublishCommitted? ==> m.authority.phase == IndexCommitted)
    && (s.pc.CommitCleanup? ==> StableOf(c, Target, s.manifest))
    && (s.pc.CleanupPhase? || s.pc.PrepareCleanup? || s.pc.Deleting? || s.pc.FinishTarget? ==> m.authority.phase == Cleanup)
    && (s.pc.PrepareCleanup? || s.pc.Deleting? || s.pc.FinishTarget? ==> t.phase == Cleanup)
    && (s.pc.Deleting? ==>
          && s.pc.asked <= s.pc.todo <= c.sources.Keys && s.memory.pending.Keys <= s.pc.todo
          && forall p :: p in c.sources && p in s.objects ==> p in s.pc.todo && Gone(s.pc, p, s.inflight))
    && (s.pc.FinishTarget? ==> s.memory.pending == map[] && s.objects.Keys !! c.sources.Keys)
  }

  /** Every uploaded target that is still present has been pinned, apart from the files not looked at yet. */
  ghost predicate AllPinned(c: Config, s: State, unchecked: set<Path>)
    requires s.memory.transition.Some?
  {
    forall p :: p in s.objects && p !in c.sources && s.objects[p].logical !in unchecked ==> p in s.memory.transition.value.proofs
  }

  ghost predicate RollingBackKnown(c: Config, s: State)
    requires s.memory.transition.Some?
  {
    var t := s.memory.transition.value;
    && (s.pc.VerifyTargets? ==>
          s.pc.unchecked <= c.live && AllPinned(c, s, s.pc.unchecked) && (s.pc.present ==> s.canonical.maintenance.Some?))
    && (s.pc.PrepareRollback? || s.pc.SourceAuthority? || s.pc.PublishSource? ==> AllPinned(c, s, {}))
    && (s.pc.DeletingTargets? || s.pc.FinishSource? ==> StableOf(c, Source, s.manifest))
    && (s.pc.DeletingTargets? ==>
          && s.pc.asked <= s.pc.todo <= t.proofs.Keys && s.memory.pending.Keys <= s.pc.todo
          && forall p :: p in s.objects && p !in c.sources ==> p in s.pc.todo && Gone(s.pc, p, s.inflight))
    && (s.pc.FinishSource? ==> s.memory.pending == map[] && s.objects.Keys <= c.sources.Keys)
  }

  ghost predicate Procedure(c: Config, s: State) {
    s.pc != Idle ==>
      && Observed(c, s)
      && (BeforeCommit(s.pc) || s.pc.CommittedPhase? ==> Executing(c, s))
      && (AfterCommit(s.pc) && s.canonical.maintenance.Some? ==> Completing(c, s))
      && (RollingBack(s.pc) ==> RollingBackKnown(c, s))
  }

  ghost predicate Recoverable(c: Config, s: State)
    requires c.Sound()
  {
    Inv(c, s) && LocalRecords(c, s) && Stores(c, s) && Procedure(c, s) && SettingsKnown(c, s)
  }

  // Manifests.

  lemma StableIsStableOf(c: Config, side: Side, owner: string, verifier: string)
    requires c.ValidModes() && FreshVerifier(c, side, verifier)
    ensures StableOf(c, side, StableManifest(c, side, owner, verifier))
  {
    hide ManifestSchema.Base64Of;
  }

  lemma TransitionIsTransitionOf(c: Config, phase: Phase, targetRevision: Option<int>)
    requires c.ValidModes()
    ensures TransitionManifest(c, AuthorityAt(c, phase, targetRevision)).Some?
    ensures TransitionOf(c, phase, TransitionManifest(c, AuthorityAt(c, phase, targetRevision)))
  {
    hide ManifestSchema.Base64Of;
  }

  lemma InitialRecoverable(c: Config, s: State)
    requires c.Sound() && c.ValidModes() && Initial(c, s)
    ensures Recoverable(c, s)
  {
    hide Inv, LocalRecords, Owned, ManifestReadable, Stores, StableManifest, FreshVerifier, Config.ValidModes, Config.Sound;
    InitialInv(c, s);
    InitialRecords(c, s);
    InitialStores(c, s);
    InitialSettings(c, s);
  }

  lemma InitialStores(c: Config, s: State)
    requires c.ValidModes() && Initial(c, s)
    ensures Stores(c, s)
  {
    hide StableManifest, FreshVerifier, StableOf, TransitionOf, Config.ValidModes;
    var owner, verifier :| owner != "" && FreshVerifier(c, Source, verifier) && s.manifest == StableManifest(c, Source, owner, verifier);
    StableIsStableOf(c, Source, owner, verifier);
  }

  /** The coherence check accepts whatever single-device runs leave behind. */
  lemma KnownIsCoherent(c: Config, s: State, l: Local)
    requires c.Sound() && c.ValidModes() && Recoverable(c, s) && (l == s.memory || l == s.disk) && l.transition.Some?
    ensures Coherent(c, l.transition.value.phase, s.manifest, s.canonical.maintenance, s.canonical.codec)
  {
    hide ManifestSchema.Base64Of, ObjectsKnown, HoldsTarget;
  }

  // Writes keep the stores consistent, whatever their outcome.

  lemma PersistKeepsStores(c: Config, s: State, memory: Local, o: Outcome, next: Pc)
    requires Stores(c, s) && LocalSettled(c, s.canonical, s.objects, memory)
    requires s.canonical.codec == Source && Copied(s.memory) ==> Copied(memory)
    ensures Stores(c, Persist(s, memory, o, next))
  {
    hide LocalSettled, StableOf, TransitionOf, MaintenanceKnown, OneGeneration;
  }

  lemma PublishKeepsStores(c: Config, s: State, manifest: Option<Manifest>, o: Outcome, next: Pc)
    requires Stores(c, s) && ManifestKnown(c, s.(manifest := manifest))
    ensures Stores(c, Publish(s, manifest, o, next))
  {
    hide LocalSettled, StableOf, TransitionOf, MaintenanceKnown, OneGeneration;
  }

  lemma SaveKeepsStores(c: Config, s: State, codec: Side, maintenance: Option<Maintenance>, o: Outcome, next: Pc)
    requires Stores(c, s)
    requires var saved := Canonical(codec, s.canonical.revision + 1, maintenance);
             && MaintenanceKnown(c, saved) && OneGeneration(c, saved, s.objects) && ManifestKnown(c, s.(canonical := saved))
             && LocalSettled(c, saved, s.objects, s.memory) && LocalSettled(c, saved, s.objects, s.disk)
    ensures Stores(c, Save(s, codec, maintenance, o, next))
  {
    hide LocalSettled, StableOf, TransitionOf, MaintenanceKnown, OneGeneration;
  }

  lemma SameStores(c: Config, s: State, n: State)
    requires Stores(c, s) && n.canonical == s.canonical && n.manifest == s.manifest && n.objects == s.objects
    requires n.memory == s.memory && n.disk == s.disk
    ensures Stores(c, n)
  {
    hide LocalSettled, StableOf, TransitionOf, MaintenanceKnown, OneGeneration;
  }

  // `execute`

  lemma ExecutePersists(c: Config, s: State, o: Outcome)
    requires c.Sound() && Recoverable(c, s) && (s.pc.ClaimPhase? || s.pc.ResolveTargets? || s.pc.CopiedPhase?)
    ensures Stores(c, ExecuteStep(c, s, o)) && Procedure(c, ExecuteStep(c, s, o))
  {
    hide LocalRecords, SettingsKnown, TransitionManifest, SourceUnchanged, StableOf, TransitionOf, MaintenanceKnown, OneGeneration,
      ObjectsKnown, HoldsTarget, LocalKnown, Uploaded;
    var t := s.memory.transition.value;
    if s.pc.ClaimPhase? { PersistKeepsStores(c, s, SetPhase(s, Prepared), o, PublishPrepared); }
    else if s.pc.ResolveTargets? {
      PersistKeepsStores(c, s, s.memory.(transition := Some(t.(mapped := true))), o, Copying(c.live));
    } else { PersistKeepsStores(c, s, SetPhase(s, FilesCopied), o, PublishCopied); }
  }

  lemma ExecuteApplies(c: Config, s: State, o: Outcome)
    requires c.Sound() && Recoverable(c, s) && s.pc.ApplyTarget?
    ensures Stores(c, ExecuteStep(c, s, o)) && Procedure(c, ExecuteStep(c, s, o))
  {
    hide Inv, LocalRecords, SettingsKnown, StableOf, TransitionOf, MaintenanceKnown, OneGeneration;
    PersistKeepsStores(c, s, s.memory.(settings := c.claim.target), o, ResolveTargets);
  }

  lemma ExecutePublishes(c: Config, s: State, o: Outcome)
    requires c.Sound() && c.ValidModes() && Recoverable(c, s) && (s.pc.PublishPrepared? || s.pc.PublishCopied?)
    ensures Stores(c, ExecuteStep(c, s, o)) && Procedure(c, ExecuteStep(c, s, o))
  {
    hide LocalRecords, TransitionManifest, StableOf, TransitionOf, OneGeneration,
      ObjectsKnown, HoldsTarget, LocalKnown, Uploaded, LocalSettled, Config.ValidModes;
    TransitionIsTransitionOf(c, Prepared, None);
    TransitionIsTransitionOf(c, IndexCommitted, Some(s.canonical.revision + 1));
    if s.pc.PublishPrepared? { PublishKeepsStores(c, s, TransitionManifest(c, LoadedAuthority(c, s)), o, ApplyTarget); }
    else { PublishKeepsStores(c, s, TransitionManifest(c, CommitAuthority(c, s)), o, CommitIndex); }
  }

  lemma ExecuteClaims(c: Config, s: State, o: Outcome)
    requires c.Sound() && Recoverable(c, s) && s.pc.Claiming?
    ensures Stores(c, ExecuteStep(c, s, o)) && Procedure(c, ExecuteStep(c, s, o))
  {
    hide LocalRecords, SourceUnchanged, StableOf, TransitionOf, ObjectsKnown, HoldsTarget, LocalKnown, Uploaded;
    SameStores(c, s, Failed(s));
    SaveKeepsStores(c, s, s.canonical.codec, Some(Maintenance(AuthorityAt(c, Prepared, None), map[])), o, ClaimPhase);
  }

  lemma ExecuteCommits(c: Config, s: State, o: Outcome)
    requires c.Sound() && Recoverable(c, s) && s.pc.CommitIndex?
    ensures Stores(c, ExecuteStep(c, s, o)) && Procedure(c, ExecuteStep(c, s, o))
  {
    hide LocalRecords, StableOf, TransitionOf, ObjectsKnown, HoldsTarget, LocalKnown, Uploaded;
    SaveKeepsStores(c, s, Target, Some(Maintenance(CommitAuthority(c, s), c.Fingerprints())), o, CommittedPhase);
  }

  lemma ExecuteRecovers(c: Config, s: State, o: Outcome)
    requires c.Sound() && c.ValidModes() && Recoverable(c, s) && BeforeCommit(s.pc)
    ensures Stores(c, ExecuteStep(c, s, o)) && Procedure(c, ExecuteStep(c, s, o))
  {
    hide Inv, LocalRecords, Stores, ExecuteStep;
    if s.pc.ApplyTarget? { ExecuteApplies(c, s, o); }
    else if s.pc.ClaimPhase? || s.pc.ResolveTargets? || s.pc.CopiedPhase? { ExecutePersists(c, s, o); }
    else if s.pc.PublishPrepared? || s.pc.PublishCopied? { ExecutePublishes(c, s, o); }
    else if s.pc.Claiming? { ExecuteClaims(c, s, o); }
    else if s.pc.CommitIndex? { ExecuteCommits(c, s, o); }
    else { CopyingRecovers(c, s, o); }
  }

  lemma CopyingRecovers(c: Config, s: State, o: Outcome)
    requires c.Sound() && Recoverable(c, s) && s.pc.Copying?
    ensures Stores(c, ExecuteStep(c, s, o)) && Procedure(c, ExecuteStep(c, s, o))
  {
    hide Inv, LocalRecords, Stores;
    SameStores(c, s, ExecuteStep(c, s, o));
  }

  // `completeTarget`

  lemma CompletePersists(c: Config, s: State, o: Outcome, verifier: string)
    requires c.Sound() && Recoverable(c, s) && (s.pc.CommittedPhase? || s.pc.CleanupPhase?)
    ensures Stores(c, CompleteStep(c, s, o, verifier)) && Procedure(c, CompleteStep(c, s, o, verifier))
  {
    hide LocalRecords, StableOf, TransitionOf, MaintenanceKnown, OneGeneration, ObjectsKnown, HoldsTarget, LocalKnown, Uploaded;
    PersistKeepsStores(c, s, SetPhase(s, if s.pc.CommittedPhase? then IndexCommitted else Cleanup), o,
                       if s.pc.CommittedPhase? then PublishCommitted else PrepareCleanup);
  }

  lemma CompletePrepares(c: Config, s: State, o: Outcome, verifier: string)
    requires c.Sound() && Recoverable(c, s) && s.pc.PrepareCleanup?
    ensures Stores(c, CompleteStep(c, s, o, verifier)) && Procedure(c, CompleteStep(c, s, o, verifier))
  {
    hide LocalRecords, ManifestKnown, StableOf, MaintenanceKnown, OneGeneration, ObjectsKnown, HoldsTarget, LocalKnown, Uploaded;
    assert s.canonical.codec == Target && s.memory.transition.Some?;
    var memory := s.memory.(pending := s.memory.pending + c.Fingerprints());
    PreparedIsSettled(c, s);
    hide LocalSettled, Config.Fingerprints;
    PersistKeepsStores(c, s, memory, o, Deleting(c.sources.Keys, {}));
  }

  lemma PreparedIsSettled(c: Config, s: State)
    requires LocalSettled(c, s.canonical, s.objects, s.memory) && s.canonical.codec == Target && s.canonical.maintenance.Some?
    ensures var memory := s.memory.(pending := s.memory.pending + c.Fingerprints());
      LocalSettled(c, s.canonical, s.objects, memory) && memory.pending.Keys <= c.sources.Keys
  {}

  lemma CompletePublishes(c: Config, s: State, o: Outcome, verifier: string)
    requires c.Sound() && c.ValidModes() && Recoverable(c, s) && (s.pc.PublishCommitted? || s.pc.PublishTarget?)
    requires s.pc.PublishTarget? ==> FreshVerifier(c, Target, verifier)
    ensures Stores(c, CompleteStep(c, s, o, verifier)) && Procedure(c, CompleteStep(c, s, o, verifier))
  {
    hide LocalRecords, TransitionManifest, StableOf, TransitionOf, OneGeneration, StableManifest, FreshVerifier,
      ObjectsKnown, HoldsTarget, LocalKnown, Uploaded, LocalSettled, Config.ValidModes;
    if s.pc.PublishCommitted? {
      TransitionIsTransitionOf(c, IndexCommitted, LoadedAuthority(c, s).targetRevision);
      PublishKeepsStores(c, s, TransitionManifest(c, LoadedAuthority(c, s)), o, TargetAuthority);
    } else {
      StableIsStableOf(c, Target, c.device, verifier);
      PublishKeepsStores(c, s, StableManifest(c, Target, c.device, verifier), o, CommitCleanup);
    }
  }

  lemma CompleteSaves(c: Config, s: State, o: Outcome, verifier: string)
    requires c.Sound() && Recoverable(c, s) && (s.pc.CommitCleanup? || s.pc.FinishTarget?)
    ensures Stores(c, CompleteStep(c, s, o, verifier)) && Procedure(c, CompleteStep(c, s, o, verifier))
  {
    hide LocalRecords, SettingsKnown, StableOf, TransitionOf, ObjectsKnown, HoldsTarget, LocalKnown, Uploaded;
    SameStores(c, s, Failed(s));
    if s.pc.CommitCleanup? { CompleteAdvances(c, s, o, verifier); }
    else if s.memory.pending == map[] { SaveKeepsStores(c, s, s.canonical.codec, None, o, ClearTarget); }
  }

  lemma CompleteAdvances(c: Config, s: State, o: Outcome, verifier: string)
    requires c.Sound() && Recoverable(c, s) && s.pc.CommitCleanup?
    ensures Stores(c, CompleteStep(c, s, o, verifier)) && Procedure(c, CompleteStep(c, s, o, verifier))
  {
    hide LocalRecords, SettingsKnown, StableOf, TransitionOf, ObjectsKnown, HoldsTarget, LocalKnown, Uploaded;
    SameStores(c, s, Failed(s));
    SaveKeepsStores(c, s, s.canonical.codec, Some(Maintenance(LoadedAuthority(c, s).(phase := Cleanup), c.Fingerprints())), o, CleanupPhase);
  }

  /** Emptying the local data once the maintenance is gone. */
  lemma ClearKeepsStores(c: Config, s: State, cleared: Local, o: Outcome)
    requires Stores(c, s) && s.canonical.maintenance.None? && cleared.transition.None? && cleared.pending == map[]
    ensures Stores(c, PersistCleared(s, cleared, o))
  {
    hide StableOf, TransitionOf, MaintenanceKnown, OneGeneration;
  }

  lemma CompleteMoves(c: Config, s: State, o: Outcome, verifier: string)
    requires c.Sound() && Recoverable(c, s) && AfterCommit(s.pc)
    requires s.pc.TargetAuthority? || s.pc.Deleting? || s.pc.ClearTarget? || s.pc.RetireTarget?
    ensures Stores(c, CompleteStep(c, s, o, verifier)) && Procedure(c, CompleteStep(c, s, o, verifier))
  {
    hide LocalRecords, StableOf, TransitionOf, ObjectsKnown, HoldsTarget, LocalKnown, Uploaded, MaintenanceKnown, OneGeneration,
      RetiresTarget;
    if s.pc.TargetAuthority? || s.pc.Deleting? { SameStores(c, s, CompleteStep(c, s, o, verifier)); }
    else {
      SameStores(c, s, Failed(s));
      ClearKeepsStores(c, s, s.memory.(transition := None, pending := map[]), o);
    }
  }

  lemma CompleteRecovers(c: Config, s: State, o: Outcome, verifier: string)
    requires c.Sound() && c.ValidModes() && Recoverable(c, s) && AfterCommit(s.pc)
    requires s.pc.PublishTarget? ==> FreshVerifier(c, Target, verifier)
    ensures Stores(c, CompleteStep(c, s, o, verifier)) && Procedure(c, CompleteStep(c, s, o, verifier))
  {
    hide Inv, LocalRecords, Stores, CompleteStep, FreshVerifier, Config.ValidModes;
    if s.pc.CommittedPhase? || s.pc.CleanupPhase? { CompletePersists(c, s, o, verifier); }
    else if s.pc.PrepareCleanup? { CompletePrepares(c, s, o, verifier); }
    else if s.pc.PublishCommitted? || s.pc.PublishTarget? { CompletePublishes(c, s, o, verifier); }
    else if s.pc.CommitCleanup? || s.pc.FinishTarget? { CompleteSaves(c, s, o, verifier); }
    else { CompleteMoves(c, s, o, verifier); }
  }

  // The rollback

  lemma RollbackPersists(c: Config, s: State, o: Outcome, verifier: string)
    requires c.Sound() && Recoverable(c, s) && s.pc.PrepareRollback?
    ensures Stores(c, RollbackStep(c, s, o, verifier)) && Procedure(c, RollbackStep(c, s, o, verifier))
  {
    hide LocalRecords, StableOf, TransitionOf, MaintenanceKnown, OneGeneration, StableManifest, RollbackValid,
      ObjectsKnown, HoldsTarget, LocalKnown, Uploaded;
    SameStores(c, s, Failed(s));
    PersistKeepsStores(c, s, s.memory.(pending := s.memory.pending + s.memory.transition.value.proofs), o, SourceAuthority);
  }

  lemma RollbackPublishes(c: Config, s: State, o: Outcome, verifier: string)
    requires c.Sound() && c.ValidModes() && Recoverable(c, s) && s.pc.PublishSource? && FreshVerifier(c, Source, verifier)
    ensures Stores(c, RollbackStep(c, s, o, verifier)) && Procedure(c, RollbackStep(c, s, o, verifier))
  {
    hide LocalRecords, StableOf, TransitionOf, MaintenanceKnown, OneGeneration, StableManifest, FreshVerifier,
      ObjectsKnown, HoldsTarget, LocalKnown, Uploaded, Config.ValidModes;
    StableIsStableOf(c, Source, c.device, verifier);
    PublishKeepsStores(c, s, StableManifest(c, Source, c.device, verifier), o, DeletingTargets(s.memory.transition.value.proofs.Keys, {}));
    AllPinnedUnfold(c, s);
  }

  lemma AllPinnedUnfold(c: Config, s: State)
    requires c.Sound() && Inv(c, s) && s.memory.transition.Some? && AllPinned(c, s, {})
    ensures forall p :: p in s.objects && p !in c.sources ==> p in s.memory.transition.value.proofs
  {}

  lemma RollbackSaves(c: Config, s: State, o: Outcome, verifier: string)
    requires c.Sound() && Recoverable(c, s) && s.pc.FinishSource?
    ensures Stores(c, RollbackStep(c, s, o, verifier)) && Procedure(c, RollbackStep(c, s, o, verifier))
  {
    hide LocalRecords, StableOf, TransitionOf, ObjectsKnown, HoldsTarget, LocalKnown, Uploaded, RollbackValid;
    SameStores(c, s, Failed(s));
    SaveKeepsStores(c, s, s.canonical.codec, None, o, ClearSource);
  }

  lemma RollbackMoves(c: Config, s: State, o: Outcome, verifier: string)
    requires c.Sound() && Recoverable(c, s)
    requires s.pc.VerifyTargets? || s.pc.SourceAuthority? || s.pc.DeletingTargets? || s.pc.ClearSource? || s.pc.RetireSource?
    ensures Stores(c, RollbackStep(c, s, o, verifier)) && Procedure(c, RollbackStep(c, s, o, verifier))
  {
    assert s.memory.transition.Some? by { hide Inv, LocalRecords, Stores; }
    hide Inv, LocalRecords, Stores, Procedure, RetiresSource, RollbackValid;
    if s.pc.ClearSource? { RollbackClears(c, s, o, verifier); }
    else {
      SameStores(c, s, RollbackStep(c, s, o, verifier));
      if s.pc.VerifyTargets? { VerifiedMoves(c, s, o, verifier); } else { RollbackContinues(c, s, o, verifier); }
    }
  }

  lemma VerifiedMoves(c: Config, s: State, o: Outcome, verifier: string)
    requires Procedure(c, s) && s.pc.VerifyTargets? && s.memory.transition.Some?
    ensures Procedure(c, RollbackStep(c, s, o, verifier))
  {}

  lemma RollbackContinues(c: Config, s: State, o: Outcome, verifier: string)
    requires Procedure(c, s) && s.memory.transition.Some? && (s.pc.SourceAuthority? || s.pc.DeletingTargets? || s.pc.RetireSource?)
    ensures Procedure(c, RollbackStep(c, s, o, verifier))
  {
    hide RetiresSource, RollbackValid, StableOf;
  }

  lemma RollbackClears(c: Config, s: State, o: Outcome, verifier: string)
    requires c.Sound() && Recoverable(c, s) && s.pc.ClearSource?
    ensures Stores(c, RollbackStep(c, s, o, verifier)) && Procedure(c, RollbackStep(c, s, o, verifier))
  {
    hide Inv, LocalRecords, StableOf, TransitionOf, MaintenanceKnown, OneGeneration, ManifestKnown;
    ClearKeepsStores(c, s, s.memory.(transition := None, pending := map[]), o);
  }

  lemma RollbackRecovers(c: Config, s: State, o: Outcome, verifier: string)
    requires c.Sound() && c.ValidModes() && Recoverable(c, s) && RollingBack(s.pc)
    requires s.pc.PublishSource? ==> FreshVerifier(c, Source, verifier)
    ensures Stores(c, RollbackStep(c, s, o, verifier)) && Procedure(c, RollbackStep(c, s, o, verifier))
  {
    hide Inv, LocalRecords, Stores, RollbackStep, FreshVerifier, Config.ValidModes;
    if s.pc.PrepareRollback? { RollbackPersists(c, s, o, verifier); }
    else if s.pc.PublishSource? { RollbackPublishes(c, s, o, verifier); }
    else if s.pc.FinishSource? { RollbackSaves(c, s, o, verifier); }
    else { RollbackMoves(c, s, o, verifier); }
  }

  // The remaining actions

  /** Where a recovery goes first. */
  function Entry(c: Config, s: State): Pc
    requires s.memory.transition.Some?
  {
    if s.canonical.codec == Target then if s.canonical.maintenance.None? then RetireTarget else TargetAuthority
    else VerifyTargets(if s.memory.transition.value.mapped then c.live else {}, false)
  }

  function Applied(c: Config, s: State, o: Outcome): State
    requires s.memory.transition.Some?
  {
    Persist(s, s.memory.(settings := c.SnapshotOf(s.canonical.codec)), o, Entry(c, s))
  }

  /** The decision of recovery in a state it accepts. */
  lemma StartIsAccepted(c: Config, s: State, o: Outcome)
    requires c.Sound() && c.ValidModes() && Recoverable(c, s) && s.memory.transition.Some?
    ensures StartRecovery(c, s, o) ==
      if o == Done then Applied(c, s, o).(loaded := s.canonical.maintenance) else Applied(c, s, o)
  {
    hide Stores, Coherent, ObjectsKnown, HoldsTarget, Uploaded, Config.ValidModes;
    KnownIsCoherent(c, s, s.memory);
  }

  lemma StartRecovers(c: Config, s: State, o: Outcome)
    requires c.Sound() && c.ValidModes() && Recoverable(c, s) && s.pc == Idle && s.memory.transition.Some?
    ensures Stores(c, StartRecovery(c, s, o)) && Procedure(c, StartRecovery(c, s, o))
    ensures o == Done ==> StartRecovery(c, s, o).pc == Entry(c, s) != Idle
  {
    hide Inv, StartRecovery, Stores, Procedure, AllPinned, Config.ValidModes, LocalRecords, SettingsKnown;
    var applied := Applied(c, s, o);
    StartIsAccepted(c, s, o);
    AppliedKeepsStores(c, s, o);
    if o != Done { IdleIsNoProcedure(c, applied); }
    else {
      SameStores(c, applied, StartRecovery(c, s, o));
      if s.canonical.codec == Source {
        NothingUnpinned(c, s);
        AppliedIsPinned(c, s, o);
        RollbackStarts(c, applied);
      } else {
        CompletionStarts(c, applied);
      }
    }
  }

  lemma AppliedKeepsStores(c: Config, s: State, o: Outcome)
    requires Stores(c, s) && s.memory.transition.Some?
    ensures Stores(c, Applied(c, s, o))
  {
    var memory := s.memory.(settings := c.SnapshotOf(s.canonical.codec));
    assert LocalSettled(c, s.canonical, s.objects, memory);
    PersistKeepsStores(c, s, memory, o, Entry(c, s));
  }

  lemma AppliedIsPinned(c: Config, s: State, o: Outcome)
    requires s.memory.transition.Some? && AllPinned(c, s, if s.memory.transition.value.mapped then c.live else {})
    ensures AllPinned(c, Applied(c, s, o), if s.memory.transition.value.mapped then c.live else {})
  {}

  lemma IdleIsNoProcedure(c: Config, s: State)
    requires s.pc == Idle
    ensures Procedure(c, s)
  {}

  lemma RollbackStarts(c: Config, s: State)
    requires s.memory.transition.Some? && s.canonical.codec == Source
    requires AllPinned(c, s, if s.memory.transition.value.mapped then c.live else {})
    ensures Procedure(c, s.(loaded := s.canonical.maintenance, pc := VerifyTargets(if s.memory.transition.value.mapped then c.live else {}, false)))
  {}

  lemma CompletionStarts(c: Config, s: State)
    requires s.memory.transition.Some? && s.canonical.codec == Target
    ensures Procedure(c, s.(loaded := s.canonical.maintenance, pc := if s.canonical.maintenance.None? then RetireTarget else TargetAuthority))
  {}

  /** Uploaded targets belong to live files, and only a mapped transition has any. */
  lemma NothingUnpinned(c: Config, s: State)
    requires c.Sound() && Inv(c, s) && Stores(c, s) && s.canonical.codec == Source && s.memory.transition.Some?
    ensures AllPinned(c, s, if s.memory.transition.value.mapped then c.live else {})
  {
    hide HoldsTarget, Uploaded, StableOf, TransitionOf;
  }

  lemma CrashRecovers(c: Config, s: State, a: Action)
    requires c.Sound() && Recoverable(c, s) && (a.Crash? || a.Fail?)
    ensures Stores(c, Exec(c, s, a).value) && Procedure(c, Exec(c, s, a).value)
  {
    hide Inv, LocalRecords, LocalSettled, StableOf, TransitionOf, MaintenanceKnown, OneGeneration;
  }

  lemma UploadRecovers(c: Config, s: State, l: Path, fp: string)
    requires c.Sound() && Recoverable(c, s) && Exec(c, s, Upload(l, fp)).Some?
    ensures Stores(c, Exec(c, s, Upload(l, fp)).value) && Procedure(c, Exec(c, s, Upload(l, fp)).value)
  {
    hide StableOf, TransitionOf, MaintenanceKnown, ObjectsKnown, HoldsTarget, Uploaded, LocalKnown;
  }

  /** Pinning the fingerprint of a present object. */
  lemma PinKeepsSettled(c: Config, canonical: Canonical, objects: map<Path, Object>, l: Local, raw: Path)
    requires LocalSettled(c, canonical, objects, l) && l.transition.Some? && raw in objects
    ensures var t := l.transition.value;
            LocalSettled(c, canonical, objects, l.(transition := Some(t.(proofs := t.proofs[raw := objects[raw].fingerprint]))))
  {}

  lemma VerifyKeepsStores(c: Config, s: State, l: Path, o: Outcome)
    requires c.Sound() && Stores(c, s) && Exec(c, s, Verify(l, o)).Some?
    ensures Stores(c, Exec(c, s, Verify(l, o)).value)
  {
    hide StableOf, TransitionOf, MaintenanceKnown, OneGeneration, LocalSettled;
    var t, raw := s.memory.transition.value, c.targetOf[l];
    if raw in s.objects {
      PinKeepsSettled(c, s.canonical, s.objects, s.memory, raw);
      var memory := s.memory.(transition := Some(t.(proofs := t.proofs[raw := s.objects[raw].fingerprint])));
      if s.pc.Copying? { PersistKeepsStores(c, s, memory, o, Copying(s.pc.files - {l})); }
      else { PersistKeepsStores(c, s, memory, o, VerifyTargets(s.pc.unchecked - {l}, true)); }
    }
    else { SameStores(c, s, Exec(c, s, Verify(l, o)).value); }
    SameStores(c, s, Failed(s));
  }

  lemma CopyVerified(c: Config, s: State, l: Path, o: Outcome)
    requires c.Sound() && Procedure(c, s) && s.pc.Copying? && Exec(c, s, Verify(l, o)).Some?
    ensures Procedure(c, Exec(c, s, Verify(l, o)).value)
  {
    hide StableOf, TransitionOf;
  }

  /** A file looked at is pinned or absent. */
  lemma PinnedOrAbsent(c: Config, s: State, n: State, unchecked: set<Path>, l: Path)
    requires c.Sound() && Inv(c, s) && s.memory.transition.Some? && AllPinned(c, s, unchecked) && l in c.live
    requires n.objects == s.objects && n.memory.transition.Some?
    requires s.memory.transition.value.proofs.Keys <= n.memory.transition.value.proofs.Keys
    requires c.targetOf[l] !in s.objects || c.targetOf[l] in n.memory.transition.value.proofs
    ensures AllPinned(c, n, unchecked - {l})
  {
    hide HoldsTarget, Uploaded, LocalKnown;
  }

  lemma RollbackVerified(c: Config, s: State, l: Path, o: Outcome)
    requires c.Sound() && Inv(c, s) && Procedure(c, s) && s.pc.VerifyTargets? && Exec(c, s, Verify(l, o)).Some?
    requires s.canonical.maintenance.None? ==> s.objects.Keys <= c.sources.Keys
    ensures Procedure(c, Exec(c, s, Verify(l, o)).value)
  {
    hide Inv, AllPinned, HoldsTarget, Exec;
    var n := Exec(c, s, Verify(l, o)).value;
    if n.pc != Idle {
      LookedAt(c, s, l, o);
      PinnedOrAbsent(c, s, n, s.pc.unchecked, l);
      if c.targetOf[l] in s.objects { PresentIsTarget(c, s, l); }
    }
  }

  /** What looking at a target changes when the procedure goes on. */
  lemma LookedAt(c: Config, s: State, l: Path, o: Outcome)
    requires s.pc.VerifyTargets? && Exec(c, s, Verify(l, o)).Some? && Exec(c, s, Verify(l, o)).value.pc != Idle
    ensures l in c.live && l in c.targetOf && s.memory.transition.Some? && (c.targetOf[l] in s.objects ==> HoldsTarget(c, s, l))
    ensures var n := Exec(c, s, Verify(l, o)).value;
      && n.pc == VerifyTargets(s.pc.unchecked - {l}, s.pc.present || c.targetOf[l] in s.objects)
      && n.canonical == s.canonical && n.loaded == s.loaded && n.objects == s.objects && n.memory.transition.Some?
      && s.memory.transition.value.proofs.Keys <= n.memory.transition.value.proofs.Keys
      && (c.targetOf[l] in s.objects ==> c.targetOf[l] in n.memory.transition.value.proofs)
  {}

  /** An object found at a target path is no source, so some maintenance must be open. */
  lemma PresentIsTarget(c: Config, s: State, l: Path)
    requires c.Sound() && l in c.live && l in c.targetOf && (HoldsTarget(c, s, l) || c.targetOf[l] !in c.sources)
    requires Inv(c, s) && c.targetOf[l] in s.objects && (s.canonical.maintenance.None? ==> s.objects.Keys <= c.sources.Keys)
    ensures s.canonical.maintenance.Some?
  {
    hide Uploaded, LocalKnown;
  }

  lemma VerifyRecovers(c: Config, s: State, l: Path, o: Outcome)
    requires c.Sound() && Recoverable(c, s) && Exec(c, s, Verify(l, o)).Some?
    ensures Stores(c, Exec(c, s, Verify(l, o)).value) && Procedure(c, Exec(c, s, Verify(l, o)).value)
  {
    hide StableOf, TransitionOf, MaintenanceKnown, Uploaded, LocalKnown, LocalSettled, ManifestKnown, ObjectsKnown, Procedure;
    VerifyKeepsStores(c, s, l, o);
    if s.pc.Copying? { CopyVerified(c, s, l, o); } else { RollbackVerified(c, s, l, o); }
  }

  lemma RequestRecovers(c: Config, s: State, p: Path)
    requires c.Sound() && Recoverable(c, s) && Exec(c, s, Request(p)).Some?
    ensures Stores(c, Exec(c, s, Request(p)).value) && Procedure(c, Exec(c, s, Request(p)).value)
  {
    hide Inv, LocalRecords, Stores, Procedure, HoldsAuthority, RollbackValid;
    SameStores(c, s, Exec(c, s, Request(p)).value);
    if s.pc.Deleting? { SourceRequested(c, s, p); } else { TargetRequested(c, s, p); }
  }

  lemma SourceRequested(c: Config, s: State, p: Path)
    requires Procedure(c, s) && s.pc.Deleting? && Exec(c, s, Request(p)).Some?
    ensures Procedure(c, Exec(c, s, Request(p)).value)
  {
    hide HoldsAuthority, StableOf;
  }

  lemma TargetRequested(c: Config, s: State, p: Path)
    requires Procedure(c, s) && s.pc.DeletingTargets? && Exec(c, s, Request(p)).Some?
    ensures Procedure(c, Exec(c, s, Request(p)).value)
  {
    hide RollbackValid, StableOf;
  }

  lemma SettleKeepsStores(c: Config, s: State, p: Path, o: Outcome)
    requires c.Sound() && Stores(c, s) && Exec(c, s, Settle(p, o)).Some?
    ensures Stores(c, Exec(c, s, Settle(p, o)).value)
  {
    hide StableOf, TransitionOf, MaintenanceKnown, OneGeneration, HoldsAuthority, RollbackValid;
    PersistKeepsStores(c, s, s.memory.(pending := s.memory.pending - {p}), o, Settled(s.pc, p));
  }

  lemma SourceSettled(c: Config, s: State, p: Path, o: Outcome)
    requires Procedure(c, s) && s.pc.Deleting? && Exec(c, s, Settle(p, o)).Some? && s.canonical.maintenance.Some?
    ensures Procedure(c, Exec(c, s, Settle(p, o)).value)
  {
    hide HoldsAuthority, StableOf;
  }

  lemma TargetSettled(c: Config, s: State, p: Path, o: Outcome)
    requires Procedure(c, s) && s.pc.DeletingTargets? && Exec(c, s, Settle(p, o)).Some?
    ensures Procedure(c, Exec(c, s, Settle(p, o)).value)
  {
    hide RollbackValid, StableOf;
  }

  lemma SettleRecovers(c: Config, s: State, p: Path, o: Outcome)
    requires c.Sound() && Recoverable(c, s) && Exec(c, s, Settle(p, o)).Some?
    ensures Stores(c, Exec(c, s, Settle(p, o)).value) && Procedure(c, Exec(c, s, Settle(p, o)).value)
  {
    SettleKeepsStores(c, s, p, o);
    if s.pc.Deleting? { SourceSettled(c, s, p, o); } else { TargetSettled(c, s, p, o); }
  }

  lemma LandKeepsStores(c: Config, s: State, p: Path)
    requires c.Sound() && Stores(c, s) && Exec(c, s, Land(p)).Some?
    ensures Stores(c, Exec(c, s, Land(p)).value)
  {
    hide StableOf, TransitionOf, MaintenanceKnown;
  }

  lemma LandKeepsProcedure(c: Config, s: State, p: Path)
    requires c.Sound() && Inv(c, s) && Procedure(c, s) && Exec(c, s, Land(p)).Some?
    ensures Procedure(c, Exec(c, s, Land(p)).value)
  {
    hide StableOf, TransitionOf, ObjectsKnown, HoldsTarget, Uploaded, LocalKnown;
  }

  lemma LandRecovers(c: Config, s: State, p: Path)
    requires c.Sound() && Recoverable(c, s) && Exec(c, s, Land(p)).Some?
    ensures Stores(c, Exec(c, s, Land(p)).value) && Procedure(c, Exec(c, s, Land(p)).value)
  {
    LandKeepsStores(c, s, p);
    LandKeepsProcedure(c, s, p);
  }

  lemma StepRecovers(c: Config, s: State, a: Action)
    requires c.Sound() && c.ValidModes() && Recoverable(c, s) && SingleDevice(a) && Exec(c, s, a).Some?
    ensures Recoverable(c, Exec(c, s, a).value)
  {
    hide Inv, LocalRecords, Stores, Procedure, SettingsKnown, Config.ValidModes, Step, StartRecovery, VerifyTarget, MayDelete, MaySettle,
      FreshVerifier;
    StepKeepsInv(c, s, a);
    StepKeepsLocal(c, s, a);
    StepKeepsSettings(c, s, a);
    match a
    case Recover(o) => StartRecovers(c, s, o);
    case Advance(o, verifier) => AdvanceRecovers(c, s, o, verifier);
    case Upload(l, fp) => UploadRecovers(c, s, l, fp);
    case Verify(l, o) => VerifyRecovers(c, s, l, o);
    case Request(p) => RequestRecovers(c, s, p);
    case Settle(p, o) => SettleRecovers(c, s, p, o);
    case Land(p) => LandRecovers(c, s, p);
    case _ => CrashRecovers(c, s, a);
  }

  lemma AdvanceRecovers(c: Config, s: State, o: Outcome, verifier: string)
    requires c.Sound() && c.ValidModes() && Recoverable(c, s) && s.pc != Idle && s.memory.transition.Some?
    requires s.pc.PublishTarget? ==> FreshVerifier(c, Target, verifier)
    requires s.pc.PublishSource? ==> FreshVerifier(c, Source, verifier)
    ensures Stores(c, Step(c, s, o, verifier)) && Procedure(c, Step(c, s, o, verifier))
  {
    hide Inv, Recoverable, Stores, Procedure, Config.ValidModes, FreshVerifier, ExecuteStep, CompleteStep, RollbackStep;
    if BeforeCommit(s.pc) { ExecuteRecovers(c, s, o); }
    else if RollingBack(s.pc) { RollbackRecovers(c, s, o, verifier); }
    else { CompleteRecovers(c, s, o, verifier); }
  }

  /** One device acts alone, with any crashes, failures and recoveries on the way. */
  ghost predicate Alone(actions: seq<Action>) { forall a :: a in actions ==> SingleDevice(a) }

  lemma {:induction false} RunRecovers(c: Config, s: State, actions: seq<Action>, last: State)
    requires c.Sound() && c.ValidModes() && Recoverable(c, s) && Run(c, s, actions, last) && Alone(actions)
    ensures Recoverable(c, last)
    decreases actions
  {
    hide Recoverable, Exec, Config.ValidModes;
    if actions != [] {
      StepRecovers(c, s, actions[0]);
      RunRecovers(c, Exec(c, s, actions[0]).value, actions[1..], last);
    }
  }

  lemma ReachedIsRecoverable(c: Config, first: State, actions: seq<Action>, s: State)
    requires c.Valid() && Initial(c, first) && Run(c, first, actions, s) && Alone(actions)
    ensures c.Sound() && Recoverable(c, s)
  {
    ValidIsSound(c);
    hide Recoverable, Config.Sound, Config.ValidModes, Config.ValidTree, Initial;
    InitialRecoverable(c, first);
    RunRecovers(c, first, actions, s);
  }

  /** At every crash point of a single-device run the coherence check accepts the manifest, the maintenance and the
      phase left behind, in memory and on disk, and recovery starts. */
  lemma EveryCrashPointIsCoherent(c: Config, first: State, actions: seq<Action>, s: State)
    requires c.Valid() && Initial(c, first) && Run(c, first, actions, s) && Alone(actions)
    ensures s.memory.transition.Some? ==>
      Coherent(c, s.memory.transition.value.phase, s.manifest, s.canonical.maintenance, s.canonical.codec)
    ensures s.disk.transition.Some? ==>
      Coherent(c, s.disk.transition.value.phase, s.manifest, s.canonical.maintenance, s.canonical.codec)
    ensures s.memory.transition.Some? ==> StartRecovery(c, s, Done).pc != Idle
  {
    assert c.ValidModes();
    hide Recoverable, Coherent, Config.ValidModes, Config.Sound, StartRecovery, Run, Initial;
    ReachedIsRecoverable(c, first, actions, s);
    if s.memory.transition.Some? { KnownIsCoherent(c, s, s.memory); StartIsAccepted(c, s, Done); }
    if s.disk.transition.Some? { KnownIsCoherent(c, s, s.disk); }
  }

  // An uninterrupted recovery.

  /** A step of a recovery that nothing interrupts: every write is done and reported, and the server answers. */
  predicate Uninterrupted(a: Action) {
    match a
    case Advance(o, _) => o == Done
    case Verify(_, o) => o == Done
    case Settle(_, o) => o == Done
    case Request(_) => true
    case Land(_) => true
    case _ => false
  }

  ghost predicate AllUninterrupted(actions: seq<Action>) { forall a :: a in actions ==> Uninterrupted(a) }

  ghost predicate Smooth(c: Config, s: State, actions: seq<Action>, last: State) {
    Run(c, s, actions, last) && AllUninterrupted(actions)
  }

  /** No transition, no maintenance, and exactly the objects of the canonical index's own codec, with its settings. */
  ghost predicate Clean(c: Config, s: State) {
    && s.memory == Local(None, map[], c.SnapshotOf(s.canonical.codec)) && s.disk == s.memory && s.canonical.maintenance.None?
    && StableOf(c, s.canonical.codec, s.manifest)
    && s.objects.Keys == (if s.canonical.codec == Source then c.sources.Keys else c.targetOf.Values)
    && forall p :: p in s.objects ==> s.objects[p].codec == s.canonical.codec
  }

  lemma ClearedIsClean(c: Config, s: State)
    requires c.Sound() && Recoverable(c, s) && s.memory.transition.None? && s.disk.transition.None?
    ensures Clean(c, s)
  {
    hide LocalRecords, StableOf, TransitionOf;
    forall p | p in c.targetOf.Values && s.canonical.codec == Target ensures p in s.objects {
      var l :| l in c.targetOf && c.targetOf[l] == p;
      assert HoldsTarget(c, s, l);
    }
  }

  /** A request, its landing and its settlement for each object not asked for yet. */
  function Deletions(todo: set<Path>, asked: set<Path>): nat { 3 * |todo - asked| + |asked| }

  lemma AllDeletions(todo: set<Path>)
    ensures Deletions(todo, {}) == 3 * |todo|
  {
    assert todo - {} == todo;
  }

  /** What is left to do: the straight steps, the files to look at, and two or three steps for each object to delete. */
  function Stage(c: Config, pc: Pc): nat {
    var targets, sources := 3 * |c.targetOf.Values|, 3 * |c.sources.Keys|;
    match pc
    case VerifyTargets(unchecked, present) => 7 + targets + |unchecked|
    case PrepareRollback => 6 + targets
    case SourceAuthority => 5 + targets
    case PublishSource => 4 + targets
    case DeletingTargets(todo, asked) => 3 + Deletions(todo, asked)
    case FinishSource => 2
    case RetireSource => 2
    case ClearSource => 1
    case TargetAuthority => 8 + sources
    case PublishTarget => 7 + sources
    case CommitCleanup => 6 + sources
    case CleanupPhase => 5 + sources
    case PrepareCleanup => 4 + sources
    case Deleting(todo, asked) => 3 + Deletions(todo, asked)
    case FinishTarget => 2
    case ClearTarget => 1
    case RetireTarget => 1
    case _ => 0
  }

  function Remaining(c: Config, s: State): nat { |s.inflight| + Stage(c, s.pc) }

  /** Between the start of a recovery and its end. */
  ghost predicate Recovering(c: Config, s: State)
    requires c.Sound()
  {
    Recoverable(c, s) && if s.pc == Idle then Clean(c, s) else !BeforeCommit(s.pc) && !s.pc.CommittedPhase? && !s.pc.PublishCommitted?
  }

  lemma RecoveryStarts(c: Config, s: State)
    requires c.Sound() && c.ValidModes() && Recoverable(c, s) && s.pc == Idle && s.memory.transition.Some?
    ensures Recovering(c, StartRecovery(c, s, Done))
  {
    hide Recoverable, StartRecovery, Config.ValidModes, Config.Sound;
    StepRecovers(c, s, Recover(Done));
    StartIsAccepted(c, s, Done);
  }

  /** A straight step of an uninterrupted recovery goes to the next one, or it empties the local data. */
  function Successor(c: Config, s: State): Pc
    requires s.memory.transition.Some?
  {
    match s.pc
    case VerifyTargets(_, _) => if s.canonical.maintenance.Some? then PrepareRollback else RetireSource
    case PrepareRollback => SourceAuthority
    case SourceAuthority => PublishSource
    case PublishSource => DeletingTargets(s.memory.transition.value.proofs.Keys, {})
    case DeletingTargets(_, _) => FinishSource
    case FinishSource => ClearSource
    case RetireSource => ClearSource
    case TargetAuthority => PublishTarget
    case PublishTarget => CommitCleanup
    case CommitCleanup => CleanupPhase
    case CleanupPhase => PrepareCleanup
    case PrepareCleanup => Deleting(c.sources.Keys, {})
    case Deleting(_, _) => FinishTarget
    case FinishTarget => ClearTarget
    case _ => Idle
  }

  /** No guard of the rollback stops an uninterrupted recovery. */
  lemma RollbackIsValid(c: Config, s: State)
    requires c.Sound() && c.ValidModes() && Recoverable(c, s) && RollingBack(s.pc)
    ensures s.canonical.maintenance.Some? ==> RollbackValid(c, s)
    ensures s.canonical.maintenance.None? ==> RetiresSource(c, s)
  {
    hide Coherent, StableOf, TransitionOf, LocalRecords, HoldsTarget, Uploaded, Config.ValidModes;
    KnownIsCoherent(c, s, s.memory);
    assert s.canonical.maintenance.None? ==> s.objects.Keys == c.sources.Keys;
  }

  lemma RollbackKnows(c: Config, s: State)
    requires c.Sound() && Recoverable(c, s) && RollingBack(s.pc)
    ensures Observed(c, s)
    ensures s.pc.VerifyTargets? && s.canonical.maintenance.None? ==> !s.pc.present && s.memory.pending == map[]
    ensures s.pc.FinishSource? ==> s.memory.pending == map[]
    ensures s.pc.DeletingTargets? ==> s.canonical.maintenance.Some? && s.memory.transition.Some?
  {
    hide Inv, StableOf, TransitionOf, LocalRecords, ManifestKnown, MaintenanceKnown;
  }

  lemma RollbackAdvances(c: Config, s: State, verifier: string)
    requires c.Sound() && c.ValidModes() && Recoverable(c, s) && RollingBack(s.pc) && !Waiting(s.pc)
    ensures RollbackStep(c, s, Done, verifier).pc == Successor(c, s)
    ensures s.pc.ClearSource? ==> RollbackStep(c, s, Done, verifier).memory.transition.None?
  {
    hide Recoverable, RollbackValid, RetiresSource, Config.ValidModes, Config.Sound, StableManifest, Synced;
    RollbackIsValid(c, s);
    RollbackKnows(c, s);
  }

  lemma CompletionAdvances(c: Config, s: State, verifier: string)
    requires c.Sound() && Recoverable(c, s) && AfterCommit(s.pc) && !Waiting(s.pc)
    requires !s.pc.CommittedPhase? && !s.pc.PublishCommitted?
    ensures CompleteStep(c, s, Done, verifier).pc == Successor(c, s)
    ensures s.pc.ClearTarget? || s.pc.RetireTarget? ==> CompleteStep(c, s, Done, verifier).memory.transition.None?
  {
    hide StableOf, TransitionOf, LocalRecords, ObjectsKnown, HoldsTarget, Uploaded, StableManifest;
  }

  lemma SuccessorDescends(c: Config, s: State)
    requires s.memory.transition.Some? && s.pc != Idle && !Waiting(s.pc) && !BeforeCommit(s.pc)
    requires !s.pc.CommittedPhase? && !s.pc.PublishCommitted?
    requires |s.memory.transition.value.proofs.Keys| <= |c.targetOf.Values|
    ensures Stage(c, Successor(c, s)) < Stage(c, s.pc)
  {
    hide Deletions;
    AllDeletions(c.sources.Keys);
    AllDeletions(s.memory.transition.value.proofs.Keys);
  }

  lemma AdvanceHappens(c: Config, s: State, verifier: string)
    requires Exec(c, s, Advance(Done, verifier)).Some?
    ensures s.pc != Idle && !Waiting(s.pc) && s.memory.transition.Some?
    ensures Exec(c, s, Advance(Done, verifier)).value == Step(c, s, Done, verifier)
  {
    hide Step, FreshVerifier;
  }

  lemma AdvanceDescends(c: Config, s: State, verifier: string)
    requires c.Sound() && c.ValidModes() && Recovering(c, s) && s.pc != Idle && !Waiting(s.pc) && s.memory.transition.Some?
    ensures Remaining(c, Step(c, s, Done, verifier)) < Remaining(c, s)
  {
    hide Recoverable, Step, Config.Sound, Config.ValidModes, Stage, Successor;
    AdvanceFollows(c, s, verifier);
    TodoFits(c, s);
    SuccessorDescends(c, s);
  }

  lemma AdvanceFollows(c: Config, s: State, verifier: string)
    requires c.Sound() && c.ValidModes() && Recovering(c, s) && s.pc != Idle && !Waiting(s.pc) && s.memory.transition.Some?
    ensures var n := Step(c, s, Done, verifier);
      n.pc == Successor(c, s) && n.inflight == s.inflight && (n.pc == Idle ==> n.memory.transition.None? && n.disk.transition.None?)
  {
    hide Recoverable, Config.Sound, Config.ValidModes, RollbackStep, CompleteStep, ExecuteStep, Successor;
    if RollingBack(s.pc) { RollbackAdvances(c, s, verifier); } else { CompletionAdvances(c, s, verifier); }
    StepKeepsInflight(c, s, verifier);
    if Successor(c, s) == Idle { EndsCleared(c, s, verifier); }
  }

  /** The only step to Idle is the one that empties the local data. */
  lemma EndsCleared(c: Config, s: State, verifier: string)
    requires s.memory.transition.Some? && s.pc != Idle && Successor(c, s) == Idle
    ensures RollingBack(s.pc) ==> var n := RollbackStep(c, s, Done, verifier);
      n.pc == Idle && n.memory.transition.None? ==> n.disk.transition.None?
    ensures AfterCommit(s.pc) ==> var n := CompleteStep(c, s, Done, verifier);
      n.pc == Idle && n.memory.transition.None? ==> n.disk.transition.None?
    ensures RollingBack(s.pc) ==> s.pc.ClearSource?
    ensures AfterCommit(s.pc) && !s.pc.CommittedPhase? && !s.pc.PublishCommitted? ==> s.pc.ClearTarget? || s.pc.RetireTarget?
  {
    hide StableManifest, TransitionManifest, RetiresTarget, RetiresSource, HoldsAuthority, RollbackValid;
  }

  lemma StepKeepsInflight(c: Config, s: State, verifier: string)
    requires s.memory.transition.Some?
    ensures RollbackStep(c, s, Done, verifier).inflight == s.inflight && CompleteStep(c, s, Done, verifier).inflight == s.inflight
  {
    hide StableManifest, TransitionManifest, RetiresTarget, RetiresSource, HoldsAuthority, RollbackValid;
  }

  lemma TodoFits(c: Config, s: State)
    requires c.Sound() && Recoverable(c, s) && s.memory.transition.Some?
    ensures |s.memory.transition.value.proofs.Keys| <= |c.targetOf.Values|
  {
    hide Inv, Stores, Procedure;
    SubsetSize(s.memory.transition.value.proofs.Keys, c.targetOf.Values);
  }

  /** Looking at a target during an uninterrupted rollback finds nothing unexpected. */
  lemma VerifySucceeds(c: Config, s: State, l: Path)
    requires c.Sound() && Recoverable(c, s) && s.canonical.codec == Source && s.memory.transition.Some? && c.mappable
    requires l in c.live && l in c.targetOf && c.targetOf[l] in s.objects
    ensures HoldsTarget(c, s, l)
    ensures var t, raw := s.memory.transition.value, c.targetOf[l]; raw in t.proofs ==> t.proofs[raw] == s.objects[raw].fingerprint
  {
    hide StableOf, TransitionOf, MaintenanceKnown, ManifestKnown, OneGeneration, LocalKnown, Uploaded;
  }

  lemma CheckedIsMappable(c: Config, s: State)
    requires c.Sound() && Recoverable(c, s) && s.pc.VerifyTargets? && s.pc.unchecked != {}
    ensures c.mappable
  {}

  lemma VerifyFollows(c: Config, s: State, l: Path)
    requires s.pc.VerifyTargets? && Exec(c, s, Verify(l, Done)).Some?
    requires var raw, t := c.targetOf[l], s.memory.transition.value;
             raw in s.objects ==> HoldsTarget(c, s, l) && (raw in t.proofs ==> t.proofs[raw] == s.objects[raw].fingerprint)
    ensures var n := Exec(c, s, Verify(l, Done)).value;
            n.inflight == s.inflight && n.pc.VerifyTargets? && n.pc.unchecked == s.pc.unchecked - {l} && l in s.pc.unchecked
  {}

  lemma VerifyDescends(c: Config, s: State, l: Path)
    requires c.Sound() && Recovering(c, s) && Exec(c, s, Verify(l, Done)).Some?
    ensures var n := Exec(c, s, Verify(l, Done)).value; Remaining(c, n) < Remaining(c, s) && n.pc != Idle
  {
    hide Recoverable, Exec, HoldsTarget, Config.Sound, Deletions;
    VerifyHappens(c, s, l);
    CheckedIsMappable(c, s);
    if c.targetOf[l] in s.objects { VerifySucceeds(c, s, l); }
    VerifyFollows(c, s, l);
    assert s.pc.unchecked == (s.pc.unchecked - {l}) + {l};
  }

  lemma VerifyHappens(c: Config, s: State, l: Path)
    requires c.Sound() && Recovering(c, s) && Exec(c, s, Verify(l, Done)).Some?
    ensures s.pc.VerifyTargets? && l in s.pc.unchecked && l in c.live && l in c.targetOf && s.memory.transition.Some?
    ensures s.canonical.codec == Source
  {
    hide Stores, LocalRecords, HoldsTarget, ObjectsKnown, LocalKnown, Uploaded;
  }

  lemma RequestDescends(c: Config, s: State, p: Path)
    requires Exec(c, s, Request(p)).Some? && s.pc.asked <= s.pc.todo
    ensures Remaining(c, Exec(c, s, Request(p)).value) < Remaining(c, s)
  {
    hide HoldsAuthority, RollbackValid;
    assert s.pc.todo - (s.pc.asked + {p}) == (s.pc.todo - s.pc.asked) - {p};
  }

  lemma SettleDescends(c: Config, s: State, p: Path)
    requires Exec(c, s, Settle(p, Done)).Some? && s.pc.asked <= s.pc.todo
    ensures Remaining(c, Exec(c, s, Settle(p, Done)).value) < Remaining(c, s)
  {
    hide HoldsAuthority, RollbackValid;
    assert (s.pc.todo - {p}) - (s.pc.asked - {p}) == s.pc.todo - s.pc.asked;
  }

  /** Every uninterrupted step of a recovery makes progress, and the recovery stops only when it is clean. */
  lemma RecoveryDescends(c: Config, s: State, a: Action)
    requires c.Sound() && c.ValidModes() && Recovering(c, s) && Uninterrupted(a) && Exec(c, s, a).Some?
    ensures var n := Exec(c, s, a).value; Recovering(c, n) && Remaining(c, n) < Remaining(c, s)
  {
    RecoveringIsRecoverable(c, s);
    hide Recoverable, Recovering, Config.Sound, Config.ValidModes, Exec, Remaining;
    StepRecovers(c, s, a);
    if a.Advance? || a.Verify? {
      ProcedureDescends(c, s, a);
    } else if a.Land? {
      LandDescends(c, s, a.path);
    } else {
      DeletionDescends(c, s, a);
      DeletionStays(c, s, a);
    }
  }

  lemma ProcedureDescends(c: Config, s: State, a: Action)
    requires c.Sound() && c.ValidModes() && Recovering(c, s) && Uninterrupted(a) && Exec(c, s, a).Some?
    requires (a.Advance? || a.Verify?) && Recoverable(c, Exec(c, s, a).value)
    ensures var n := Exec(c, s, a).value; Recovering(c, n) && Remaining(c, n) < Remaining(c, s)
  {
    RecoveringIsRecoverable(c, s);
    hide Recoverable, Recovering, Config.Sound, Config.ValidModes, Exec, Remaining;
    if a.Advance? {
      AdvanceHappens(c, s, a.verifier);
      AdvanceDescends(c, s, a.verifier);
      AdvanceStays(c, s, a.verifier);
    } else {
      VerifyDescends(c, s, a.logical);
      VerifyHappens(c, s, a.logical);
      VerifyStays(c, s, a);
    }
  }

  lemma RecoveringIsRecoverable(c: Config, s: State)
    requires c.Sound() && Recovering(c, s)
    ensures Recoverable(c, s)
  {}

  lemma DeletionDescends(c: Config, s: State, a: Action)
    requires c.Sound() && Recovering(c, s) && Exec(c, s, a).Some? && (a.Request? || (a.Settle? && a.outcome == Done))
    ensures Remaining(c, Exec(c, s, a).value) < Remaining(c, s)
  {
    hide Recoverable, Config.Sound, Exec, Remaining;
    DeletionKnown(c, s, a);
    if a.Request? { RequestDescends(c, s, a.path); } else { SettleDescends(c, s, a.path); }
  }

  lemma AdvanceStays(c: Config, s: State, verifier: string)
    requires c.Sound() && c.ValidModes() && Recovering(c, s) && s.pc != Idle && !Waiting(s.pc) && s.memory.transition.Some?
    requires Recoverable(c, Step(c, s, Done, verifier))
    ensures Recovering(c, Step(c, s, Done, verifier))
  {
    hide Recoverable, Step, Config.Sound, Config.ValidModes, Clean;
    AdvanceFollows(c, s, verifier);
    var n := Step(c, s, Done, verifier);
    if n.pc == Idle { ClearedIsClean(c, n); }
  }

  lemma VerifyStays(c: Config, s: State, a: Action)
    requires c.Sound() && a.Verify? && a.outcome == Done && Recovering(c, s) && Exec(c, s, a).Some? && s.pc.VerifyTargets?
    requires Recoverable(c, Exec(c, s, a).value) && Exec(c, s, a).value.pc != Idle
    ensures Recovering(c, Exec(c, s, a).value)
  {
    hide Recoverable, HoldsTarget, Config.Sound;
  }

  lemma DeletionStays(c: Config, s: State, a: Action)
    requires c.Sound() && (a.Request? || (a.Settle? && a.outcome == Done)) && Recovering(c, s) && Exec(c, s, a).Some?
    requires Recoverable(c, Exec(c, s, a).value)
    ensures Recovering(c, Exec(c, s, a).value)
  {
    hide Recoverable, HoldsAuthority, RollbackValid, Config.Sound;
  }

  lemma DeletionKnown(c: Config, s: State, a: Action)
    requires c.Sound() && Recovering(c, s) && (a.Request? || a.Settle?) && Exec(c, s, a).Some?
    ensures (s.pc.Deleting? || s.pc.DeletingTargets?) && s.pc.asked <= s.pc.todo
  {
    hide Inv, LocalRecords, Stores, HoldsAuthority, RollbackValid;
  }

  lemma LandDescends(c: Config, s: State, p: Path)
    requires c.Sound() && Recovering(c, s) && Exec(c, s, Land(p)).Some? && Recoverable(c, Exec(c, s, Land(p)).value)
    ensures var n := Exec(c, s, Land(p)).value; Recovering(c, n) && Remaining(c, n) < Remaining(c, s)
  {
    hide Recoverable, Config.Sound;
    var n := Exec(c, s, Land(p)).value;
    if s.pc == Idle { ClearedIsClean(c, n); }
  }

  /** While it is not over, an uninterrupted recovery can always take a step. */
  lemma RecoveryProgresses(c: Config, s: State) returns (a: Action)
    requires c.Sound() && c.ValidModes() && Recovering(c, s) && s.pc != Idle
    ensures Uninterrupted(a) && Exec(c, s, a).Some?
  {
    hide Recoverable, Config.Sound, Config.ValidModes, Exec;
    RunningKnown(c, s);
    if s.pc.VerifyTargets? && s.pc.unchecked != {} {
      var l :| l in s.pc.unchecked;
      CheckProgresses(c, s, l);
      a := Verify(l, Done);
    } else if (s.pc.Deleting? || s.pc.DeletingTargets?) && s.pc.todo != {} {
      a := DeletionProgresses(c, s);
    } else {
      var verifier := AdvanceProgresses(c, s);
      a := Advance(Done, verifier);
    }
  }

  lemma AdvanceProgresses(c: Config, s: State) returns (verifier: string)
    requires c.ValidModes() && s.pc != Idle && !Waiting(s.pc) && s.memory.transition.Some?
    ensures Exec(c, s, Advance(Done, verifier)).Some?
  {
    hide ManifestSchema.Base64Of, Step;
    var side := if s.pc.PublishTarget? then Target else Source;
    verifier := if c.ModeOf(side).enabled then c.ModeOf(side).verifier.value else "";
    assert FreshVerifier(c, side, verifier);
  }

  lemma RunningKnown(c: Config, s: State)
    requires c.Sound() && Recovering(c, s) && s.pc != Idle
    ensures s.memory.transition.Some? && !s.pc.Copying?
  {
    hide Inv, LocalRecords, Stores;
  }

  lemma CheckProgresses(c: Config, s: State, l: Path)
    requires c.Sound() && Recoverable(c, s) && s.pc.VerifyTargets? && l in s.pc.unchecked
    ensures Exec(c, s, Verify(l, Done)).Some?
  {
    hide Inv, LocalRecords, Stores, HoldsTarget;
  }

  /** An object to delete can be asked for; once asked for it either is gone or will be. */
  lemma DeletionProgresses(c: Config, s: State) returns (a: Action)
    requires c.Sound() && c.ValidModes() && Recovering(c, s) && (s.pc.Deleting? || s.pc.DeletingTargets?) && s.pc.todo != {}
    ensures Uninterrupted(a) && Exec(c, s, a).Some?
  {
    hide Recoverable, Config.Sound, Config.ValidModes, MayDelete, MaySettle, Step, VerifyTarget;
    var p :| p in s.pc.todo;
    if p !in s.pc.asked {
      if s.pc.Deleting? { SourceMayGo(c, s, p); } else { TargetMayGo(c, s, p); }
      a := Request(p);
    } else if p in s.objects {
      AskedIsInflight(c, s, p);
      a := Land(p);
    } else {
      if s.pc.Deleting? { SourceMaySettle(c, s, p); } else { TargetMaySettle(c, s, p); }
      a := Settle(p, Done);
    }
  }

  lemma SourceMayGo(c: Config, s: State, p: Path)
    requires c.Sound() && Recoverable(c, s) && s.pc.Deleting? && p in s.pc.todo - s.pc.asked
    ensures MayDelete(c, s, p)
  {
    hide LocalRecords, StableOf, TransitionOf, HoldsTarget, Uploaded, LocalKnown;
  }

  lemma TargetMayGo(c: Config, s: State, p: Path)
    requires c.Sound() && c.ValidModes() && Recoverable(c, s) && s.pc.DeletingTargets? && p in s.pc.todo - s.pc.asked
    ensures MayDelete(c, s, p)
  {
    hide LocalRecords, StableOf, TransitionOf, HoldsTarget, Uploaded, LocalKnown, RollbackValid, MaintenanceKnown, Config.ValidModes,
      Config.Sound, ObjectsKnown;
    RollbackIsValid(c, s);
    TargetIsNoSource(c, s, p);
  }

  lemma TargetIsNoSource(c: Config, s: State, p: Path)
    requires c.Sound() && Inv(c, s) && s.memory.transition.Some? && p in s.memory.transition.value.proofs
    ensures p !in c.sourceOf.Values
  {
    hide Inv;
    TargetIsOutside(c, s, p);
  }

  lemma AskedIsInflight(c: Config, s: State, p: Path)
    requires c.Sound() && Recoverable(c, s) && (s.pc.Deleting? || s.pc.DeletingTargets?)
    requires p in s.pc.todo && p in s.pc.asked && p in s.objects
    ensures p in s.inflight
  {
    hide LocalRecords, Stores, StableOf, TransitionOf, HoldsTarget, Uploaded, ObjectsKnown;
    if s.pc.DeletingTargets? { TargetIsOutside(c, s, p); }
  }

  lemma TargetIsOutside(c: Config, s: State, p: Path)
    requires c.Sound() && Inv(c, s) && s.memory.transition.Some? && p in s.memory.transition.value.proofs
    ensures p !in c.sources
  {
    hide ObjectsKnown, HoldsTarget, Uploaded;
    var m :| m in c.targetOf && c.targetOf[m] == p;
  }

  lemma SourceMaySettle(c: Config, s: State, p: Path)
    requires c.Sound() && Recoverable(c, s) && s.pc.Deleting? && p in s.pc.todo && p in s.pc.asked && p !in s.objects
    ensures MaySettle(c, s, p)
  {
    hide Inv, LocalRecords, Stores;
  }

  lemma TargetMaySettle(c: Config, s: State, p: Path)
    requires c.Sound() && c.ValidModes() && Recoverable(c, s) && s.pc.DeletingTargets?
    requires p in s.pc.todo && p in s.pc.asked && p !in s.objects
    ensures MaySettle(c, s, p)
  {
    hide Recoverable, RollbackValid, Config.ValidModes, Config.Sound, Observed;
    RollbackIsValid(c, s);
    RollbackKnows(c, s);
  }

  /** Some uninterrupted continuation of a recovery finishes it. */
  lemma {:induction false} RecoveryFinishes(c: Config, s: State)
    requires c.Sound() && c.ValidModes() && Recovering(c, s)
    ensures exists actions, last :: Smooth(c, s, actions, last) && Clean(c, last)
    decreases Remaining(c, s)
  {
    hide Recoverable, Config.Sound, Config.ValidModes, Exec, Remaining, Clean;
    if s.pc == Idle {
      assert Smooth(c, s, [], s);
    } else {
      var a := RecoveryProgresses(c, s);
      RecoveryDescends(c, s, a);
      var next := Exec(c, s, a).value;
      RecoveryFinishes(c, next);
      var actions, last :| Smooth(c, next, actions, last) && Clean(c, last);
      SmoothCons(c, s, a, actions, last);
    }
  }

  lemma SmoothCons(c: Config, s: State, a: Action, actions: seq<Action>, last: State)
    requires Uninterrupted(a) && Exec(c, s, a).Some? && Smooth(c, Exec(c, s, a).value, actions, last)
    ensures Smooth(c, s, [a] + actions, last)
  {
    hide Exec;
    assert ([a] + actions)[1..] == actions;
  }

  /** However it goes on, an uninterrupted recovery takes a bounded number of steps, and where it can take no other it
      is clean. */
  lemma {:induction false} RecoveryEnds(c: Config, s: State, actions: seq<Action>, last: State)
    requires c.Sound() && c.ValidModes() && Recovering(c, s) && Smooth(c, s, actions, last)
    ensures Recovering(c, last) && |actions| + Remaining(c, last) <= Remaining(c, s)
    ensures last.canonical.codec == s.canonical.codec
    decreases actions
  {
    hide Recoverable, Config.Sound, Config.ValidModes, Exec, Remaining, Clean;
    if actions != [] {
      var next := Exec(c, s, actions[0]).value;
      RecoveryDescends(c, s, actions[0]);
      if next.canonical.codec != s.canonical.codec { OnlyCommitChangesCodec(c, s, actions[0]); }
      RecoveryEnds(c, next, actions[1..], last);
    }
  }

  /** An uninterrupted recovery, entered anywhere in a single-device run, takes at most so many steps, keeps the codec
      that the commit decided, cannot stop before it is clean, and can be carried to the end. */
  lemma UninterruptedRecoveryConverges(c: Config, first: State, actions: seq<Action>, s: State, steps: seq<Action>, last: State)
    requires c.Valid() && Initial(c, first) && Run(c, first, actions, s) && Alone(actions)
    requires s.pc == Idle && s.memory.transition.Some? && Run(c, s, [Recover(Done)] + steps, last) && AllUninterrupted(steps)
    ensures |steps| <= 8 + |c.live| + 3 * (|c.targetOf.Values| + |c.sources.Keys|) + |s.inflight|
    ensures last.canonical.codec == s.canonical.codec
    ensures (forall a :: Uninterrupted(a) ==> Exec(c, last, a).None?) ==> Clean(c, last)
    ensures exists more, end :: Smooth(c, last, more, end) && Clean(c, end)
  {
    assert c.ValidModes();
    RecoverFirst(c, s, steps, last);
    hide Recoverable, Config.Sound, Config.ValidModes, Exec, Remaining, Clean, StartRecovery, Run, Initial;
    ReachedIsRecoverable(c, first, actions, s);
    RecoveryStarts(c, s);
    RecoveryEnds(c, StartRecovery(c, s, Done), steps, last);
    RecoveryFinishes(c, last);
    StartIsBounded(c, s);
    if last.pc != Idle { var a := RecoveryProgresses(c, last); }
  }

  lemma RecoverFirst(c: Config, s: State, steps: seq<Action>, last: State)
    requires s.pc == Idle && s.memory.transition.Some? && Run(c, s, [Recover(Done)] + steps, last)
    ensures Run(c, StartRecovery(c, s, Done), steps, last)
  {
    hide StartRecovery;
    assert ([Recover(Done)] + steps)[1..] == steps;
  }

  lemma StartIsBounded(c: Config, s: State)
    requires c.Sound() && c.ValidModes() && Recoverable(c, s) && s.memory.transition.Some?
    ensures Remaining(c, StartRecovery(c, s, Done)) <= 8 + |c.live| + 3 * (|c.targetOf.Values| + |c.sources.Keys|) + |s.inflight|
    ensures StartRecovery(c, s, Done).canonical == s.canonical
  {
    hide Recoverable, Inv, Stores, Config.Sound, Config.ValidModes, StartRecovery, Stage;
    StartIsAccepted(c, s, Done);
    StagesAreBounded(c, if s.memory.transition.value.mapped then c.live else {});
  }

  lemma StagesAreBounded(c: Config, unchecked: set<Path>)
    requires unchecked == c.live || unchecked == {}
    ensures Stage(c, RetireTarget) <= Stage(c, TargetAuthority) == 8 + 3 * |c.sources.Keys|
    ensures Stage(c, VerifyTargets(unchecked, false)) <= 7 + |c.live| + 3 * |c.targetOf.Values|
  {
    hide Deletions;
  }
}
