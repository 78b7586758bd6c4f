/** The guarded encryption transition as a state machine over its atomic steps: src/crypto/encryption-transition.ts
    (execute, completeTarget, rollbackSourceTargets), src/crypto/recovery.ts (recoverTransition), with the steps of
    src/crypto/maintenance.ts and src/crypto/workflow.ts that they call. One initiating device, one shared remote
    store and any number of foreign devices take turns; the initiator may crash between any two steps. */
module TransitionProtocol {
  import opened Basics
  import opened Paths
  import opened EncryptionTypes
  import ManifestSchema
  import TargetMapping

  /** Which of the two codecs wrote something; "readable with codec X" is equality of this tag. */
  datatype Side = Source | Target

  datatype Object = Object(codec: Side, logical: Path, fingerprint: string)

  datatype Maintenance = Maintenance(authority: Authority, cleanup: map<Path, string>)

  datatype Canonical = Canonical(codec: Side, revision: int, maintenance: Option<Maintenance>)

  /** The mutable part of the local transition: its phase, whether the target mapping is filled in,
      and the fingerprints of the verified targets. */
  datatype Transition = Transition(phase: Phase, mapped: bool, proofs: map<Path, string>)

  /** What the device keeps: the transition, the pending guarded-cleanup actions, and the encryption settings. */
  datatype Local = Local(transition: Option<Transition>, pending: map<Path, string>, settings: Snapshot)

  /** Where the running procedure stands; Idle also after a failure or a crash. */
  datatype Pc =
    | Idle
    // execute
    | Claiming | ClaimPhase | PublishPrepared | ApplyTarget | ResolveTargets | Copying(files: set<Path>)
    | CopiedPhase | PublishCopied | CommitIndex | CommittedPhase | PublishCommitted
    // completeTarget
    | TargetAuthority | PublishTarget | CommitCleanup | CleanupPhase | PrepareCleanup
    | Deleting(todo: set<Path>, asked: set<Path>) | FinishTarget | ClearTarget
    // rollback
    | VerifyTargets(unchecked: set<Path>, present: bool) | PrepareRollback | SourceAuthority | PublishSource
    | DeletingTargets(todo: set<Path>, asked: set<Path>) | FinishSource | ClearSource
    // retirement of a transition whose maintenance is already gone
    | RetireTarget | RetireSource

  datatype State = State(
    canonical: Canonical, manifest: Option<Manifest>, objects: map<Path, Object>,
    inflight: set<Path>,                 // DELETE requests the server may still carry out
    disk: Local, memory: Local, pc: Pc,
    loaded: Option<Maintenance>)         // the maintenance the initiator last loaded or committed

  /** How a write ends: done, refused without effect, or carried out although the caller saw an error. */
  datatype Outcome = Done | Rejected | Unreported

  /** Everything that stays fixed during one transition. */
  datatype Config = Config(
    claim: Claim, device: string, updatedAt: int, sourceMode: Mode, targetMode: Mode,
    verifiedBy: string -> Option<Side>,  // the codec that authenticates a verifier
    live: set<Path>,                     // the live logical paths of the canonical index
    sourceOf: map<Path, Path>,           // their physical paths under the source codec
    entries: seq<(Path, Path)>,          // their physical paths under the target codec, as computed ...
    targetOf: map<Path, Path>,           // ... and as recorded when the mapping is admissible
    mappable: bool,
    sourcePaths: seq<Path>,              // the physical tree captured when the transition began
    sources: map<Path, Object>,
    backupProof: Option<BackupProof>)    // of the archive made before
  {
    function Fingerprints(): map<Path, string> { map p | p in sources :: sources[p].fingerprint }
    function ModeOf(side: Side): Mode { if side == Source then sourceMode else targetMode }
    function SnapshotOf(side: Side): Snapshot { if side == Source then claim.source else claim.target }

    /** The physical path of a live file under a codec. */
    function PathUnder(side: Side, logical: Path): Path
      requires logical in sourceOf && logical in targetOf
    {
      if side == Target then targetOf[logical] else sourceOf[logical]
    }

    /** The files of the transition: `createTargetRawMapping` decides whether it can be mapped at all. */
    ghost predicate ValidTree() {
      && live == (set i | 0 <= i < |entries| :: entries[i].0)
      && targetOf == TargetMapping.Record(entries)
      && mappable == TargetMapping.Admissible(entries, sourcePaths)
      && sources.Keys == (set p | p in sourcePaths)
      && (forall p :: p in sources ==> sources[p].codec == Source && sources[p].fingerprint != "")
      && sourceOf.Keys == live
      && (forall l :: l in sourceOf ==> sourceOf[l] in sources && sources[sourceOf[l]].logical == l)
    }

    /** The modes belong to the kind of the transition and each codec authenticates its own verifier. */
    ghost predicate ValidModes() {
      && ModePair(claim.kind, sourceMode, targetMode)
      && ManifestSchema.ValidMode(sourceMode) && ManifestSchema.ValidMode(targetMode)
      && SnapshotMatches(claim.source, sourceMode) && SnapshotMatches(claim.target, targetMode)
      && (sourceMode.enabled ==> verifiedBy(sourceMode.verifier.value) == Some(Source))
      && (targetMode.enabled ==> verifiedBy(targetMode.verifier.value) == Some(Target))
      && claim.id != "" && device != "" && 0 <= updatedAt <= MAX_SAFE_INTEGER
    }

    ghost predicate Valid() { ValidTree() && ValidModes() }

    /** The part of ValidTree that the protocol relies on. */
    ghost predicate Sound() {
      && targetOf.Keys == live && sourceOf.Keys == live
      && (forall p :: p in sources ==> sources[p].codec == Source && sources[p].fingerprint != "")
      && (forall l :: l in live ==> sourceOf[l] in sources && sources[sourceOf[l]].logical == l)
      && (mappable ==>
            && (forall l :: l in live ==> targetOf[l] !in sources)
            && forall l, m :: l in live && m in live && targetOf[l] == targetOf[m] ==> l == m)
    }
  }

  // Authorities and manifests.

  function AuthorityAt(c: Config, phase: Phase, targetRevision: Option<int>): Authority {
    Authority(c.claim.id, c.claim.kind, phase, c.device, c.claim.sourceCanonicalRevision, targetRevision,
              c.sourceMode, c.targetMode)
  }

  /** The codec whose key a transitional manifest declares. */
  function DeclaringSide(c: Config): Side { if c.claim.kind == Disable then Source else Target }

  /** What `createEncryptionManifestPublisher` asks for. */
  function PublicationOf(c: Config, authority: Authority): ManifestSchema.Publication {
    var side := DeclaringSide(c);
    var mode := c.ModeOf(side);
    ManifestSchema.Publication(
      v => c.verifiedBy(v) == Some(side), "", if mode.salt.Some? then mode.salt.value else "",
      ExpectedState(c.claim.kind), if mode.revision.Some? then mode.revision.value else 1,
      c.device, c.updatedAt, Some(c.claim), Some(authority))
  }

  /** The published transition manifest. */
  function TransitionManifest(c: Config, authority: Authority): Option<Manifest> {
    ManifestSchema.CreateManifest(PublicationOf(c, authority))
  }

  /** `publishStableEncryptionSnapshot`: none for plaintext, else an enabled manifest with a fresh verifier. */
  function StableManifest(c: Config, side: Side, owner: string, verifier: string): Option<Manifest> {
    var mode := c.ModeOf(side);
    if !mode.enabled || mode.salt.None? then None
    else Some(Manifest(Enabled, if mode.revision.Some? then mode.revision.value else 1, mode.salt.value, verifier,
                       c.updatedAt, owner, None))
  }

  /** A verifier newly made by the codec of that side; plaintext needs none. */
  predicate FreshVerifier(c: Config, side: Side, verifier: string) {
    c.ModeOf(side).enabled ==>
      c.verifiedBy(verifier) == Some(side) && verifier != "" && ManifestSchema.Base64Of(verifier, 28, 4096)
  }

  // Recovery decisions.

  datatype Decision = FinishWithTarget | RollbackToSource | Blocked

  predicate Committed(phase: Phase) { phase == IndexCommitted || phase == Stable || phase == Cleanup }

  /** `decideEncryptionRecovery` */
  function Decide(phase: Phase, targetReadable: bool, sourceReadable: bool): Decision {
    if Committed(phase) || targetReadable then FinishWithTarget
    else if sourceReadable then RollbackToSource
    else Blocked
  }

  function DecisionOf(s: State, phase: Phase): Decision {
    var targetReadable := !Committed(phase) && s.canonical.codec == Target;
    var sourceReadable := !Committed(phase) && !targetReadable && s.canonical.codec == Source;
    Decide(phase, targetReadable, sourceReadable)
  }

  /** `assertLocalRecoveryCoherence` accepts. */
  predicate Coherent(c: Config, phase: Phase, manifest: Option<Manifest>, maintenance: Option<Maintenance>, side: Side) {
    && (if side == Source then phase == Prepared || phase == FilesCopied
        else maintenance.Some? || Committed(phase))
    && (maintenance.Some? ==> MaintenanceMatches(c, maintenance.value.authority, side))
    && (c.SnapshotOf(side).enabled ==> AuthorityAuthentic(c, manifest, maintenance, side))
    && ManifestMatches(c, phase, manifest, maintenance, side)
  }

  predicate MaintenanceMatches(c: Config, m: Authority, side: Side) {
    && m.id == c.claim.id && m.kind == c.claim.kind && m.initiatedBy == c.device
    && m.sourceRevision == c.claim.sourceCanonicalRevision
    && SnapshotMatches(c.claim.source, m.source) && SnapshotMatches(c.claim.target, m.target)
    && (m.phase == Prepared || m.phase == FilesCopied) == (side == Source)
  }

  predicate AuthorityAuthentic(c: Config, manifest: Option<Manifest>, maintenance: Option<Maintenance>, side: Side) {
    && (maintenance.Some? ==>
          var mode := if side == Source then maintenance.value.authority.source else maintenance.value.authority.target;
          mode.verifier.Some? && c.verifiedBy(mode.verifier.value) == Some(side))
    && (manifest.Some? && DescribesAuthority(manifest.value.state, side) ==>
          c.verifiedBy(manifest.value.verifier) == Some(side))
  }

  predicate DescribesAuthority(state: ManifestState, side: Side) {
    || state == Enabled
    || (side == Source && state == Disabling)
    || (side == Target && (state == Enabling || state == Rotating))
  }

  predicate ManifestMatches(c: Config, phase: Phase, manifest: Option<Manifest>, maintenance: Option<Maintenance>, side: Side) {
    if manifest.None? then !c.SnapshotOf(side).enabled
    else
      var m := manifest.value;
      if m.state == Enabled then
        && c.SnapshotOf(side).enabled
        && c.SnapshotOf(side).salt == Some(m.salt) && c.SnapshotOf(side).revision == Some(m.revision)
      else
        && maintenance.Some? && m.transition.Some?
        && var d, a := m.transition.value, maintenance.value.authority;
        && m.state == ExpectedState(c.claim.kind) && d.id == c.claim.id && d.initiatedBy == c.device
        && d.source == a.source && d.target == a.target
        && SnapshotMatches(c.claim.source, d.source) && SnapshotMatches(c.claim.target, d.target)
        && (d.phase == a.phase
            || (side == Source && phase == FilesCopied && d.phase == IndexCommitted
                && (a.phase == Prepared || a.phase == FilesCopied)))
  }

  // Observations of the remote store.

  /** `assertMaintenanceAuthority` against what the initiator loaded; the cleanup list is not compared. */
  predicate HoldsAuthority(s: State) {
    s.loaded.Some? && s.canonical.maintenance.Some? && s.canonical.maintenance.value.authority == s.loaded.value.authority
  }

  /** `assertTransitionSourceUnchanged` */
  ghost predicate SourceUnchanged(c: Config, s: State) {
    && (forall p :: p in c.sources ==> p in s.objects && s.objects[p].fingerprint == c.sources[p].fingerprint)
    && s.objects.Keys <= c.sources.Keys +
         (if s.memory.transition.Some? && s.memory.transition.value.mapped then c.targetOf.Values else {})
  }

  /** The target object decodes to its logical path and content under the target codec. */
  predicate HoldsTarget(c: Config, s: State, logical: Path)
    requires logical in c.targetOf
  {
    var raw := c.targetOf[logical];
    raw in s.objects && s.objects[raw].codec == Target && s.objects[raw].logical == logical
  }

  /** The `validate` of a rollback: still the same authority, and still coherent as source. */
  predicate RollbackValid(c: Config, s: State) {
    && HoldsAuthority(s) && s.memory.transition.Some?
    && Coherent(c, s.memory.transition.value.phase, s.manifest, s.canonical.maintenance, Source)
  }

  // Writes.

  function Failed(s: State): State { s.(pc := Idle) }

  /** Change local memory, then persist it; a refused save leaves memory ahead of the disk. */
  function Persist(s: State, memory: Local, o: Outcome, next: Pc): State {
    s.(memory := memory, disk := if o == Rejected then s.disk else memory, pc := if o == Done then next else Idle)
  }

  /** Save the emptied local state; any error puts the transition back into memory. */
  function PersistCleared(s: State, cleared: Local, o: Outcome): State {
    s.(memory := if o == Done then cleared else s.memory, disk := if o == Rejected then s.disk else cleared, pc := Idle)
  }

  /** Save the canonical index under its lock. */
  function Save(s: State, codec: Side, maintenance: Option<Maintenance>, o: Outcome, next: Pc): State {
    if o == Rejected || (s.loaded.Some? && s.loaded != s.canonical.maintenance) then Failed(s)
    else
      var saved := Canonical(codec, s.canonical.revision + 1, maintenance);
      s.(canonical := saved, loaded := if o == Done then maintenance else s.loaded, pc := if o == Done then next else Idle)
  }

  function Publish(s: State, manifest: Option<Manifest>, o: Outcome, next: Pc): State {
    s.(manifest := if o == Rejected then s.manifest else manifest, pc := if o == Done then next else Idle)
  }

  function SetPhase(s: State, phase: Phase): Local
    requires s.memory.transition.Some?
  {
    s.memory.(transition := Some(s.memory.transition.value.(phase := phase)))
  }

  // The next step of the running procedure, with the outcome of the write it makes.

  predicate BeforeCommit(pc: Pc) {
    pc.Claiming? || pc.ClaimPhase? || pc.PublishPrepared? || pc.ApplyTarget? || pc.ResolveTargets? || pc.Copying? || pc.CopiedPhase?
    || pc.PublishCopied? || pc.CommitIndex?
  }

  predicate RollingBack(pc: Pc) {
    pc.VerifyTargets? || pc.PrepareRollback? || pc.SourceAuthority? || pc.PublishSource? || pc.DeletingTargets?
    || pc.FinishSource? || pc.ClearSource? || pc.RetireSource?
  }

  predicate AfterCommit(pc: Pc) { pc != Idle && !BeforeCommit(pc) && !RollingBack(pc) }

  /** The procedure is inside one of its loops, whose iterations are actions of their own. */
  predicate Waiting(pc: Pc) {
    || (pc.Copying? && pc.files != {}) || (pc.VerifyTargets? && pc.unchecked != {})
    || ((pc.Deleting? || pc.DeletingTargets?) && pc.todo != {})
  }

  function LoadedAuthority(c: Config, s: State): Authority {
    if s.loaded.Some? then s.loaded.value.authority else AuthorityAt(c, Prepared, None)
  }

  /** `execute` up to the commit of the rewritten index. */
  ghost function ExecuteStep(c: Config, s: State, o: Outcome): State
    requires s.memory.transition.Some?
  {
    match s.pc
    case Claiming =>
      if s.canonical.revision != c.claim.sourceCanonicalRevision || s.canonical.maintenance.Some? || !SourceUnchanged(c, s)
      then Failed(s)
      else Save(s, s.canonical.codec, Some(Maintenance(AuthorityAt(c, Prepared, None), map[])), o, ClaimPhase)
    case ClaimPhase => Persist(s, SetPhase(s, Prepared), o, PublishPrepared)
    case PublishPrepared => PublishTransition(c, s, LoadedAuthority(c, s), o, ApplyTarget)
    case ApplyTarget => Persist(s, s.memory.(settings := c.claim.target), o, ResolveTargets)
    case ResolveTargets =>
      if !c.mappable then Failed(s)
      else Persist(s, s.memory.(transition := Some(s.memory.transition.value.(mapped := true))), o, Copying(c.live))
    case Copying(files) => if files == {} then s.(pc := CopiedPhase) else s
    case CopiedPhase =>
      if !SourceUnchanged(c, s) then Failed(s) else Persist(s, SetPhase(s, FilesCopied), o, PublishCopied)
    case PublishCopied => PublishTransition(c, s, CommitAuthority(c, s), o, CommitIndex)
    case CommitIndex =>
      Save(s, Target, Some(Maintenance(CommitAuthority(c, s), c.Fingerprints())), o, CommittedPhase)
    case _ => s
  }

  /** The rest of `execute`, `completeTarget`, and the retirement of a target finished by another device. */
  function CompleteStep(c: Config, s: State, o: Outcome, verifier: string): State
    requires s.memory.transition.Some?
  {
    match s.pc
    case CommittedPhase => Persist(s, SetPhase(s, IndexCommitted), o, PublishCommitted)
    case PublishCommitted => PublishTransition(c, s, LoadedAuthority(c, s), o, TargetAuthority)
    case TargetAuthority => if HoldsAuthority(s) then s.(pc := PublishTarget) else Failed(s)
    case PublishTarget => Publish(s, StableManifest(c, Target, c.device, verifier), o, CommitCleanup)
    case CommitCleanup =>
      Save(s, s.canonical.codec, Some(Maintenance(LoadedAuthority(c, s).(phase := Cleanup), c.Fingerprints())), o, CleanupPhase)
    case CleanupPhase => Persist(s, SetPhase(s, Cleanup), o, PrepareCleanup)
    case PrepareCleanup =>
      Persist(s, s.memory.(pending := s.memory.pending + c.Fingerprints()), o, Deleting(c.sources.Keys, {}))
    case Deleting(todo, asked) => if todo == {} then s.(pc := FinishTarget) else s
    case FinishTarget =>
      if s.memory.pending != map[] then Failed(s) else Save(s, s.canonical.codec, None, o, ClearTarget)
    case ClearTarget => PersistCleared(s, s.memory.(transition := None), o)
    case RetireTarget => if RetiresTarget(c, s) then PersistCleared(s, s.memory.(transition := None, pending := map[]), o) else Failed(s)
    case _ => s
  }

  /** The rollback branch of `recoverTransition` with `rollbackSourceTargets`. */
  function RollbackStep(c: Config, s: State, o: Outcome, verifier: string): State
    requires s.memory.transition.Some?
  {
    var t := s.memory.transition.value;
    match s.pc
    case VerifyTargets(unchecked, present) =>
      if unchecked != {} then s
      else if s.canonical.maintenance.Some? then s.(pc := PrepareRollback)
      else if present || s.memory.pending != map[] then Failed(s)
      else s.(pc := RetireSource)
    case PrepareRollback =>
      if !RollbackValid(c, s) then Failed(s)
      else Persist(s, s.memory.(pending := s.memory.pending + t.proofs), o, SourceAuthority)
    case SourceAuthority => if RollbackValid(c, s) then s.(pc := PublishSource) else Failed(s)
    case PublishSource => Publish(s, StableManifest(c, Source, c.device, verifier), o, DeletingTargets(t.proofs.Keys, {}))
    case DeletingTargets(todo, asked) => if todo == {} then s.(pc := FinishSource) else s
    case FinishSource =>
      if !RollbackValid(c, s) || s.memory.pending != map[] then Failed(s)
      else Save(s, s.canonical.codec, None, o, ClearSource)
    case ClearSource => PersistCleared(s, s.memory.(transition := None), o)
    case RetireSource => if RetiresSource(c, s) then s.(pc := ClearSource) else Failed(s)
    case _ => s
  }

  ghost function Step(c: Config, s: State, o: Outcome, verifier: string): State
    requires s.memory.transition.Some?
  {
    if BeforeCommit(s.pc) then ExecuteStep(c, s, o)
    else if RollingBack(s.pc) then RollbackStep(c, s, o, verifier)
    else CompleteStep(c, s, o, verifier)
  }

  /** The maintenance staged before the index commit. */
  function CommitAuthority(c: Config, s: State): Authority {
    AuthorityAt(c, IndexCommitted, Some(s.canonical.revision + 1))
  }

  function PublishTransition(c: Config, s: State, authority: Authority, o: Outcome, next: Pc): State {
    var manifest := TransitionManifest(c, authority);
    if manifest.None? then Failed(s) else Publish(s, manifest, o, next)
  }

  /** `retireCompletedTargetCleanup`: foreign completion left receipts of sources that are gone. */
  predicate RetiresTarget(c: Config, s: State)
    requires s.memory.transition.Some?
  {
    s.memory.pending == map[] ||
    (&& s.canonical.maintenance.None? && s.canonical.revision > c.claim.sourceCanonicalRevision
     && (forall p :: p in s.memory.pending ==>
           p in c.sources && s.memory.pending[p] == c.sources[p].fingerprint && p !in s.objects)
     && Coherent(c, s.memory.transition.value.phase, s.manifest, None, Target))
  }

  /** `assertCompletedSourceRollback`: exactly the captured tree is left. */
  predicate RetiresSource(c: Config, s: State)
    requires s.memory.transition.Some?
  {
    && s.canonical.maintenance.None? && s.canonical.revision >= c.claim.sourceCanonicalRevision
    && s.objects.Keys == c.sources.Keys
    && (forall p :: p in s.objects ==> s.objects[p].fingerprint == c.sources[p].fingerprint)
    && Coherent(c, s.memory.transition.value.phase, s.manifest, None, Source)
  }

  /** `recoverTransition` up to its direction: read manifest and canonical index, decide, apply and persist the
      settings of that side, check coherence. */
  ghost function StartRecovery(c: Config, s: State, o: Outcome): State
    requires s.memory.transition.Some?
  {
    var phase := s.memory.transition.value.phase;
    match DecisionOf(s, phase)
    case Blocked => Failed(s)
    case FinishWithTarget => Apply(c, s, Target, o, if s.canonical.maintenance.None? then RetireTarget else TargetAuthority)
    case RollbackToSource => Apply(c, s, Source, o, VerifyTargets(if s.memory.transition.value.mapped then c.live else {}, false))
  }

  /** `applyEncryptionSnapshot`, then the load of the canonical index under the codec of that side and the coherence
      check. */
  function Apply(c: Config, s: State, side: Side, o: Outcome, next: Pc): State
    requires s.memory.transition.Some?
  {
    var applied := Persist(s, s.memory.(settings := c.SnapshotOf(side)), o, next);
    if o != Done || s.canonical.codec != side
       || !Coherent(c, s.memory.transition.value.phase, s.manifest, s.canonical.maintenance, side) then Failed(applied)
    else applied.(loaded := s.canonical.maintenance)
  }

  // Guarded deletion.

  /** The check made inside every DELETE attempt: the path and fingerprint are on the committed cleanup list (or in
      the rollback proof), the path is no live file's object, and the object is still the expected one. */
  ghost predicate MayDelete(c: Config, s: State, p: Path) {
    s.memory.transition.Some? &&
    match s.pc
    case Deleting(todo, asked) =>
      && p in todo - asked && HoldsAuthority(s) && p !in c.targetOf.Values
      && p in s.canonical.maintenance.value.cleanup && p in c.sources
      && s.canonical.maintenance.value.cleanup[p] == c.sources[p].fingerprint
      && (p in s.objects ==> s.objects[p].fingerprint == c.sources[p].fingerprint)
    case DeletingTargets(todo, asked) =>
      && p in todo - asked && RollbackValid(c, s) && p in s.memory.transition.value.proofs
      && p !in c.sourceOf.Values
      && (p in s.objects ==> s.objects[p].fingerprint == s.memory.transition.value.proofs[p])
    case _ => false
  }

  /** The check made before an action is completed: absence under the current authority. */
  predicate MaySettle(c: Config, s: State, p: Path) {
    s.memory.transition.Some? && p !in s.objects &&
    match s.pc
    case Deleting(todo, asked) => p in todo && p in asked && HoldsAuthority(s)
    case DeletingTargets(todo, asked) => p in todo && p in asked && RollbackValid(c, s)
    case _ => false
  }

  function Asked(pc: Pc, p: Path): Pc
    requires pc.Deleting? || pc.DeletingTargets?
  {
    if pc.Deleting? then Deleting(pc.todo, pc.asked + {p}) else DeletingTargets(pc.todo, pc.asked + {p})
  }

  function Settled(pc: Pc, p: Path): Pc
    requires pc.Deleting? || pc.DeletingTargets?
  {
    if pc.Deleting? then Deleting(pc.todo - {p}, pc.asked - {p}) else DeletingTargets(pc.todo - {p}, pc.asked - {p})
  }

  // Actions and runs.

  datatype Action =
    | Crash                                             // back to what the disk holds
    | Fail                                              // the running procedure stops on some error
    | Recover(outcome: Outcome)                         // recovery is entered; applying the settings ends like this
    | Advance(outcome: Outcome, verifier: string)          // the next step of the running procedure
    | Upload(logical: Path, fingerprint: string)        // exclusive upload of one target
    | Verify(logical: Path, outcome: Outcome)           // read a target back and persist its proof
    | Request(path: Path)                               // a DELETE passes its guard and is sent
    | Settle(path: Path, outcome: Outcome)              // absence is observed and the action completed
    | Land(path: Path)                                  // the server carries out a DELETE, however late
    | ForeignPublish(owner: string, verifier: string)         // a foreign device publishes the target manifest
    | ForeignAdvance                                    // ... moves the maintenance to its cleanup phase, whatever
                                                        //     manifest has been published by then
    | ForeignRequest(path: Path)                        // ... sends a DELETE of a source, guarded by that phase
    | ForeignFinish                                     // ... clears the maintenance after observing every absence

  /** Verification during a rollback also accepts absence and insists on the pinned fingerprint. */
  ghost function VerifyTarget(c: Config, s: State, logical: Path, o: Outcome): Option<State> {
    if s.memory.transition.None? || logical !in c.live || logical !in c.targetOf then None
    else
      var t, raw := s.memory.transition.value, c.targetOf[logical];
      match s.pc
      case Copying(files) =>
        if logical in files && HoldsTarget(c, s, logical) then Some(Pinned(s, t, raw, o, Copying(files - {logical}))) else None
      case VerifyTargets(unchecked, present) =>
        if logical !in unchecked then None
        else if raw !in s.objects then Some(s.(pc := VerifyTargets(unchecked - {logical}, present)))
        else if !HoldsTarget(c, s, logical) || (raw in t.proofs && t.proofs[raw] != s.objects[raw].fingerprint)
        then Some(Failed(s))
        else Some(Pinned(s, t, raw, o, VerifyTargets(unchecked - {logical}, true)))
      case _ => None
  }

  function Pinned(s: State, t: Transition, raw: Path, o: Outcome, next: Pc): State
    requires raw in s.objects
  {
    Persist(s, s.memory.(transition := Some(t.(proofs := t.proofs[raw := s.objects[raw].fingerprint]))), o, next)
  }

  /** The state after an action, or None when the action cannot happen. */
  ghost function Exec(c: Config, s: State, a: Action): Option<State> {
    match a
    case Crash => Some(s.(memory := s.disk, pc := Idle))
    case Fail => Some(Failed(s))
    case Recover(o) => if s.pc == Idle && s.memory.transition.Some? then Some(StartRecovery(c, s, o)) else None
    case Advance(o, verifier) =>
      if s.pc == Idle || s.memory.transition.None? || Waiting(s.pc)
         || (s.pc == PublishTarget && !FreshVerifier(c, Target, verifier))
         || (s.pc == PublishSource && !FreshVerifier(c, Source, verifier)) then None
      else Some(Step(c, s, o, verifier))
    case Upload(logical, fingerprint) =>
      if s.pc.Copying? && logical in s.pc.files && logical in c.targetOf && fingerprint != "" then
        var raw := c.targetOf[logical];
        Some(if raw in s.objects then s else s.(objects := s.objects[raw := Object(Target, logical, fingerprint)]))
      else None
    case Verify(logical, o) => VerifyTarget(c, s, logical, o)
    case Request(p) =>
      if MayDelete(c, s, p) then Some(s.(inflight := s.inflight + {p}, pc := Asked(s.pc, p))) else None
    case Settle(p, o) =>
      if MaySettle(c, s, p) then Some(Persist(s, s.memory.(pending := s.memory.pending - {p}), o, Settled(s.pc, p))) else None
    case Land(p) =>
      if p in s.inflight then Some(s.(objects := s.objects - {p}, inflight := s.inflight - {p})) else None
    case ForeignPublish(owner, verifier) =>
      if s.canonical.codec == Target && owner != "" && FreshVerifier(c, Target, verifier)
      then Some(s.(manifest := StableManifest(c, Target, owner, verifier))) else None
    case ForeignAdvance =>
      if s.canonical.codec == Target && s.canonical.maintenance.Some?
      then var m := s.canonical.maintenance.value;
           Some(s.(canonical := Canonical(Target, s.canonical.revision + 1, Some(m.(authority := m.authority.(phase := Cleanup))))))
      else None
    case ForeignRequest(p) =>
      if s.canonical.codec == Target && s.canonical.maintenance.Some? && s.canonical.maintenance.value.authority.phase == Cleanup
         && p in s.canonical.maintenance.value.cleanup && p in c.sources
      then Some(s.(inflight := s.inflight + {p})) else None
    case ForeignFinish =>
      if s.canonical.codec == Target && s.canonical.maintenance.Some?
         && s.canonical.maintenance.value.authority.phase == Cleanup
         && forall p :: p in s.canonical.maintenance.value.cleanup ==> p !in s.objects
      then Some(s.(canonical := Canonical(Target, s.canonical.revision + 1, None))) else None
  }

  /** The transition has been persisted and nothing else has happened yet. */
  ghost predicate Initial(c: Config, s: State) {
    && s.canonical == Canonical(Source, c.claim.sourceCanonicalRevision, None)
    && (exists owner, verifier :: owner != "" && FreshVerifier(c, Source, verifier)
          && s.manifest == StableManifest(c, Source, owner, verifier))
    && s.objects == c.sources && s.inflight == {}
    && s.memory == Local(Some(Transition(Prepared, false, map[])), map[], c.claim.source) && s.disk == s.memory
    && s.pc == Claiming && s.loaded == None
  }

  /** The states a sequence of actions passes through, as far as it is possible. */
  ghost predicate Run(c: Config, s: State, actions: seq<Action>, last: State)
    decreases actions
  {
    if actions == [] then last == s
    else
      var next := Exec(c, s, actions[0]);
      next.Some? && Run(c, next.value, actions[1..], last)
  }
}
