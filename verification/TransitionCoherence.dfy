/** What the recovery of a transition refuses, in the order in which src/crypto/encryption-transition.ts rejects it
    (`assertLocalRecoveryCoherence`), and that a refused device changes nothing outside itself. */
module TransitionCoherence {
  import opened Basics
  import opened Paths
  import opened EncryptionTypes
  import opened TransitionProtocol

  /** The local record does not describe the same mode. */
  predicate OtherMode(snapshot: Snapshot, mode: Mode) {
    || snapshot.enabled != mode.enabled || snapshot.salt != mode.salt
    || snapshot.revision != mode.revision || snapshot.hardened != mode.enabled
  }

  predicate Early(phase: Phase) { phase.Prepared? || phase.FilesCopied? }

  /** A source-side recovery of a committed transition, or a target-side one that nobody has committed. */
  predicate WrongPhase(phase: Phase, maintenance: Option<Maintenance>, side: Side) {
    if side.Source? then !Early(phase) else maintenance.None? && Early(phase)
  }

  /** The maintenance of another transition or device, of other modes, or on the wrong side of the commit. */
  predicate OtherMaintenance(c: Config, a: Authority, side: Side) {
    || a.id != c.claim.id || a.kind != c.claim.kind || a.initiatedBy != c.device
    || a.sourceRevision != c.claim.sourceCanonicalRevision
    || OtherMode(c.claim.source, a.source) || OtherMode(c.claim.target, a.target)
    || (if side.Source? then !Early(a.phase) else Early(a.phase))
  }

  function SideMode(a: Authority, side: Side): Mode { match side case Source => a.source case Target => a.target }
  function SideSnapshot(claim: Claim, side: Side): Snapshot { match side case Source => claim.source case Target => claim.target }

  /** A verifier that the codec of the side does not authenticate: the maintenance names it for that side, or the
      manifest carries the key of that side. */
  predicate ForeignKey(c: Config, manifest: Option<Manifest>, maintenance: Option<Maintenance>, side: Side) {
    || (maintenance.Some? &&
        match SideMode(maintenance.value.authority, side).verifier
        case None => true
        case Some(v) => c.verifiedBy(v) != Some(side))
    || (manifest.Some? && c.verifiedBy(manifest.value.verifier) != Some(side) &&
        match manifest.value.state
        case Enabled => true
        case Disabling => side.Source?
        case _ => side.Target?)
  }

  /** The publication of the commit's manifest comes before the commit. */
  predicate PublishedAhead(phase: Phase, described: Phase, a: Authority, side: Side) {
    side.Source? && phase.FilesCopied? && described.IndexCommitted? && Early(a.phase)
  }

  /** The manifest of another transition or device, of other modes, or of another phase. */
  predicate OtherTransition(c: Config, phase: Phase, m: Manifest, d: Descriptor, a: Authority, side: Side) {
    || (match c.claim.kind
        case Enable => !m.state.Enabling?
        case Rotate => !m.state.Rotating?
        case Disable => !m.state.Disabling?)
    || d.id != c.claim.id || d.initiatedBy != c.device
    || d.source != a.source || d.target != a.target
    || OtherMode(c.claim.source, d.source) || OtherMode(c.claim.target, d.target)
    || (d.phase != a.phase && !PublishedAhead(phase, d.phase, a, side))
  }

  /** No manifest for an enabled side, a stable one of another key or revision, a transitional one without its
      maintenance or of something else. */
  predicate OtherManifest(c: Config, phase: Phase, manifest: Option<Manifest>, maintenance: Option<Maintenance>, side: Side) {
    var snapshot := SideSnapshot(c.claim, side);
    match manifest
    case None => snapshot.enabled
    case Some(m) =>
      if m.state.Enabled?
      then !snapshot.enabled || Some(m.salt) != snapshot.salt || Some(m.revision) != snapshot.revision
      else maintenance.None? || m.transition.None?
           || OtherTransition(c, phase, m, m.transition.value, maintenance.value.authority, side)
  }

  /** The stored records do not belong to the local transition at this phase, seen from this side. */
  predicate Refused(c: Config, phase: Phase, manifest: Option<Manifest>, maintenance: Option<Maintenance>, side: Side) {
    || WrongPhase(phase, maintenance, side)
    || (maintenance.Some? && OtherMaintenance(c, maintenance.value.authority, side))
    || (SideSnapshot(c.claim, side).enabled && ForeignKey(c, manifest, maintenance, side))
    || OtherManifest(c, phase, manifest, maintenance, side)
  }

  lemma RefusedIff(c: Config, phase: Phase, manifest: Option<Manifest>, maintenance: Option<Maintenance>, side: Side)
    ensures Coherent(c, phase, manifest, maintenance, side) <==> !Refused(c, phase, manifest, maintenance, side)
  {}

  /** The side that recovery takes: the target once the local phase or the index says so. */
  function RecoverySide(s: State): Side
    requires s.memory.transition.Some?
  {
    if Early(s.memory.transition.value.phase) then s.canonical.codec else Target
  }

  /** The device cannot recover from what it finds. */
  predicate Stuck(c: Config, s: State) {
    s.memory.transition.Some? &&
    var side := RecoverySide(s);
    s.canonical.codec != side || Refused(c, s.memory.transition.value.phase, s.manifest, s.canonical.maintenance, side)
  }

  /** Recovery goes on exactly when its write succeeds and the stored records belong to the transition. */
  lemma RecoveryRefusesIff(c: Config, s: State, o: Outcome)
    requires s.memory.transition.Some?
    ensures StartRecovery(c, s, o).pc == Idle <==> o != Done || Stuck(c, s)
    ensures StartRecovery(c, s, o).pc != Idle ==>
      (var n := StartRecovery(c, s, o);
       && n.loaded == s.canonical.maintenance && n.memory.settings == SideSnapshot(c.claim, s.canonical.codec)
       && n.pc == if s.canonical.codec == Source then VerifyTargets(if s.memory.transition.value.mapped then c.live else {}, false)
                  else if s.canonical.maintenance.None? then RetireTarget else TargetAuthority)
  {
    RefusedIff(c, s.memory.transition.value.phase, s.manifest, s.canonical.maintenance, RecoverySide(s));
    hide Coherent, Refused;
  }

  // A rollback under way.

  /** The maintenance is gone or is no longer the one that was loaded. */
  predicate AuthorityMoved(s: State) {
    match (s.loaded, s.canonical.maintenance)
    case (Some(mine), Some(theirs)) => mine.authority != theirs.authority
    case _ => true
  }

  predicate RollbackRefused(c: Config, s: State)
    requires s.memory.transition.Some?
  {
    AuthorityMoved(s) || Refused(c, s.memory.transition.value.phase, s.manifest, s.canonical.maintenance, Source)
  }

  lemma RollbackRefusedIff(c: Config, s: State)
    requires s.memory.transition.Some?
    ensures RollbackValid(c, s) <==> !RollbackRefused(c, s)
  {
    RefusedIff(c, s.memory.transition.value.phase, s.manifest, s.canonical.maintenance, Source);
    hide Coherent, Refused;
  }

  /** Each guarded step of a rollback validates again, and so does each DELETE of one and each completion. */
  lemma RollbackRefusesIff(c: Config, s: State, o: Outcome, verifier: string)
    requires s.memory.transition.Some?
    ensures s.pc.PrepareRollback? || s.pc.SourceAuthority? ==>
      (Step(c, s, Done, verifier).pc == Idle <==> RollbackRefused(c, s))
    ensures s.pc.FinishSource? ==>
      (Step(c, s, Done, verifier).pc == Idle <==>
        RollbackRefused(c, s) || s.memory.pending != map[] || s.loaded != s.canonical.maintenance)
    ensures (s.pc.PrepareRollback? || s.pc.SourceAuthority? || s.pc.FinishSource?) && RollbackRefused(c, s) ==>
      Step(c, s, o, verifier) == s.(pc := Idle)
  {
    RollbackRefusedIff(c, s);
    hide Coherent, Refused, RollbackValid, RollbackRefused;
  }

  lemma RollbackDeletesIff(c: Config, s: State, p: Path)
    requires s.memory.transition.Some? && s.pc.DeletingTargets? && p in s.pc.todo
    ensures Exec(c, s, Settle(p, Done)).Some? <==> p in s.pc.asked && p !in s.objects && !RollbackRefused(c, s)
    ensures Exec(c, s, Request(p)).Some? <==>
      var proofs := s.memory.transition.value.proofs;
      && p !in s.pc.asked && !RollbackRefused(c, s) && p in proofs && (forall l :: l in c.sourceOf ==> c.sourceOf[l] != p)
      && (p in s.objects ==> s.objects[p].fingerprint == proofs[p])
  {
    RollbackRefusedIff(c, s);
    hide Coherent, Refused, RollbackValid, RollbackRefused;
  }

  /** After the commit the same holds of the committed list. */
  lemma CleanupDeletesIff(c: Config, s: State, p: Path)
    requires s.memory.transition.Some? && s.pc.Deleting? && p in s.pc.todo
    ensures Exec(c, s, Settle(p, Done)).Some? <==> p in s.pc.asked && p !in s.objects && !AuthorityMoved(s)
    ensures Exec(c, s, Request(p)).Some? <==>
      && p !in s.pc.asked && !AuthorityMoved(s) && (forall l :: l in c.targetOf ==> c.targetOf[l] != p)
      && p in s.canonical.maintenance.value.cleanup && p in c.sources
      && s.canonical.maintenance.value.cleanup[p] == c.sources[p].fingerprint
      && (p in s.objects ==> s.objects[p].fingerprint == c.sources[p].fingerprint)
  {}

  /** The completion goes on only under the maintenance it has loaded, and ends only with every action completed. */
  lemma CompletionRefusesIff(c: Config, s: State, verifier: string)
    requires s.memory.transition.Some?
    ensures s.pc.TargetAuthority? ==> (Step(c, s, Done, verifier).pc == Idle <==> AuthorityMoved(s))
    ensures s.pc.CommitCleanup? ==>
      (Step(c, s, Done, verifier).pc == Idle <==> s.loaded.Some? && s.loaded != s.canonical.maintenance)
    ensures s.pc.FinishTarget? ==>
      (Step(c, s, Done, verifier).pc == Idle <==>
        s.memory.pending != map[] || (s.loaded.Some? && s.loaded != s.canonical.maintenance))
  {}

  // Transitions whose maintenance is already gone.

  /** An unfinished action of a source that was not captured so, or whose object is still there. */
  predicate Unfinished(c: Config, s: State, p: Path)
    requires p in s.memory.pending
  {
    p !in c.sources || s.memory.pending[p] != c.sources[p].fingerprint || p in s.objects
  }

  /** A transition without maintenance is retired only when nothing of it is left to do: a rollback that has found a
      target or has unfinished actions stops. */
  lemma RetirementRefusesIff(c: Config, s: State, verifier: string)
    requires s.memory.transition.Some?
    ensures s.pc.VerifyTargets? && s.pc.unchecked == {} && s.canonical.maintenance.None? ==>
      (Step(c, s, Done, verifier).pc == Idle <==> s.pc.present || s.memory.pending != map[])
    ensures s.pc.RetireTarget? ==>
      (Step(c, s, Done, verifier).memory.transition.Some? <==>
        && s.memory.pending != map[]
        && (|| s.canonical.maintenance.Some? || s.canonical.revision <= c.claim.sourceCanonicalRevision
            || (exists p :: p in s.memory.pending && Unfinished(c, s, p))
            || Refused(c, s.memory.transition.value.phase, s.manifest, None, Target)))
    ensures s.pc.RetireSource? ==>
      (Step(c, s, Done, verifier).pc == Idle <==>
        || s.canonical.maintenance.Some? || s.canonical.revision < c.claim.sourceCanonicalRevision
        || (exists p :: (p in c.sources) != (p in s.objects)
              || (p in s.objects && s.objects[p].fingerprint != c.sources[p].fingerprint))
        || Refused(c, s.memory.transition.value.phase, s.manifest, None, Source))
  {
    RefusedIff(c, s.memory.transition.value.phase, s.manifest, None, Target);
    RefusedIff(c, s.memory.transition.value.phase, s.manifest, None, Source);
    hide Coherent, Refused;
  }

  // A transition that begins or has copied its files.

  /** A captured source that is gone or another, or an object that nobody of the transition has put there. */
  predicate Changed(c: Config, s: State, p: Path) {
    if p in c.sources then p !in s.objects || s.objects[p].fingerprint != c.sources[p].fingerprint
    else p in s.objects && !(s.memory.transition.Some? && s.memory.transition.value.mapped
                             && exists l :: l in c.targetOf && c.targetOf[l] == p)
  }

  lemma ChangedSourceStops(c: Config, s: State, o: Outcome, verifier: string, p: Path)
    requires s.memory.transition.Some? && (s.pc.Claiming? || s.pc.CopiedPhase?) && Changed(c, s, p)
    ensures Step(c, s, o, verifier) == s.(pc := Idle)
  {}

  // A device that recovery refuses.

  /** What the device itself does, and requests that were sent before. */
  predicate Own(a: Action) {
    !a.ForeignPublish? && !a.ForeignAdvance? && !a.ForeignRequest? && !a.ForeignFinish?
  }

  /** Nothing but the settings of the device has changed, and no request has been sent. */
  ghost predicate StandsStill(s: State, n: State) {
    && n.canonical == s.canonical && n.manifest == s.manifest && n.inflight <= s.inflight
    && n.objects.Keys <= s.objects.Keys && (forall p :: p in n.objects ==> n.objects[p] == s.objects[p])
    && (forall p :: p in s.objects && p !in n.objects ==> p in s.inflight)
    && n.memory.transition == s.memory.transition && n.disk.transition == s.disk.transition
    && n.disk.transition == n.memory.transition && n.pc == Idle
  }

  lemma StuckStep(c: Config, s: State, a: Action, n: State)
    requires s.pc == Idle && s.disk.transition == s.memory.transition && Stuck(c, s) && Own(a) && Exec(c, s, a) == Some(n)
    ensures StandsStill(s, n) && Stuck(c, n)
  {
    if a.Recover? { RecoveryRefusesIff(c, s, a.outcome); }
    hide Coherent, Refused;
  }

  /** A device that finds the records of something else stays where it is, however often it recovers or restarts: it
      writes neither index nor manifest and sends no DELETE, until another device or the user changes them. */
  lemma {:induction false} RefusedDeviceStandsStill(c: Config, s: State, actions: seq<Action>, last: State)
    requires s.pc == Idle && s.disk.transition == s.memory.transition && Stuck(c, s)
    requires (forall a :: a in actions ==> Own(a)) && Run(c, s, actions, last)
    ensures StandsStill(s, last) && Stuck(c, last)
    decreases actions
  {
    if actions != [] {
      var n := Exec(c, s, actions[0]).value;
      StuckStep(c, s, actions[0], n);
      hide Stuck, Exec;
      RefusedDeviceStandsStill(c, n, actions[1..], last);
    }
  }
}
