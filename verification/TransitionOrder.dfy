/** The order of the steps of a transition, what each of them writes, and what a write that was refused or not reported
    leaves behind. */
module TransitionOrder {
  import opened Basics
  import opened Paths
  import opened EncryptionTypes
  import opened TransitionProtocol
  import opened TransitionCoherence
  import ManifestSchema

  /** Where each step stands in its procedure: the execution with the completion (src/crypto/encryption-transition.ts:
      224-386), the rollback (389-471, src/crypto/recovery.ts:399-547), and the retirements. */
  function Place(pc: Pc): nat {
    match pc
    case Claiming => 1 case ClaimPhase => 2 case PublishPrepared => 3 case ApplyTarget => 4 case ResolveTargets => 5
    case Copying(_) => 6 case CopiedPhase => 7 case PublishCopied => 8 case CommitIndex => 9 case CommittedPhase => 10
    case PublishCommitted => 11 case TargetAuthority => 12 case PublishTarget => 13 case CommitCleanup => 14
    case CleanupPhase => 15 case PrepareCleanup => 16 case Deleting(_, _) => 17 case FinishTarget => 18 case ClearTarget => 19
    case VerifyTargets(_, _) => 30 case PrepareRollback => 31 case SourceAuthority => 32 case PublishSource => 33
    case DeletingTargets(_, _) => 34 case FinishSource => 35 case ClearSource => 36
    case RetireTarget => 40 case RetireSource => 50 case Idle => 0
  }

  /** The work that a loop still has to do. */
  function Work(pc: Pc): set<Path> {
    match pc
    case Copying(files) => files
    case VerifyTargets(unchecked, _) => unchecked
    case Deleting(todo, _) => todo
    case DeletingTargets(todo, _) => todo
    case _ => {}
  }

  /** What a loop begins with: every live file, every captured source, every pinned target. */
  function Begins(c: Config, s: State, pc: Pc): Pc
    requires s.memory.transition.Some?
  {
    match pc
    case Copying(_) => Copying(c.live)
    case Deleting(_, _) => Deleting(c.sources.Keys, {})
    case DeletingTargets(_, _) => DeletingTargets(s.memory.transition.value.proofs.Keys, {})
    case other => other
  }

  /** A procedure stops, or it takes its next step with none skipped; it leaves a loop only with nothing left to do. A
      rollback whose maintenance is gone only retires. */
  predicate InOrder(c: Config, s: State, n: State)
    requires s.memory.transition.Some?
  {
    n.pc == Idle || (n.pc == s.pc && Work(s.pc) != {}) ||
    (&& Work(s.pc) == {} && n.pc == Begins(c, s, n.pc)
     && (Place(n.pc) == Place(s.pc) + 1 || (s.pc.VerifyTargets? && n.pc.RetireSource?) || (s.pc.RetireSource? && n.pc.ClearSource?))
     && (s.pc.VerifyTargets? ==> (n.pc.RetireSource? <==> s.canonical.maintenance.None?)))
  }

  lemma ExecuteInOrder(c: Config, s: State, o: Outcome)
    requires s.memory.transition.Some? && BeforeCommit(s.pc)
    ensures InOrder(c, s, ExecuteStep(c, s, o))
  {
    hide SourceUnchanged, TransitionManifest, AuthorityAt;
  }

  lemma CompleteInOrder(c: Config, s: State, o: Outcome, verifier: string)
    requires s.memory.transition.Some? && AfterCommit(s.pc)
    ensures InOrder(c, s, CompleteStep(c, s, o, verifier))
    ensures s.pc.ClearTarget? && o == Done ==> Clears(s, CompleteStep(c, s, o, verifier))
  {
    hide TransitionManifest, StableManifest, RetiresTarget, HoldsAuthority, AuthorityAt;
  }

  lemma RollbackInOrder(c: Config, s: State, o: Outcome, verifier: string)
    requires s.memory.transition.Some? && RollingBack(s.pc)
    ensures InOrder(c, s, RollbackStep(c, s, o, verifier))
    ensures s.pc.ClearSource? && o == Done ==> Clears(s, RollbackStep(c, s, o, verifier))
  {
    hide StableManifest, RetiresSource, RollbackValid;
  }

  predicate Clears(s: State, n: State) {
    n == s.(memory := s.memory.(transition := None), disk := s.memory.(transition := None), pc := Idle)
  }

  /** Every step of every procedure keeps the order, and the last one clears the transition. */
  lemma StepsInOrder(c: Config, s: State, o: Outcome, verifier: string)
    requires s.memory.transition.Some? && s.pc != Idle
    ensures InOrder(c, s, Step(c, s, o, verifier))
    ensures (s.pc.ClearTarget? || s.pc.ClearSource?) && o == Done ==> Clears(s, Step(c, s, o, verifier))
  {
    hide InOrder, Clears, ExecuteStep, CompleteStep, RollbackStep;
    if BeforeCommit(s.pc) { ExecuteInOrder(c, s, o); }
    else if RollingBack(s.pc) { RollbackInOrder(c, s, o, verifier); }
    else { CompleteInOrder(c, s, o, verifier); }
  }

  /** What other devices and the next start of this one can see. */
  predicate SameStores(s: State, n: State) {
    && n.canonical == s.canonical && n.manifest == s.manifest && n.disk == s.disk
    && n.objects == s.objects && n.inflight == s.inflight
  }

  /** A refused write leaves the stores alone, an unreported one leaves in them what a reported one does, and neither
      lets the procedure go on. A transition that could not be cleared stays in memory. */
  predicate Differ(s: State, done: State, unreported: State, rejected: State) {
    && SameStores(s, rejected) && SameStores(done, unreported) && done.objects == s.objects && done.inflight == s.inflight
    && (!SameStores(s, done) ==> unreported.pc == rejected.pc == Idle && unreported.memory.transition.Some? && rejected.memory.transition.Some?)
  }

  lemma WritesDiffer(s: State)
    ensures forall memory: Local, next :: s.memory.transition.Some? && memory.transition.Some? ==>
      Differ(s, Persist(s, memory, Done, next), Persist(s, memory, Unreported, next), Persist(s, memory, Rejected, next))
    ensures forall cleared :: s.memory.transition.Some? ==>
      Differ(s, PersistCleared(s, cleared, Done), PersistCleared(s, cleared, Unreported), PersistCleared(s, cleared, Rejected))
    ensures forall codec, maintenance, next :: s.memory.transition.Some? ==>
      Differ(s, Save(s, codec, maintenance, Done, next), Save(s, codec, maintenance, Unreported, next), Save(s, codec, maintenance, Rejected, next))
    ensures forall manifest, next :: s.memory.transition.Some? ==>
      Differ(s, Publish(s, manifest, Done, next), Publish(s, manifest, Unreported, next), Publish(s, manifest, Rejected, next))
    ensures forall next :: Differ(s, s.(pc := next), s.(pc := next), s.(pc := next))
  {}

  lemma ExecuteDiffers(c: Config, s: State)
    requires s.memory.transition.Some?
    ensures Differ(s, ExecuteStep(c, s, Done), ExecuteStep(c, s, Unreported), ExecuteStep(c, s, Rejected))
  {
    hide SourceUnchanged, TransitionManifest, AuthorityAt, Persist, Save, Publish, Differ;
    WritesDiffer(s);
  }

  lemma CompleteDiffers(c: Config, s: State, verifier: string)
    requires s.memory.transition.Some?
    ensures Differ(s, CompleteStep(c, s, Done, verifier), CompleteStep(c, s, Unreported, verifier), CompleteStep(c, s, Rejected, verifier))
  {
    hide TransitionManifest, StableManifest, RetiresTarget, HoldsAuthority, AuthorityAt, Persist, PersistCleared, Save, Publish, Differ;
    WritesDiffer(s);
  }

  lemma RollbackDiffers(c: Config, s: State, verifier: string)
    requires s.memory.transition.Some?
    ensures Differ(s, RollbackStep(c, s, Done, verifier), RollbackStep(c, s, Unreported, verifier), RollbackStep(c, s, Rejected, verifier))
  {
    hide StableManifest, RetiresSource, RollbackValid, Persist, PersistCleared, Save, Publish, Differ;
    WritesDiffer(s);
  }

  lemma OutcomesDiffer(c: Config, s: State, verifier: string)
    requires s.memory.transition.Some?
    ensures Differ(s, Step(c, s, Done, verifier), Step(c, s, Unreported, verifier), Step(c, s, Rejected, verifier))
  {
    hide Differ, ExecuteStep, CompleteStep, RollbackStep;
    ExecuteDiffers(c, s);
    CompleteDiffers(c, s, verifier);
    RollbackDiffers(c, s, verifier);
  }

  /** A transition is claimed in the index revision it was prepared for, without another maintenance, and with every
      captured source still in place; it records who began it and both modes. */
  lemma ClaimIff(c: Config, s: State)
    requires s.memory.transition.Some? && s.pc == Claiming && s.loaded.None?
    ensures var n := Step(c, s, Done, "");
      if s.canonical.revision != c.claim.sourceCanonicalRevision || s.canonical.maintenance.Some? || exists p :: Changed(c, s, p)
      then n == s.(pc := Idle)
      else
        && n.canonical.codec == s.canonical.codec && n.canonical.revision == s.canonical.revision + 1
        && n.canonical.maintenance == n.loaded && n.loaded.Some? && n.loaded.value.cleanup == map[]
        && n.loaded.value.authority == Authority(c.claim.id, c.claim.kind, Prepared, c.device, c.claim.sourceCanonicalRevision,
                                                 None, c.sourceMode, c.targetMode)
        && n == s.(canonical := n.canonical, loaded := n.loaded, pc := ClaimPhase)
  {
    UnchangedIff(c, s);
    hide SourceUnchanged, Changed;
  }

  lemma UnchangedIff(c: Config, s: State)
    ensures SourceUnchanged(c, s) <==> forall p :: !Changed(c, s, p)
  {
    if SourceUnchanged(c, s) {
      forall p ensures !Changed(c, s, p) {}
    } else if (forall p :: !Changed(c, s, p)) {
      forall p | p in s.objects
        ensures p in c.sources.Keys + (if s.memory.transition.Some? && s.memory.transition.value.mapped then c.targetOf.Values else {})
      {
        assert !Changed(c, s, p);
      }
      forall p | p in c.sources ensures p in s.objects && s.objects[p].fingerprint == c.sources[p].fingerprint { assert !Changed(c, s, p); }
      assert false;
    }
  }

  /** Once every file has been copied the phase is recorded if the captured sources are still in place. */
  lemma CopiedIff(c: Config, s: State)
    requires s.memory.transition.Some? && s.pc == CopiedPhase
    ensures var n := Step(c, s, Done, "");
      if exists p :: Changed(c, s, p) then n == s.(pc := Idle)
      else n.pc == PublishCopied && n.disk == n.memory == s.memory.(transition := n.memory.transition)
           && n.memory.transition == Some(s.memory.transition.value.(phase := FilesCopied))
  {
    UnchangedIff(c, s);
    hide SourceUnchanged, Changed;
  }

  /** The commit makes the target canonical, with every captured source on its cleanup list, unless the maintenance is
      no longer the one that was loaded. */
  lemma CommitIff(c: Config, s: State)
    requires s.memory.transition.Some? && s.pc == CommitIndex
    ensures var n := Step(c, s, Done, "");
      if s.loaded.Some? && s.loaded != s.canonical.maintenance then n == s.(pc := Idle)
      else
        && n.pc == CommittedPhase && n.canonical.codec == Target && n.canonical.revision == s.canonical.revision + 1
        && n.canonical.maintenance == n.loaded && n.loaded.Some?
        && n.loaded.value.cleanup == (map p | p in c.sources :: c.sources[p].fingerprint)
        && n.loaded.value.authority == Authority(c.claim.id, c.claim.kind, IndexCommitted, c.device, c.claim.sourceCanonicalRevision,
                                                 Some(n.canonical.revision), c.sourceMode, c.targetMode)
  {}

  /** The phase that the device records at each step of its own. */
  lemma PhasesRecorded(c: Config, s: State, verifier: string)
    requires s.memory.transition.Some?
    ensures var n := Step(c, s, Done, verifier);
      && (s.pc.ClaimPhase? ==> n.disk == n.memory && n.memory.transition == Some(s.memory.transition.value.(phase := Prepared)))
      && (s.pc.CommittedPhase? ==> n.disk == n.memory && n.memory.transition == Some(s.memory.transition.value.(phase := IndexCommitted)))
      && (s.pc.CleanupPhase? ==> n.disk == n.memory && n.memory.transition == Some(s.memory.transition.value.(phase := Cleanup)))
      && (s.pc.CommitCleanup? && n.pc != Idle ==>
            n.canonical.maintenance.Some? && n.canonical.maintenance.value.authority.phase == Cleanup
            && n.canonical.maintenance.value.cleanup == map p | p in c.sources :: c.sources[p].fingerprint)
      && (s.pc.FinishTarget? || s.pc.FinishSource? ==>
            n.pc != Idle ==> n.canonical == Canonical(s.canonical.codec, s.canonical.revision + 1, None))
  {
    hide Coherent, SourceUnchanged, TransitionManifest, StableManifest, RetiresSource, RetiresTarget, RollbackValid, HoldsAuthority;
  }

  /** What the device records before it deletes: every captured source, or every pinned target; a retirement drops the
      receipts with the transition. */
  lemma ActionsRecorded(c: Config, s: State, verifier: string)
    requires s.memory.transition.Some?
    ensures var n, t := Step(c, s, Done, verifier), s.memory.transition.value;
      && (s.pc.PrepareCleanup? ==>
            n.disk == n.memory == s.memory.(pending := s.memory.pending + map p | p in c.sources :: c.sources[p].fingerprint))
      && (s.pc.PrepareRollback? ==> n.pc == Idle || n.disk == n.memory == s.memory.(pending := s.memory.pending + t.proofs))
      && (s.pc.RetireTarget? ==>
            n == s.(pc := Idle) || (n.disk == n.memory == s.memory.(transition := None, pending := map[]) && n.pc == Idle))
      && (s.pc.ApplyTarget? ==> n.disk == n.memory == s.memory.(settings := c.claim.target))
      && (s.pc.ResolveTargets? ==>
            if c.mappable then n.disk == n.memory == s.memory.(transition := Some(t.(mapped := true))) else n == s.(pc := Idle))
  {
    hide Coherent, SourceUnchanged, TransitionManifest, StableManifest, RetiresSource, RetiresTarget, RollbackValid, HoldsAuthority;
  }

  predicate Publishing(pc: Pc) { pc.PublishPrepared? || pc.PublishCopied? || pc.PublishCommitted? }

  /** The manifest says who changes what, and in which phase. */
  predicate Announces(c: Config, manifest: Option<Manifest>, phase: Phase) {
    match manifest
    case None => false
    case Some(m) =>
      match m.transition
      case None => false
      case Some(d) =>
        && d.id == c.claim.id && d.initiatedBy == c.device == m.updatedBy && d.phase == phase
        && m.state == match c.claim.kind case Enable => Enabling case Rotate => Rotating case Disable => Disabling
  }

  /** The manifest is the stable one of a mode, which is none for plaintext. */
  predicate Settles(mode: Mode, owner: string, verifier: string, manifest: Option<Manifest>) {
    match manifest
    case None => !mode.enabled || mode.salt.None?
    case Some(m) =>
      && mode.enabled && mode.salt == Some(m.salt) && m.state == Enabled && m.transition.None?
      && m.verifier == verifier && m.updatedBy == owner && m.revision == if mode.revision.Some? then mode.revision.value else 1
  }

  lemma Announcements(c: Config, s: State)
    requires s.memory.transition.Some? && Publishing(s.pc)
    ensures var n := Step(c, s, Done, "");
      var authority := if s.pc.PublishCopied? then CommitAuthority(c, s) else LoadedAuthority(c, s);
      && (n.pc == Idle <==> TransitionManifest(c, authority).None?)
      && (n.pc != Idle ==> Announces(c, n.manifest,
            if s.pc.PublishCopied? then IndexCommitted else if s.loaded.Some? then s.loaded.value.authority.phase else Prepared))
  {
    hide ManifestSchema.CreateManifest, PublicationOf;
    AnnouncesPhase(c, LoadedAuthority(c, s));
    AnnouncesPhase(c, CommitAuthority(c, s));
    hide TransitionManifest, Announces;
  }

  lemma AnnouncesPhase(c: Config, authority: Authority)
    ensures TransitionManifest(c, authority).Some? ==> Announces(c, TransitionManifest(c, authority), authority.phase)
  {
    ManifestSchema.CreatedIsExact(PublicationOf(c, authority));
    hide ManifestSchema.CreateManifest;
  }

  lemma Settlements(c: Config, s: State, verifier: string)
    requires s.memory.transition.Some?
    ensures var n := Step(c, s, Done, verifier);
      && (s.pc.PublishTarget? ==> Settles(c.targetMode, c.device, verifier, n.manifest))
      && (s.pc.PublishSource? ==> Settles(c.sourceMode, c.device, verifier, n.manifest))
  {}

  lemma OthersKeepManifest(c: Config, s: State, o: Outcome, verifier: string)
    requires s.memory.transition.Some? && !Publishing(s.pc) && !s.pc.PublishTarget? && !s.pc.PublishSource?
    ensures Step(c, s, o, verifier).manifest == s.manifest
  {
    hide Coherent, SourceUnchanged, RetiresSource, RetiresTarget, RollbackValid, HoldsAuthority, AuthorityAt;
  }

  /** The manifest announces the transition at each of its publications, with the phase of the maintenance or of the
      commit to come, says at the end what is stable, and is written by nothing else. */
  lemma Publications(c: Config, s: State, verifier: string)
    requires s.memory.transition.Some?
    ensures var n := Step(c, s, Done, verifier);
      && (Publishing(s.pc) ==> n.pc == Idle || Announces(c, n.manifest,
            if s.pc.PublishCopied? then IndexCommitted else if s.loaded.Some? then s.loaded.value.authority.phase else Prepared))
      && (s.pc.PublishTarget? ==> Settles(c.targetMode, c.device, verifier, n.manifest))
      && (s.pc.PublishSource? ==> Settles(c.sourceMode, c.device, verifier, n.manifest))
      && (!Publishing(s.pc) && !s.pc.PublishTarget? && !s.pc.PublishSource? ==> n.manifest == s.manifest)
  {
    Settlements(c, s, verifier);
    if Publishing(s.pc) { Announcements(c, s); VerifierUnused(c, s, verifier); }
    else if !s.pc.PublishTarget? && !s.pc.PublishSource? { OthersKeepManifest(c, s, Done, verifier); }
    hide Step, Settles, Announces;
  }

  lemma VerifierUnused(c: Config, s: State, verifier: string)
    requires s.memory.transition.Some? && Publishing(s.pc)
    ensures Step(c, s, Done, verifier) == Step(c, s, Done, "")
  {
    hide TransitionManifest;
  }

  // The iterations of the loops, and what the others do.

  /** The object at the target path of a live file is that file under the target codec. */
  predicate InPlace(c: Config, s: State, logical: Path)
    requires logical in c.targetOf
  {
    && c.targetOf[logical] in s.objects
    && match s.objects[c.targetOf[logical]] case Object(codec, file, _) => codec.Target? && file == logical
  }

  /** A target is uploaded only where nothing is, and what is there already is left alone. */
  lemma UploadIff(c: Config, s: State, logical: Path, fingerprint: string)
    ensures Exec(c, s, Upload(logical, fingerprint)) ==
      if !s.pc.Copying? || logical !in s.pc.files || logical !in c.targetOf || fingerprint == "" then None
      else if c.targetOf[logical] in s.objects then Some(s)
      else Some(s.(objects := s.objects[c.targetOf[logical] := Object(Target, logical, fingerprint)]))
  {}

  /** The fingerprint of the object is remembered for its path. */
  predicate PinsTarget(s: State, n: State, raw: Path, o: Outcome, next: Pc)
    requires s.memory.transition.Some? && raw in s.objects
  {
    var t := s.memory.transition.value;
    var memory := s.memory.(transition := Some(t.(proofs := t.proofs[raw := s.objects[raw].fingerprint])));
    n == s.(memory := memory, disk := if o.Rejected? then s.disk else memory, pc := if o.Done? then next else Idle)
  }

  /** A copied file is verified exactly when it is in place. A rollback accepts that a target is missing, and stops at
      one that is something else or no longer the one that was pinned. */
  lemma VerifyIff(c: Config, s: State, logical: Path, o: Outcome)
    requires s.memory.transition.Some? && logical in c.live && logical in c.targetOf
    ensures var raw, n := c.targetOf[logical], Exec(c, s, Verify(logical, o));
      match s.pc
      case Copying(files) =>
        if logical in files && InPlace(c, s, logical) then n.Some? && PinsTarget(s, n.value, raw, o, Copying(files - {logical})) else n.None?
      case VerifyTargets(unchecked, present) =>
        var proofs := s.memory.transition.value.proofs;
        if logical !in unchecked then n.None?
        else if raw !in s.objects then n == Some(s.(pc := VerifyTargets(unchecked - {logical}, present)))
        else if !InPlace(c, s, logical) || (raw in proofs && proofs[raw] != s.objects[raw].fingerprint) then n == Some(s.(pc := Idle))
        else n.Some? && PinsTarget(s, n.value, raw, o, VerifyTargets(unchecked - {logical}, true))
      case _ => n.None?
  {}

  /** A request is on its way once it has been sent, and lands whenever it likes; an action is completed by dropping
      it from memory and from what is left to do. */
  lemma DeletionsMove(c: Config, s: State, p: Path, o: Outcome)
    ensures Exec(c, s, Request(p)).Some? ==>
      (var n := Exec(c, s, Request(p)).value;
       n.inflight == s.inflight + {p} && n == s.(inflight := n.inflight, pc := n.pc) && Work(n.pc) == Work(s.pc)
       && Exec(c, n, Request(p)).None?)
    ensures Exec(c, s, Settle(p, o)).Some? ==>
      (var n := Exec(c, s, Settle(p, o)).value;
       && n.memory == s.memory.(pending := s.memory.pending - {p}) && n.disk == (if o.Rejected? then s.disk else n.memory)
       && n == s.(memory := n.memory, disk := n.disk, pc := n.pc) && (if o.Done? then Work(n.pc) == Work(s.pc) - {p} else n.pc == Idle))
    ensures Exec(c, s, Land(p)) == if p in s.inflight then Some(s.(objects := s.objects - {p}, inflight := s.inflight - {p})) else None
    ensures Exec(c, s, Crash) == Some(s.(memory := s.disk, pc := Idle))
  {
    hide RollbackValid, HoldsAuthority, Coherent;
  }

  /** What other devices may do at any time after the commit: publish the target's manifest, move the maintenance to
      its cleanup, delete a source on its list then, and end it when all of them are gone. */
  lemma OthersMayFinish(c: Config, s: State, owner: string, verifier: string, p: Path)
    requires s.canonical.codec == Target && s.canonical.maintenance.Some?
    requires owner != "" && FreshVerifier(c, Target, verifier)
    ensures var m := s.canonical.maintenance.value;
      var cleaning := m.(authority := m.authority.(phase := Cleanup));
      var next := Canonical(Target, s.canonical.revision + 1, Some(cleaning));
      && Exec(c, s, ForeignAdvance) == Some(s.(canonical := next))
      && Exec(c, s, ForeignPublish(owner, verifier)) == Some(s.(manifest := StableManifest(c, Target, owner, verifier)))
      && (m == cleaning && p in m.cleanup && p in c.sources ==> Exec(c, s, ForeignRequest(p)) == Some(s.(inflight := s.inflight + {p})))
      && (m == cleaning && (forall q :: q in m.cleanup ==> q !in s.objects) ==>
            Exec(c, s, ForeignFinish) == Some(s.(canonical := next.(maintenance := None))))
  {
    hide StableManifest;
  }
}
