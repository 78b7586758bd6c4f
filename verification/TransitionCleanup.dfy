/** The guarded cleanup of a transition, over every run: what a DELETE may name, when an action may be completed, and
    what happens when another device completes the cleanup first. */
module TransitionCleanup {
  import opened Basics
  import opened Paths
  import opened EncryptionTypes
  import opened TransitionProtocol
  import opened TransitionSafety
  import ManifestSchema

  /** A DELETE after the commit names an entry of the committed cleanup list, with the fingerprint of the captured
      source that is still there, and no path of a live file. */
  ghost predicate FromCleanupList(c: Config, s: State, p: Path) {
    && s.canonical.codec == Target && s.canonical.maintenance.Some? && p in c.sources
    && p in s.canonical.maintenance.value.cleanup && s.canonical.maintenance.value.cleanup[p] == c.sources[p].fingerprint
    && p !in c.targetOf.Values && (p in s.objects ==> s.objects[p] == c.sources[p])
  }

  /** A DELETE of the rollback names a pinned target whose object is still the pinned one, and no path of a live file. */
  ghost predicate FromRollbackProof(c: Config, s: State, p: Path) {
    && s.canonical.codec == Source && s.memory.transition.Some? && p in s.memory.transition.value.proofs
    && p !in c.sources && p !in c.sourceOf.Values
    && (p in s.objects ==> s.objects[p].codec == Target && s.objects[p].fingerprint == s.memory.transition.value.proofs[p])
  }

  lemma RequestIsAuthorized(c: Config, s: State, p: Path)
    requires c.Sound() && Inv(c, s) && Exec(c, s, Request(p)).Some?
    ensures FromCleanupList(c, s, p) || FromRollbackProof(c, s, p)
  {
    hide Coherent, HoldsTarget, Uploaded;
    if s.pc.DeletingTargets? { ProofIsTarget(c, s, p); }
  }

  /** Over all runs, every DELETE the initiator sends is authorized at that moment by the committed list or by its
      proof. That the path and the fingerprint are listed is what the guard reads; that the object found is the
      captured source itself, or an object of the target codec and no source, and that the codec of the index fits the
      list, follows only from the invariant of the run. */
  lemma EveryRequestIsAuthorized(c: Config, first: State, actions: seq<Action>, s: State, p: Path)
    requires c.ValidTree() && Initial(c, first) && Run(c, first, actions, s) && Exec(c, s, Request(p)).Some?
    ensures FromCleanupList(c, s, p) || FromRollbackProof(c, s, p)
  {
    ValidIsSound(c);
    InitialInv(c, first);
    RunKeepsInv(c, first, actions, s);
    RequestIsAuthorized(c, s, p);
  }

  /** A pending action leaves memory only while its object is absent, under the loaded authority or after the
      maintenance has ended; a crash returns to what the disk holds. */
  lemma PendingEndsInAbsence(c: Config, s: State, a: Action, p: Path)
    requires !a.Crash? && Exec(c, s, a).Some? && p in s.memory.pending && p !in Exec(c, s, a).value.memory.pending
    ensures p !in s.objects && (HoldsAuthority(s) || s.canonical.maintenance.None?)
    ensures a.Settle? || s.pc.RetireTarget?
  {
    hide Coherent, TransitionManifest, StableManifest, SourceUnchanged, RetiresSource, HoldsTarget, FreshVerifier, DecisionOf,
      TransitionProtocol.Step, MayDelete;
    if a.Advance? { AdvanceKeepsPending(c, s, a.outcome, a.verifier, p); }
  }

  lemma AdvanceKeepsPending(c: Config, s: State, o: Outcome, verifier: string, p: Path)
    requires s.memory.transition.Some? && p in s.memory.pending && p !in Step(c, s, o, verifier).memory.pending
    ensures s.pc.RetireTarget? && p !in s.objects && s.canonical.maintenance.None?
  {
    hide Coherent, TransitionManifest, StableManifest, SourceUnchanged, RetiresSource, HoldsTarget, HoldsAuthority, RollbackValid;
    if BeforeCommit(s.pc) { ExecuteKeepsPending(c, s, o); }
  }

  lemma ExecuteKeepsPending(c: Config, s: State, o: Outcome)
    requires s.memory.transition.Some?
    ensures ExecuteStep(c, s, o).memory.pending == s.memory.pending
  {
    hide TransitionManifest, SourceUnchanged;
  }

  /** Another device has published the target manifest, or removed it for a plaintext target, and ended the
      maintenance, while this one stands still. */
  predicate FinishedElsewhere(c: Config, s: State) {
    && s.pc == Idle && s.memory.transition.Some? && s.canonical.codec == Target && s.canonical.maintenance.None?
    && (if c.targetMode.enabled then
          && s.manifest.Some? && s.manifest.value.state == Enabled && c.verifiedBy(s.manifest.value.verifier) == Some(Target)
          && Some(s.manifest.value.salt) == c.targetMode.salt && Some(s.manifest.value.revision) == c.targetMode.revision
        else s.manifest.None?)
  }

  /** When another device ends the maintenance before this one has recorded the commit, recovery refuses to go on
      (src/crypto/encryption-transition.ts:842-851); once the commit is recorded it does not. */
  lemma ForeignFinishIsAccepted(c: Config, s: State)
    requires c.Sound() && c.ValidModes() && Inv(c, s) && FinishedElsewhere(c, s)
    ensures StartRecovery(c, s, Done).pc == RetireTarget <==> Committed(s.memory.transition.value.phase)
    ensures StartRecovery(c, s, Done).pc == Idle <==> !Committed(s.memory.transition.value.phase)
  {
    hide ManifestSchema.Base64Of, ObjectsKnown, HoldsTarget, Uploaded;
  }
}
