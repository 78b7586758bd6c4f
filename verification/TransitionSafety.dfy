/** Safety of the guarded transition over every run: crashes between any two steps, repeated recovery, writes with an
    unreported effect, DELETE requests that land late, and foreign devices that finish the cleanup. */
module TransitionSafety {
  import opened Basics
  import opened Paths
  import opened EncryptionTypes
  import opened TransitionProtocol
  import TargetMapping

  /** Every live file of the canonical index has its object at its path under the canonical index's own codec. */
  ghost predicate Readable(c: Config, s: State)
    requires c.Sound()
  {
    forall l :: l in c.live ==>
      var raw := c.PathUnder(s.canonical.codec, l);
      raw in s.objects && s.objects[raw].codec == s.canonical.codec && s.objects[raw].logical == l
  }

  // The invariant.

  /** The live files whose target must already be uploaded. */
  ghost function Uploaded(c: Config, pc: Pc): set<Path> {
    if pc.Copying? then c.live - pc.files
    else if pc.CopiedPhase? || pc.PublishCopied? || pc.CommitIndex? then c.live else {}
  }

  ghost predicate ObjectsKnown(c: Config, s: State)
    requires c.Sound()
  {
    forall p :: p in s.objects ==>
      if p in c.sources then s.objects[p] == c.sources[p]
      else c.mappable && s.objects[p].codec == Target && s.objects[p].fingerprint != ""
           && s.objects[p].logical in c.live && c.targetOf[s.objects[p].logical] == p
  }

  ghost predicate LocalKnown(c: Config, s: State, l: Local) {
    l.transition.Some? ==>
      && (Committed(l.transition.value.phase) ==> s.canonical.codec == Target)
      && (l.transition.value.proofs != map[] ==> c.mappable && l.transition.value.proofs.Keys <= c.targetOf.Values)
      && (l.transition.value.mapped ==> c.mappable)
  }

  ghost predicate Inv(c: Config, s: State)
    requires c.Sound()
  {
    && ObjectsKnown(c, s) && LocalKnown(c, s, s.memory) && LocalKnown(c, s, s.disk)
    && (s.canonical.codec == Source ==> c.sources.Keys <= s.objects.Keys && s.inflight !! c.sources.Keys)
    && (s.canonical.codec == Target ==>
          c.mappable && s.inflight <= c.sources.Keys && forall l :: l in c.live ==> HoldsTarget(c, s, l))
    && (BeforeCommit(s.pc) ==> s.canonical.codec == Source && s.inflight == {})
    && (RollingBack(s.pc) ==> s.canonical.codec == Source)
    && (AfterCommit(s.pc) ==> s.canonical.codec == Target)
    && (s.pc.Copying? || s.pc.CopiedPhase? || s.pc.PublishCopied? || s.pc.CommitIndex? ==> c.mappable)
    && (forall l :: l in Uploaded(c, s.pc) ==> HoldsTarget(c, s, l))
  }

  /** An admissible mapping gives distinct targets, none of them a source. */
  lemma ValidIsSound(c: Config)
    requires c.ValidTree()
    ensures c.Sound()
  {
    TargetMapping.RecordKeys(c.entries);
    if c.mappable {
      TargetMapping.RecordIsExact(c.entries, c.sourcePaths);
      forall l | l in c.live ensures c.targetOf[l] !in c.sources {
        if c.targetOf[l] in c.sourcePaths {
          TargetMapping.CleanupsAreDisjoint(c.entries, c.sourcePaths, c.targetOf[l], c.targetOf[l]);
        }
      }
      forall l, m | l in c.live && m in c.live && l != m ensures c.targetOf[l] != c.targetOf[m] {
        assert TargetMapping.Apart(c.targetOf[l], c.targetOf[m]);
      }
    }
  }

  lemma InvReadable(c: Config, s: State)
    requires c.Sound() && Inv(c, s)
    ensures Readable(c, s)
  {
    forall l | l in c.live ensures
      var raw := c.PathUnder(s.canonical.codec, l);
      raw in s.objects && s.objects[raw].codec == s.canonical.codec && s.objects[raw].logical == l
    {
      if s.canonical.codec == Target { assert HoldsTarget(c, s, l); }
    }
  }

  lemma InitialInv(c: Config, s: State)
    requires c.Sound() && Initial(c, s)
    ensures Inv(c, s)
  {}

  // One lemma per group of steps.

  /** A step that touches neither the objects, nor the DELETE requests, nor the codec of the canonical index. */
  predicate Quiet(s: State, n: State) {
    n.canonical.codec == s.canonical.codec && n.objects == s.objects && n.inflight == s.inflight
  }

  lemma QuietKeepsInv(c: Config, s: State, n: State)
    requires c.Sound() && Inv(c, s) && Quiet(s, n)
    requires LocalKnown(c, s, n.memory) && LocalKnown(c, s, n.disk)
    requires BeforeCommit(n.pc) ==> BeforeCommit(s.pc)
    requires RollingBack(n.pc) ==> s.canonical.codec == Source
    requires AfterCommit(n.pc) ==> s.canonical.codec == Target
    requires n.pc.Copying? || n.pc.CopiedPhase? || n.pc.PublishCopied? || n.pc.CommitIndex? ==> c.mappable
    requires forall l :: l in Uploaded(c, n.pc) ==> HoldsTarget(c, s, l)
    ensures Inv(c, n)
  {
    hide Uploaded, BeforeCommit, RollingBack, AfterCommit;
    forall l | l in c.live && HoldsTarget(c, s, l) ensures HoldsTarget(c, n, l) {}
  }

  lemma ExecuteStepKeepsInv(c: Config, s: State, o: Outcome)
    requires c.Sound() && Inv(c, s) && s.memory.transition.Some? && BeforeCommit(s.pc)
    ensures Inv(c, ExecuteStep(c, s, o))
  {
    hide TransitionManifest, SourceUnchanged, HoldsTarget, ObjectsKnown;
    if s.pc == CommitIndex {
      CommitKeepsInv(c, s, o);
    } else {
      QuietKeepsInv(c, s, ExecuteStep(c, s, o));
    }
  }

  /** The commit is reached only with every target uploaded and no DELETE on its way. */
  lemma CommitKeepsInv(c: Config, s: State, o: Outcome)
    requires c.Sound() && Inv(c, s) && s.memory.transition.Some? && s.pc == CommitIndex
    ensures Inv(c, ExecuteStep(c, s, o))
  {
    hide TransitionManifest, StableManifest, HoldsAuthority, LoadedAuthority, CommitAuthority, AuthorityAt;
    var n := ExecuteStep(c, s, o);
    forall l | l in c.live ensures HoldsTarget(c, n, l) { assert HoldsTarget(c, s, l); }
  }

  /** A completing device stops or stays in the completion, and leaves the objects alone. */
  lemma CompleteIsQuiet(c: Config, s: State, o: Outcome, verifier: string)
    requires s.memory.transition.Some? && AfterCommit(s.pc)
    ensures var n := CompleteStep(c, s, o, verifier); Quiet(s, n) && (n.pc == Idle || AfterCommit(n.pc))
  {
    hide TransitionManifest, StableManifest, RetiresTarget, HoldsAuthority, LoadedAuthority;
  }

  lemma CompleteStepKeepsInv(c: Config, s: State, o: Outcome, verifier: string)
    requires c.Sound() && Inv(c, s) && s.memory.transition.Some? && AfterCommit(s.pc)
    ensures Inv(c, CompleteStep(c, s, o, verifier))
  {
    hide TransitionManifest, StableManifest, HoldsTarget, ObjectsKnown, RetiresTarget, HoldsAuthority, LoadedAuthority;
    CompleteIsQuiet(c, s, o, verifier);
    QuietKeepsInv(c, s, CompleteStep(c, s, o, verifier));
  }

  lemma RollbackStepKeepsInv(c: Config, s: State, o: Outcome, verifier: string)
    requires c.Sound() && Inv(c, s) && s.memory.transition.Some? && RollingBack(s.pc)
    ensures Inv(c, RollbackStep(c, s, o, verifier))
  {
    hide StableManifest, HoldsTarget, ObjectsKnown, RetiresSource, RollbackValid;
    QuietKeepsInv(c, s, RollbackStep(c, s, o, verifier));
  }

  lemma RecoveryKeepsInv(c: Config, s: State, o: Outcome)
    requires c.Sound() && Inv(c, s) && s.memory.transition.Some? && s.pc == Idle
    ensures Inv(c, StartRecovery(c, s, o))
  {
    hide Coherent, HoldsTarget, ObjectsKnown, LocalKnown;
    SameTransitionKnown(c, s, s.memory, s.memory.(settings := c.SnapshotOf(Source)));
    SameTransitionKnown(c, s, s.memory, s.memory.(settings := c.SnapshotOf(Target)));
    QuietKeepsInv(c, s, StartRecovery(c, s, o));
  }

  lemma SameTransitionKnown(c: Config, s: State, l: Local, m: Local)
    requires LocalKnown(c, s, l) && m.transition == l.transition
    ensures LocalKnown(c, s, m)
  {}

  lemma UploadKeepsInv(c: Config, s: State, l: Path, fp: string)
    requires c.Sound() && Inv(c, s) && Exec(c, s, Upload(l, fp)).Some?
    ensures Inv(c, Exec(c, s, Upload(l, fp)).value)
  {
    var next := Exec(c, s, Upload(l, fp)).value;
    forall k | k in Uploaded(c, s.pc) ensures HoldsTarget(c, next, k) { assert HoldsTarget(c, s, k); }
  }

  lemma VerifyKeepsInv(c: Config, s: State, l: Path, o: Outcome)
    requires c.Sound() && Inv(c, s) && Exec(c, s, Verify(l, o)).Some?
    ensures Inv(c, Exec(c, s, Verify(l, o)).value)
  {
    var n := VerifyTarget(c, s, l, o).value;
    assert HoldsTarget(c, s, l) ==> c.mappable && c.targetOf[l] in c.targetOf.Values;
    hide ObjectsKnown, HoldsTarget;
    QuietKeepsInv(c, s, n);
  }

  lemma RequestKeepsInv(c: Config, s: State, p: Path)
    requires c.Sound() && Inv(c, s) && Exec(c, s, Request(p)).Some?
    ensures Inv(c, Exec(c, s, Request(p)).value)
  {
    hide Inv, Coherent, HoldsAuthority, RollbackValid;
    if s.pc.DeletingTargets? { ProofIsTarget(c, s, p); }
    AskedKeepsInv(c, s, p);
  }

  lemma AskedKeepsInv(c: Config, s: State, p: Path)
    requires c.Sound() && Inv(c, s) && (s.pc.Deleting? || s.pc.DeletingTargets?) && (p in c.sources <==> s.pc.Deleting?)
    ensures Inv(c, s.(inflight := s.inflight + {p}, pc := Asked(s.pc, p)))
  {
    var n := s.(inflight := s.inflight + {p}, pc := Asked(s.pc, p));
    forall l | l in c.live && HoldsTarget(c, s, l) ensures HoldsTarget(c, n, l) {}
    hide ObjectsKnown, LocalKnown;
    assert ObjectsKnown(c, n) && LocalKnown(c, n, n.memory) && LocalKnown(c, n, n.disk) by { SameKnown(c, s, n); }
  }

  lemma SameKnown(c: Config, s: State, n: State)
    requires c.Sound() && ObjectsKnown(c, s) && LocalKnown(c, s, s.memory) && LocalKnown(c, s, s.disk)
    requires n.objects == s.objects && n.canonical == s.canonical && n.memory == s.memory && n.disk == s.disk
    ensures ObjectsKnown(c, n) && LocalKnown(c, n, n.memory) && LocalKnown(c, n, n.disk)
  {}

  /** What a rollback deletes is no captured source. */
  lemma ProofIsTarget(c: Config, s: State, p: Path)
    requires c.Sound() && Inv(c, s) && s.memory.transition.Some? && p in s.memory.transition.value.proofs
    ensures p !in c.sources && c.mappable
  {
    hide ObjectsKnown, HoldsTarget, Uploaded;
    assert p in c.targetOf.Values;
    var l :| l in c.targetOf && c.targetOf[l] == p;
  }

  lemma SettleKeepsInv(c: Config, s: State, p: Path, o: Outcome)
    requires c.Sound() && Inv(c, s) && Exec(c, s, Settle(p, o)).Some?
    ensures Inv(c, Exec(c, s, Settle(p, o)).value)
  {
    hide RollbackValid, HoldsAuthority, ObjectsKnown, HoldsTarget;
    SettleKeepsObjects(c, s, p, o);
  }

  lemma SettleKeepsObjects(c: Config, s: State, p: Path, o: Outcome)
    requires c.Sound() && Inv(c, s) && Exec(c, s, Settle(p, o)).Some?
    ensures var n := Exec(c, s, Settle(p, o)).value;
      ObjectsKnown(c, n) && forall l :: l in c.live && HoldsTarget(c, s, l) ==> HoldsTarget(c, n, l)
  {
    hide RollbackValid, HoldsAuthority;
  }

  lemma LandKeepsInv(c: Config, s: State, p: Path)
    requires c.Sound() && Inv(c, s) && Exec(c, s, Land(p)).Some?
    ensures Inv(c, Exec(c, s, Land(p)).value)
  {
    var next := Exec(c, s, Land(p)).value;
    if s.canonical.codec == Target {
        forall l | l in c.live ensures HoldsTarget(c, next, l) { assert HoldsTarget(c, s, l); }
    }
  }

  lemma ForeignKeepsInv(c: Config, s: State, a: Action)
    requires c.Sound() && Inv(c, s) && Exec(c, s, a).Some?
    requires a.ForeignPublish? || a.ForeignAdvance? || a.ForeignRequest? || a.ForeignFinish?
    ensures Inv(c, Exec(c, s, a).value)
  {
    var n := Exec(c, s, a).value;
    forall l | l in c.live ensures HoldsTarget(c, n, l) { assert HoldsTarget(c, s, l); }
  }

  lemma StepKeepsInv(c: Config, s: State, a: Action)
    requires c.Sound() && Inv(c, s) && Exec(c, s, a).Some?
    ensures Inv(c, Exec(c, s, a).value)
  {
    match a
    case Recover(o) => RecoveryKeepsInv(c, s, o);
    case Advance(o, verifier) =>
      if BeforeCommit(s.pc) { ExecuteStepKeepsInv(c, s, o); }
      else if RollingBack(s.pc) { RollbackStepKeepsInv(c, s, o, verifier); }
      else { CompleteStepKeepsInv(c, s, o, verifier); }
    case Upload(l, fp) => UploadKeepsInv(c, s, l, fp);
    case Verify(l, o) => VerifyKeepsInv(c, s, l, o);
    case Request(p) => RequestKeepsInv(c, s, p);
    case Settle(p, o) => SettleKeepsInv(c, s, p, o);
    case Land(p) => LandKeepsInv(c, s, p);
    case Crash => QuietKeepsInv(c, s, Exec(c, s, a).value);
    case Fail => QuietKeepsInv(c, s, Exec(c, s, a).value);
    case _ => ForeignKeepsInv(c, s, a);
  }

  lemma {:induction false} RunKeepsInv(c: Config, s: State, actions: seq<Action>, last: State)
    requires c.Sound() && Inv(c, s) && Run(c, s, actions, last)
    ensures Inv(c, last)
    decreases actions
  {
    if actions != [] {
      StepKeepsInv(c, s, actions[0]);
      RunKeepsInv(c, Exec(c, s, actions[0]).value, actions[1..], last);
    }
  }

  // What every run guarantees.

  /** Over all runs, every live file stays readable under the codec of the canonical index. */
  lemma EveryRunStaysReadable(c: Config, first: State, actions: seq<Action>, last: State)
    requires c.ValidTree() && Initial(c, first) && Run(c, first, actions, last)
    ensures c.Sound() && Readable(c, last)
  {
    ValidIsSound(c);
    InitialInv(c, first);
    RunKeepsInv(c, first, actions, last);
    InvReadable(c, last);
  }

  /** A DELETE that was sent can land at any later time: it never names the object of a live file, it removes sources
      only after the commit, and it removes targets only while the source is canonical. */
  lemma LateDeletesAreHarmless(c: Config, first: State, actions: seq<Action>, last: State, p: Path)
    requires c.ValidTree() && Initial(c, first) && Run(c, first, actions, last) && p in last.inflight
    ensures c.Sound()
    ensures forall l :: l in c.live ==> p != c.PathUnder(last.canonical.codec, l)
    ensures p in c.sources ==> last.canonical.codec == Target
    ensures p !in c.sources && p in last.objects ==> last.canonical.codec == Source && last.objects[p].codec == Target
  {
    ValidIsSound(c);
    InitialInv(c, first);
    RunKeepsInv(c, first, actions, last);
  }

  /** Recovery finishes the target exactly when the commit happened, whatever was reported about it, and it is never
      blocked; a committed local phase in memory or on disk implies the commit. */
  lemma DecisionFollowsCommit(c: Config, first: State, actions: seq<Action>, last: State)
    requires c.ValidTree() && Initial(c, first) && Run(c, first, actions, last) && last.memory.transition.Some?
    ensures var phase := last.memory.transition.value.phase;
            DecisionOf(last, phase) == if last.canonical.codec == Target then FinishWithTarget else RollbackToSource
    ensures Committed(last.memory.transition.value.phase) ==> last.canonical.codec == Target
    ensures last.disk.transition.Some? && Committed(last.disk.transition.value.phase) ==> last.canonical.codec == Target
  {
    ValidIsSound(c);
    InitialInv(c, first);
    RunKeepsInv(c, first, actions, last);
  }

  /** Nothing but the commit changes the codec of the canonical index, and it changes it to the target. */
  lemma OnlyCommitChangesCodec(c: Config, s: State, a: Action)
    requires Exec(c, s, a).Some? && Exec(c, s, a).value.canonical.codec != s.canonical.codec
    ensures a.Advance? && s.pc == CommitIndex && Exec(c, s, a).value.canonical.codec == Target
  {
    hide TransitionManifest, StableManifest, Coherent, SourceUnchanged, RetiresTarget, RetiresSource, HoldsAuthority,
      RollbackValid, HoldsTarget, DecisionOf;
    if a.Advance? { LaterStepsKeepCodec(c, s, a.outcome, a.verifier); }
  }

  lemma LaterStepsKeepCodec(c: Config, s: State, o: Outcome, verifier: string)
    requires s.memory.transition.Some?
    ensures RollbackStep(c, s, o, verifier).canonical.codec == s.canonical.codec
    ensures CompleteStep(c, s, o, verifier).canonical.codec == s.canonical.codec
  {
    hide StableManifest, TransitionManifest, RetiresTarget, RetiresSource, HoldsAuthority, RollbackValid;
  }

  /** Once committed, a run never returns to the source. */
  lemma {:induction false} CommitIsFinal(c: Config, s: State, actions: seq<Action>, last: State)
    requires c.Sound() && Inv(c, s) && s.canonical.codec == Target && Run(c, s, actions, last)
    ensures last.canonical.codec == Target
    decreases actions
  {
    if actions != [] {
      var next := Exec(c, s, actions[0]).value;
      StepKeepsInv(c, s, actions[0]);
      if next.canonical.codec != Target { OnlyCommitChangesCodec(c, s, actions[0]); }
      CommitIsFinal(c, next, actions[1..], last);
    }
  }
}
