/** The encryption settings that the device persists beside a transition (`applyEncryptionSnapshot`,
    src/crypto/maintenance.ts:75-106): which of its two modes they are, over every run. */
module TransitionSettings {
  import opened Basics
  import opened Paths
  import opened EncryptionTypes
  import opened TransitionProtocol
  import opened TransitionSafety

  predicate OneOf(c: Config, settings: Snapshot) { settings == c.claim.source || settings == c.claim.target }

  /** The steps that need the target codec come after its settings have been applied. */
  predicate NeedsTarget(pc: Pc) {
    AfterCommit(pc) || pc.ResolveTargets? || pc.Copying? || pc.CopiedPhase? || pc.PublishCopied? || pc.CommitIndex?
  }

  /** Without a transition the settings are those of the canonical codec. */
  predicate Settles(c: Config, codec: Side, l: Local) {
    OneOf(c, l.settings) && (l.transition.None? ==> l.settings == c.SnapshotOf(codec))
  }

  predicate SettingsKnown(c: Config, s: State) {
    && Settles(c, s.canonical.codec, s.memory) && Settles(c, s.canonical.codec, s.disk)
    && (BeforeCommit(s.pc) ==> s.disk.transition.Some?) && (s.pc != Idle ==> s.memory.transition.Some?)
    && (NeedsTarget(s.pc) ==> s.memory.settings == c.claim.target)
    && (RollingBack(s.pc) ==> s.memory.settings == c.claim.source)
  }

  lemma ExecuteKeepsSettings(c: Config, s: State, o: Outcome)
    requires SettingsKnown(c, s) && s.memory.transition.Some? && BeforeCommit(s.pc)
    ensures SettingsKnown(c, ExecuteStep(c, s, o))
  {
    hide TransitionManifest, SourceUnchanged, LoadedAuthority, CommitAuthority, AuthorityAt, OneOf;
    assert OneOf(c, c.claim.target) by { OneIsOneOf(c); }
  }

  lemma OneIsOneOf(c: Config)
    ensures OneOf(c, c.claim.target) && OneOf(c, c.claim.source)
  {}

  lemma CompleteKeepsSettings(c: Config, s: State, o: Outcome, verifier: string)
    requires SettingsKnown(c, s) && s.memory.transition.Some? && AfterCommit(s.pc) && s.canonical.codec == Target
    ensures SettingsKnown(c, CompleteStep(c, s, o, verifier))
  {
    hide TransitionManifest, StableManifest, RetiresTarget, HoldsAuthority, LoadedAuthority, OneOf;
  }

  lemma RollbackKeepsSettings(c: Config, s: State, o: Outcome, verifier: string)
    requires SettingsKnown(c, s) && s.memory.transition.Some? && RollingBack(s.pc) && s.canonical.codec == Source
    ensures SettingsKnown(c, RollbackStep(c, s, o, verifier))
  {
    hide StableManifest, RetiresSource, RollbackValid, OneOf;
  }

  lemma RecoveryKeepsSettings(c: Config, s: State, o: Outcome)
    requires SettingsKnown(c, s) && s.memory.transition.Some?
    ensures SettingsKnown(c, StartRecovery(c, s, o))
  {
    hide Coherent, DecisionOf;
  }

  lemma OtherKeepsSettings(c: Config, s: State, a: Action)
    requires SettingsKnown(c, s) && Exec(c, s, a).Some? && !a.Advance? && !a.Recover?
    ensures SettingsKnown(c, Exec(c, s, a).value)
  {
    hide StableManifest, FreshVerifier, HoldsTarget, HoldsAuthority, RollbackValid, OneOf;
  }

  lemma StepKeepsSettings(c: Config, s: State, a: Action)
    requires c.Sound() && Inv(c, s) && SettingsKnown(c, s) && Exec(c, s, a).Some?
    ensures SettingsKnown(c, Exec(c, s, a).value)
  {
    hide SettingsKnown, ObjectsKnown, LocalKnown, HoldsTarget, Uploaded, ExecuteStep, CompleteStep, RollbackStep, StartRecovery;
    match a
    case Advance(o, verifier) =>
      if BeforeCommit(s.pc) { ExecuteKeepsSettings(c, s, o); }
      else if RollingBack(s.pc) { RollbackKeepsSettings(c, s, o, verifier); }
      else { CompleteKeepsSettings(c, s, o, verifier); }
    case Recover(o) => RecoveryKeepsSettings(c, s, o);
    case _ => OtherKeepsSettings(c, s, a);
  }

  lemma InitialSettings(c: Config, s: State)
    requires Initial(c, s)
    ensures SettingsKnown(c, s)
  {}

  lemma {:induction false} RunKeepsSettings(c: Config, s: State, actions: seq<Action>, last: State)
    requires c.Sound() && Inv(c, s) && SettingsKnown(c, s) && Run(c, s, actions, last)
    ensures Inv(c, last) && SettingsKnown(c, last)
    decreases actions
  {
    hide Inv, SettingsKnown, Exec;
    if actions != [] {
      StepKeepsInv(c, s, actions[0]);
      StepKeepsSettings(c, s, actions[0]);
      RunKeepsSettings(c, Exec(c, s, actions[0]).value, actions[1..], last);
    }
  }

  /** Over all runs: the settings in memory and on disk are those of the source or of the target; whatever reads or
      writes targets does so under the target's and whatever rolls back under the source's; and when no transition is
      left they are those of the codec under which the canonical index is. */
  lemma SettingsFollowCodec(c: Config, first: State, actions: seq<Action>, s: State)
    requires c.ValidTree() && Initial(c, first) && Run(c, first, actions, s)
    ensures OneOf(c, s.memory.settings) && OneOf(c, s.disk.settings)
    ensures NeedsTarget(s.pc) ==> s.memory.settings == c.claim.target
    ensures RollingBack(s.pc) ==> s.memory.settings == c.claim.source
    ensures s.memory.transition.None? ==> s.memory.settings == c.SnapshotOf(s.canonical.codec)
    ensures s.disk.transition.None? ==> s.disk.settings == c.SnapshotOf(s.canonical.codec)
  {
    ValidIsSound(c);
    InitialInv(c, first);
    InitialSettings(c, first);
    RunKeepsSettings(c, first, actions, s);
  }
}
