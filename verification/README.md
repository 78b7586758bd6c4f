# Verified model of the Yandex Disk sync plugin

The plugin keeps an Obsidian vault in step with a folder on Yandex Disk and can encrypt, decrypt or re-key the remote
copy while it is in use. This project models the parts of it whose correctness depends on order, crashes and
interleaving, and proves what they promise. `dafny verify dfyconfig.toml` checks everything.

## How to read it

- **Encryption transition.** `TransitionProtocol` is the guarded transition (enable, disable, rotate) as a state
  machine over its atomic steps. Guarded is one of the two values of the `policy` parameter of
  `beginEncryptionTransition` (src/crypto/maintenance.ts:106-114); the three callers in src/crypto/workflow.ts (275,
  343, 481) take the other, the default, which adds a `replacement` to the same steps. What the theorems about
  transitions say holds of guarded transitions; of replacements only the cleanup is modelled (`ReplacementCleanup`).
  `ExecuteStep` follows `execute` (src/crypto/encryption-transition.ts:224-362), `CompleteStep` follows
  `completeTarget` (365-386), `RollbackStep` follows the rollback branch of `recoverTransition`
  (src/crypto/recovery.ts:399-547) with `rollbackSourceTargets` (src/crypto/encryption-transition.ts:389-471), and
  `MayDelete` and `MaySettle` are the checks of the guarded cleanup loop (481-690). Every write may be done, refused,
  or carried out although the caller sees an error; the device may crash between any two steps and recovery may be
  entered any number of times; a DELETE that was sent may land at any later time of the same transition; other devices
  may publish the target manifest, advance, delete and finish. `TransitionSafety` proves what every run keeps,
  `TransitionOrder` that no step is skipped and what each one writes, `TransitionCoherence` what recovery, rollback and
  retirement refuse, `TransitionCleanup` what a DELETE may name, `TransitionSettings` which encryption settings are in force and on disk,
  `TransitionRecords` that the readers accept what the protocol writes, `TransitionRecovery` that a single device
  always converges, and `TransitionBoundaries` where these promises end.
- **Planning over paths.** `Paths` represents a path by its segments and relates the string tests of the source to
  prefixes. `DeletionCover` is the recursive-delete planner, `TargetMapping` the fixed target paths of a transition,
  `ReplacementCleanup` the cleanup passes of an authoritative replacement that use the planner.
- **Records.** `EncryptionTypes`, `ManifestSchema` and `PluginDataLoader` are the manifest and the persisted transition
  as written and as read; `Base64` and `BackupEnvelope` are the byte formats.
- **Persistence.** `PersistenceSteps` says what each stretch of code between two awaits does to the state of the snapshot
  queue, `PersistenceSafety` proves properties of all runs of these steps, and `PluginPersistence` is the object: its
  methods take these steps, keep the invariants as `Valid()` and promise what a caller may rely on.
  `AuthenticationState` holds the credential rules.
- **Mobile recovery and sessions.** `MobileRecoverySteps`, `MobileRecoverySafety` and `MobileRecovery`, and
  `CoordinatorSteps`, `CoordinatorSafety` and `Coordinator`, in the same form.
- **Remote client.** `ReadTransport` (permits), `TreeTraversal`, `DirectoryPaging`, `FolderCache` and `MetadataBatch` are
  classes and methods whose contracts state what each stretch of code guarantees.

Three kinds of statement recur. `Inv`, `Recoverable`, `Valid`, `Fresh` and the like are invariants; the lemmas named
`...Keeps...` and `...Recovers` carry them over one step, and the lemmas over `Run` or `Trace` over whole runs. The
theorems of each module come last in its file.

## What turned out not to hold

Each of these comes with the condition under which the promise does hold, in both directions, and with an input or a run
at which it fails.

- A transition whose captured source tree contains an unsafe or repeated path is refused by every reload, from its
  very first save on; with safe and distinct paths every persisted state of every run is accepted
  (`EveryPersistedTransitionLoads`). A remote file named with a backslash and two dots is enough
  (`UnsafeCaptureIsRefused`).
- Sealing a backup envelope never checks its metadata; it opens again exactly when the reader's checks hold
  (`OpenSealed`), and never with an empty plugin version (`SealedWithoutVersion`).
- A password that a logout was asked to preserve is dropped by the next ordinary save exactly when a sensitive logout was
  completed or found since the last load began (`PreservedPasswordIsKeptIff`, `PreservedPasswordIsLost`).
- A load that finds a token of blanks beside a password treats it as the mark of a sensitive logout, the saves after it
  do not: the password stays out of them exactly when the token is empty (`MarkedLoadLocksIff`, `BlankTokenUnlocks`).
- Between the end of a load's own save and the completion of the load lie a few microtasks, in which a save queued behind
  it can begin and, if the storage rejects at once, end; the load then clears its failure. The data in memory is what is
  stored unless such a save took effect although it rejected at once (`IdleStorage`, `LoadMayHideFailure`); a storage
  that works asynchronously, like the plugin's, has written nothing by then (`IdleDataIsStored`).
- An `onQueued` that rejects ahead of its turn, and nothing else, makes it possible for two session bodies to overlap
  (`OverlapIff`, `EarlyFailureOverlaps`). A failing session exits twice exactly when its exit hook throws
  (`EnteredSessionsExitOnce`, `FailedExitExitsTwice`).
- A read whose `execute` throws instead of returning a promise keeps its permit for good (`Admitted`,
  `LostPermitStarves`); the plugin passes an
  asynchronous function, which never does.
- A listed item whose name contains a backslash passes the check for direct children without being one of that name
  (`AcceptedIsDirectChild`, `BackslashIsAccepted`).
- If another device ends the maintenance before the initiator has recorded the commit, the initiator's recovery refuses
  to continue, and otherwise it does continue; this is the design of src/crypto/encryption-transition.ts:842-851
  (`ForeignFinishIsAccepted`). Every transition that can be mapped has a run into that state
  (`ForeignFinishIsReachable`).

## Model

| member | source | states |
|---|---|---|
| Paths.StartsWithIsProperPrefix | src/sync/files/deletion-cover.ts:17-18 | for every two strings, the test `startsWith(root + "/")` is strict ancestry of the split segments |
| DeletionCover.PlanRecursiveDeletes | src/sync/files/deletion-cover.ts:5-54 | the plan is exactly the set of eligible entries without an eligible strict ancestor, shallow first, each with its listed kind |
| DeletionCover.SelectRoots | src/sync/files/deletion-cover.ts:19-53 | the depth-ordered loop returns exactly the maximal eligible paths |
| DeletionCover.CoverIsSafe | src/sync/files/deletion-cover.ts:25-52 | no planned deletion overlaps a preserved path or another planned one, and every listed file at or below it is removable, unless it is listed below a planned file |
| DeletionCover.CoverDeletesRemovableOnly | src/sync/files/deletion-cover.ts:33-51 | when nothing is listed below a file, every listed file at or below a planned deletion is removable |
| DeletionCover.RemovableFileIsCovered | src/sync/files/deletion-cover.ts:33-51 | a removable listed file is deleted by the plan if and only if it overlaps no preserved path |
| DeletionCover.CoverIsMinimum | src/sync/files/deletion-cover.ts:4-54 | of all sets of listed, normalized paths that overlap no preserved path, whose files are removable, and whose directories are collapsible with only removable files below them, none that deletes the same removable files is smaller than the plan |
| DeletionCover.DeletableIsOneAction | src/sync/files/deletion-cover.ts:33-51 | every collapsible directory with a listed file below it, all of them removable and clear of preserved paths, is deleted by exactly one action at or above it |
| DeletionCover.CoverIsOutermost | src/sync/files/deletion-cover.ts:33-53 | the plan holds exactly the deletable paths without a deletable strict ancestor |
| DeletionCover.FileCoverIsMinimum | src/sync/files/deletion-cover.ts:4-54 | a set that deletes the removable files which the plan deletes is no smaller than the plan |
| TargetMapping.CreateTargetRawMapping | src/crypto/encryption-transition.ts:1030-1079 | succeeds if and only if all paths are safe, logical paths distinct and raw targets pairwise non-nested and clear of every source; the result is the given record |
| TargetMapping.UnsafeIff | src/crypto/encryption-transition.ts:1096-1112 | a path is refused exactly when it has no segment or one that is empty, a dot, two dots, reserved, or holds a backslash or a null character |
| TargetMapping.HasPathAncestor | src/crypto/encryption-transition.ts:1081-1094 | true exactly when some candidate is a strict ancestor |
| TargetMapping.RecordIsExact | src/crypto/encryption-transition.ts:1056-1078 | an accepted mapping holds exactly its entries, and distinct logical paths have targets of which neither contains the other |
| TargetMapping.CleanupsAreDisjoint | src/crypto/encryption-transition.ts:1046-1065 | under an accepted mapping, deleting any source recursively removes no target and deleting any target removes no source |
| TargetMapping.ReloadIsAdmissible | src/plugin-data-loader.ts:452-458 | an accepted mapping is accepted again in whatever order the stored record enumerates it |
| Base64.Base64UrlDecode | src/crypto/encryption.ts:95-108 | accepts exactly non-empty canonical text, and what it returns is the only byte string with that encoding |
| Base64.DecodeAcceptsCanonical | src/crypto/encryption.ts:95-108 | the decoder accepts exactly non-empty text of the URL alphabet without a lone symbol or stray low bits, and what it returns encodes back to that text |
| Base64.DecodeEncode | src/crypto/encryption.ts:88-108 | decoding an encoded non-empty byte string returns it |
| Base64.EncodeInjective | src/crypto/encryption.ts:88-93 | two byte strings with the same URL encoding are equal |
| Base64.AtobBtoa | src/crypto/encryption.ts:71-86 | standard Base64 decoding inverts encoding, with the padding and bit rules of section 4 of RFC 4648 |
| Base64.CanonicalTextDecodes | src/crypto/manifest-schema.ts:152-170 | a text decodes to bytes that encode back to it if and only if it is in canonical form, and the number of bytes can be read off it |
| BackupEnvelope.SealBackupEnvelope | src/backup/backup-envelope.ts:46-103 | sealing fails only for an oversized header, and fills the buffer with magic, big-endian length, header and ciphertext |
| BackupEnvelope.OpenSealed | src/backup/backup-envelope.ts:46-150 | opening a sealed archive with its password returns its header and content if and only if the header passes the reader's checks, and otherwise fails on the header |
| BackupEnvelope.SealedWithoutVersion | src/backup/backup-envelope.ts:46-158 | an archive sealed with an empty plugin version never opens again |
| BackupEnvelope.OpenedIsFramed | src/backup/backup-envelope.ts:106-150 | every byte string that opens is a frame with a header of legal length that decodes to the returned header |
| BackupEnvelope.OpenIff | src/backup/backup-envelope.ts:106-258 | the reader returns a header and a content if and only if the bytes are magic, length, a legal header with 16 bytes of salt and 12 of initialization vector, and a ciphertext that authenticates under the password |
| BackupEnvelope.BigEndianOf | src/backup/backup-envelope.ts:117-126 | every four bytes are the big-endian form of the length they denote |
| BackupEnvelope.DecodeSizedIsChecked | src/backup/backup-envelope.ts:240-258 | the sized decoder returns the decoded bytes exactly when they have the expected number and encode back to the value |
| ManifestSchema.Base64OfIsChecked | src/crypto/manifest-schema.ts:152-170 | the manifest's Base64 test is that the value decodes to a permitted number of bytes that encode back to it |
| ManifestSchema.ManifestRoundTrip | src/crypto/manifest-schema.ts:24-150 | a written manifest reads back as itself exactly when it is well-formed, and is refused otherwise |
| ManifestSchema.ParsedIsWritten | src/crypto/manifest-schema.ts:24-150 | the reader accepts no JSON value other than the written form of a well-formed manifest |
| ManifestSchema.ReadableIff | src/crypto/manifest-schema.ts:24-349 | a written manifest is accepted if and only if its key is complete and, in a transition, is the revision, salt and verifier of the mode that its state declares: the target when encrypting or rotating, to a newer revision with another salt and verifier, the source when decrypting; and whatever JSON is accepted says so |
| ManifestSchema.CreatedManifestParses | src/crypto/encryption-manager.ts:195-309 | a manifest that `createManifest` builds parses back to itself exactly when it was built from publishable inputs |
| ManifestSchema.CreatedIsExact | src/crypto/encryption-manager.ts:195-309 | a manifest is refused exactly when its transition has no maintenance of its own or the key that its state declares is not that of the service; otherwise it carries that key, the phase and both modes |
| ManifestSchema.ModeRoundTrip | src/crypto/manifest-schema.ts:292-349 | a mode descriptor reads back as itself exactly when it is complete for encryption or empty for plaintext |
| ManifestSchema.DescriptorRoundTrip | src/crypto/manifest-schema.ts:208-278 | a transition descriptor reads back as itself exactly when its revisions, profiles and modes agree |
| PluginDataLoader.AssertCurrentTransition | src/plugin-data-loader.ts:335-519 | accepts a stored guarded transition if and only if claim, distinct safe source paths with exact fingerprints, admissible mapping, target fingerprints of its phase and backup proof all hold |
| PluginDataLoader.AssertCurrentData | src/plugin-data-loader.ts:306-333 | accepts the data around it if and only if, besides, the settings are exactly those of one of the two modes |
| PluginDataLoader.ClaimIsExact | src/plugin-data-loader.ts:382-416 | a claim is refused exactly for a missing identity, an impossible revision, a broken snapshot, or modes that are not those of its kind: a rotation needs a newer revision and another salt |
| PluginDataLoader.ProofIsExact | src/plugin-data-loader.ts:489-519 | a backup proof is refused exactly for an empty part or an impossible revision or time |
| TransitionSafety.EveryRunStaysReadable | src/crypto/encryption-transition.ts:224-471 | over all runs with crashes, repeated recovery, unreported writes, late DELETEs and foreign devices, each live file has its object at its path under the codec of the canonical index |
| TransitionSafety.RunKeepsInv | src/crypto/recovery.ts:399-547 | the protocol invariant about objects, local data, pending DELETEs and position survives every run |
| TransitionSafety.LateDeletesAreHarmless | src/crypto/encryption-transition.ts:572-690 | a DELETE still in flight never names a live file's object; it names sources only after the commit and present targets only while the source is canonical |
| TransitionSafety.DecisionFollowsCommit | src/crypto/encryption-transition.ts:990-1004 | in every run recovery decides for the target exactly when the commit happened, however it was reported, is never blocked, and a committed local phase implies the commit |
| TransitionSafety.OnlyCommitChangesCodec | src/crypto/maintenance.ts:322-345 | the only step that changes the codec of the canonical index is the commit, and it changes it to the target |
| TransitionSafety.CommitIsFinal | src/crypto/recovery.ts:404-434 | once committed, no continuation returns the canonical index to the source |
| TransitionSafety.ValidIsSound | src/crypto/maintenance.ts:396-471 | an admissible mapping gives the protocol distinct targets, none of them a captured source |
| TransitionSettings.SettingsFollowCodec | src/crypto/maintenance.ts:75-106 | over all runs the settings in memory and on disk are those of one mode, the target's in every step that handles targets, the source's in a rollback, and those of the canonical codec when no transition is left |
| TransitionCleanup.EveryRequestIsAuthorized | src/crypto/encryption-transition.ts:481-690 | in every run each DELETE names an entry and fingerprint of the committed cleanup list, or of the rollback proof, and no live file's path; by the invariant of the run the object there, if any, is the captured source itself or a target, never the other, and the codec of the index is the one that the list belongs to |
| TransitionCleanup.PendingEndsInAbsence | src/crypto/encryption-transition.ts:572-649 | a pending action leaves memory only while its object is absent, under the loaded authority or after the maintenance has ended |
| TransitionCleanup.ForeignFinishIsAccepted | src/crypto/encryption-transition.ts:816-852 | after a foreign finish, recovery continues if and only if the local phase already records the commit |
| TransitionCoherence.RecoveryRefusesIff | src/crypto/encryption-transition.ts:816-981 | recovery goes on if and only if its write succeeds and it finds no maintenance with another id, kind, initiator, source revision or modes or on the wrong side of the commit, no verifier that the codec of its side does not authenticate, no stable manifest of another key, and no manifest of another transition, device, mode or phase; then it loads that maintenance and applies the settings of that side |
| TransitionCoherence.RollbackRefusesIff | src/crypto/encryption-transition.ts:424-471 | each guarded step of a rollback stops if and only if the maintenance is no longer the loaded one or any of this holds then |
| TransitionCoherence.RollbackDeletesIff | src/crypto/encryption-transition.ts:572-649 | a rollback sends a DELETE, or completes one, if and only if besides the path is in its proof and no live file's, and the object is the pinned one or, for the completion, gone |
| TransitionCoherence.CleanupDeletesIff | src/crypto/encryption-transition.ts:572-649 | after the commit the same holds of the committed list |
| TransitionCoherence.RetirementRefusesIff | src/crypto/recovery.ts:301-343 | a transition whose maintenance is gone is retired if and only if index revision, objects, remaining actions and manifest are those of its completed side |
| TransitionCoherence.RefusedDeviceStandsStill | src/crypto/recovery.ts:399-547 | a device that recovery refuses writes neither index nor manifest and sends no DELETE over any number of recoveries and restarts, until another device changes what it finds |
| TransitionOrder.StepsInOrder | src/crypto/encryption-transition.ts:224-471 | no step of the execution, the completion or the rollback is ever skipped, a loop is left only with nothing left to do, and the last step clears the transition |
| TransitionOrder.OutcomesDiffer | src/crypto/recovery.ts:536-545 | for every step: a refused write leaves index, manifest and disk alone, an unreported one leaves in them what a reported one does, neither lets the procedure go on, and the transition stays in memory |
| TransitionOrder.ClaimIff | src/crypto/maintenance.ts:229-269 | a transition is claimed if and only if the index is at its revision without maintenance and every captured source is in place with nothing else beside them; the claim records device, kind and modes |
| TransitionOrder.CopiedIff | src/crypto/maintenance.ts:473-519 | the copied phase is recorded if and only if the captured sources are still in place and nothing but targets has appeared |
| TransitionOrder.CommitIff | src/crypto/encryption-transition.ts:293-308 | the commit makes the target canonical with every captured source and fingerprint on its cleanup list, unless the maintenance is no longer the loaded one |
| TransitionOrder.ActionsRecorded | src/crypto/encryption-transition.ts:372-379 | before any deletion every captured source, or every pinned target, is recorded as an action on disk, and a retirement drops the receipts with the transition |
| TransitionOrder.Publications | src/crypto/workflow.ts:95-109 | the manifest names transition, device, kind and phase at each publication before the end, the key of the final mode or nothing for plaintext at the end, and is written by no other step |
| TransitionOrder.VerifyIff | src/crypto/workflow.ts:61-79 | a target is verified if and only if the object at its path is the live file under the target codec; a rollback accepts that it is missing and stops at a target that is no longer the pinned one |
| TransitionRecords.EveryManifestParses | src/crypto/workflow.ts:95-109 | over all runs the manifest in the store parses back to itself |
| TransitionRecords.EveryPersistedTransitionLoads | src/plugin-data-loader.ts:306-519 | over all runs, in whatever order the stored record enumerates the mapping, a reload accepts the persisted transition with the settings beside it if and only if claim and backup proof are valid and the captured paths safe and distinct |
| TransitionRecords.TransitionManifestReadable | src/crypto/encryption-manager.ts:195-309 | the transition manifest of every phase can be built and is well-formed |
| TransitionRecords.StableManifestReadable | src/crypto/maintenance.ts:521-540 | the stable manifest exists exactly for an encrypted mode and is then well-formed |
| TransitionRecovery.EveryCrashPointIsCoherent | src/crypto/encryption-transition.ts:816-981 | at every point of a single-device run what memory and disk would present to recovery passes the coherence check, none of the reasons of `TransitionCoherence.RecoveryRefusesIff` being there, and recovery starts |
| TransitionRecovery.UninterruptedRecoveryConverges | src/crypto/recovery.ts:399-547 | from any reachable state an uninterrupted recovery has a bounded number of steps, keeps the committed codec, cannot stop before everything is clean, and can be completed |
| TransitionRecovery.RunRecovers | src/crypto/recovery.ts:399-547 | the single-device invariant about stores, local data and the running procedure survives every run |
| TransitionRecovery.RecoveryDescends | src/crypto/recovery.ts:399-547 | every uninterrupted step of a recovery strictly decreases the remaining work and ends only in a clean state |
| TransitionRecovery.RecoveryProgresses | src/crypto/encryption-transition.ts:389-471 | while a recovery is not over some uninterrupted step is possible |
| TransitionRecovery.RollbackIsValid | src/crypto/recovery.ts:301-343 | during a single-device rollback the re-validation passes while maintenance is open, and afterwards exactly the captured tree is left |
| TransitionRecovery.ClearedIsClean | src/crypto/workflow.ts:120-134 | when the local transition is gone from memory and disk, there is no maintenance, the manifest is stable and exactly one generation of objects is left |
| TransitionBoundaries.UnsafeCaptureIsRefused | src/sync/canonical/manager.ts:3013-3054 | a listed file whose name ends with a backslash and two dots is captured under an unsafe path, and the first persisted record of a valid transition with it is refused |
| TransitionBoundaries.ForeignFinishIsReachable | src/crypto/encryption-transition.ts:693-851 | for every transition that can be mapped some run ends in the state in which its recovery refuses to go on: the device copies and commits without learning of it, and a foreign device publishes, advances, deletes and finishes, in this order |
| ReplacementCleanup.ClassifyResources | src/crypto/replacement-cleanup.ts:140-253 | a listed file becomes removable if and only if it is no live target and its name was inspected and it decodes inside the replaced scope, or the codec is unknown and it lies at or below a recorded deletion; every other file is a target or preserved, directories collapse by the same rule, and the loop stops at the first name that should decode and does not |
| ReplacementCleanup.EveryFileIsAccountedFor | src/crypto/replacement-cleanup.ts:140-253 | the same for every prefix of the listing |
| ReplacementCleanup.SortedByPolicy | src/crypto/replacement-cleanup.ts:140-253 | the lists that any prefix of the listing gives follow that rule, file by file and directory by directory |
| ReplacementCleanup.DeletedIsReplaceable | src/crypto/replacement-cleanup.ts:254-335 | every listed file at or below a path that the plan deletes is replaceable by that rule and no live target |
| ReplacementCleanup.DeleteGroup | src/crypto/replacement-cleanup.ts:346-452 | for every interleaving of the workers with each other and with foreign changes of the canonical index, a DELETE is sent only for an action of the plan while the index records exactly the held replacement with it and nothing retained lies at or below it; success means all were sent and found gone, and undisturbed a recorded plan clear of what is retained succeeds |
| ReplacementCleanup.CleanPass | src/crypto/replacement-cleanup.ts:84-335 | one pass: finished only if it found nothing to delete or repair, failed only if something hindered it; a new plan is saved exactly when it differs from the recorded one or keeps more, before any DELETE; DELETEs only for roots of its cover while the index records it, and never at or above a listed file that is a live target or outside the replaced scope; held plans without overlaps |
| ReplacementCleanup.CleanupReplacement | src/crypto/replacement-cleanup.ts:30-343 | returns normally only after a pass that found nothing, and fails only after a failed pass or four of them; every pass begins with what the one before it recorded, and all DELETEs of all passes keep the rules |
| ReplacementCleanup.DeletesAreRecorded | src/crypto/replacement-cleanup.ts:254-300 | over all passes, whatever a DELETE names is in the plan that the canonical index records at that moment, which is the initial one or one that a pass of the same cleanup saved before, over no live target or preserved path |
| ReplacementCleanup.NothingFoundIsClean | src/crypto/replacement-cleanup.ts:315-334 | after such a pass every listed file is a live target or overlaps a preserved path |
| ReplacementCleanup.PlanIsApart | src/crypto/replacement.ts:115-168 | a computed plan with the paths it preserves satisfies the validator's no-overlap rules |
| ReplacementCleanup.RefusedIff | src/crypto/replacement.ts:115-168 | the validator refuses exactly a replacement with missing or equal epochs or no configuration folder, a badly spelled path, a deletion of a reserved one, or a deletion that meets a preserved path or another deletion |
| ReplacementCleanup.RecordedPlanValidates | src/crypto/replacement.ts:115-168 | a recorded plan is accepted by the validator if and only if the epochs and the scope it began with are, when the listing and the kept paths are well spelled |
| AuthenticationState.CaptureIsStable | src/auth/authentication-state.ts:95-104 | capturing credentials from settings that carry captured ones gives the same credentials |
| AuthenticationState.UpdatesAreConsistent | src/auth/authentication-state.ts:107-152 | every credential change leaves settings that the next load accepts |
| AuthenticationState.PatchesAreConsistent | src/settings-workflow.ts:175-278 | a user draft keeps credentials consistent, and makes them consistent when it changes them |
| AuthenticationState.DraftReachesSettings | src/settings-workflow.ts:175-278 | what a draft says of destination, token, client and the rest reaches the settings and nothing else changes; a new token or client makes the method manual and drops the grant, and a new destination, token or method asks for an unconfirmed manual sync |
| AuthenticationState.ChangesReachSettings | src/auth/authentication-state.ts:107-152 | what every credential change leaves and exactly when it is refused; destination and other settings stay, and the password changes only at a logout that does not preserve it |
| AuthenticationState.RefusedCredentials | src/auth/authentication-state.ts:40-64 | a load refuses credentials exactly for a grant that is manual, broken or without a token, or an OAuth token without a grant |
| AuthenticationState.RefreshKeepsGrant | src/auth/authentication-state.ts:133-151 | a refresh is accepted only for the grant and the client that the settings have, and leaves them and the sync requirement alone |
| PluginPersistence.PluginPersistence.BeginTask | src/plugin-persistence.ts:189-233 | the first task of the queue writes the live snapshot with its own change exactly when its load, job and guard allow it; whatever the live settings are, the snapshot carries the committed account unless its task replaces it, no password after a sensitive logout, and belongs to the current load |
| PluginPersistence.PluginPersistence.FinishSave | src/plugin-persistence.ts:234-324 | a failed write changes nothing in memory but the failure, and only when no load has come since; a successful one of a current task becomes the data that the storage holds, a revoked activation is written again as pending, and committed credentials change only by a task that replaces them |
| PluginPersistence.PluginPersistence.FinishRead | src/plugin-persistence.ts:111-137 | the mark of a sensitive logout drops the password whatever was stored, and saves are admitted only after a successful initialization |
| PluginPersistence.PluginPersistence.CompleteLoad | src/plugin-persistence.ts:136-146 | a load that succeeds leaves no failure behind with the data stored but for what overtook it, and one that fails leaves the data unloaded |
| PersistenceSafety.CommittedAccountPersists | src/plugin-persistence.ts:200-210 | until the next credential change, across failed writes and any live settings, the data and every snapshot written carry the committed account |
| PersistenceSafety.ChangeCommitsAccount | src/plugin-persistence.ts:254-261 | a completed credential change commits exactly the snapshot that was written, and it is consistent |
| PersistenceSafety.CommittedSavesAreLoadable | src/plugin-data-loader.ts:194 | in every run, once credentials are committed, every snapshot written passes the credential check of the next load |
| PersistenceSafety.RefreshesKeepGrant | src/auth/authentication-state.ts:133-151 | over any run of refreshes, confirmations, other saves and failures the data keeps its client and grant until a login, a logout or a draft of credentials completes |
| PersistenceSafety.PasswordStaysNull | src/plugin-persistence.ts:205-207 | after a sensitive logout every snapshot written has a null password while no token becomes durable |
| PersistenceSafety.SensitiveLogoutLocks | src/plugin-persistence.ts:262-267 | in every state that the invariants allow, the successful write of a sensitive logout leaves data without token and password, and no save in flight |
| PersistenceSafety.SensitiveLogoutKeepsPasswordNull | src/plugin-persistence.ts:200-267 | over every run, from the completion of a sensitive logout until a token becomes durable, the data and every snapshot being written have a null password |
| PersistenceSafety.MarkedLoadLocksIff | src/plugin-persistence.ts:120-132 | after a load that finds the mark of a sensitive logout no run without a login writes a password, if and only if the stored token is exactly empty |
| PersistenceSafety.BlankTokenUnlocks | src/plugin-persistence.ts:120-132 | a stored token of blanks and the run in which the load's own first save writes the password again |
| PersistenceSafety.PreservedPasswordIsKeptIff | src/plugin-persistence.ts:201-210 | in every run, while logged out, an ordinary save writes the live password if and only if no sensitive logout was completed or found since the last load began |
| PersistenceSafety.PreservedPasswordIsLost | src/plugin-persistence.ts:262-267 | a run with a sensitive logout, a login, a logout that preserves the password and a save that drops it |
| PersistenceSafety.IdleStorage | src/plugin-persistence.ts:104-324 | in every run over any storage the two agree if and only if no save that rejected at once although it took effect, while a load was completing, has left something else; otherwise the storage holds exactly that |
| PersistenceSafety.IdleDataIsStored | src/plugin-persistence.ts:179-324 | in every run over a storage that has written nothing when it rejects at once, the data in memory is what is stored whenever loaded, idle and not failed |
| PersistenceSafety.LoadMayHideFailure | src/plugin-persistence.ts:136-140 | a run with such a save |
| MobileRecovery.MobileSyncRecovery.Hint | src/sync/mobile-recovery.ts:168-201 | a hint never touches a running attempt, nor, unless it cancels it, an open episode before slow probing; it never moves the deadline of an open episode later, opens one due in half a second when there is none to join, and pulls a slow probe forward exactly when it is a strong one |
| MobileRecovery.MobileSyncRecovery.NotifyActivityChanged | src/sync/mobile-recovery.ts:203-223 | afterwards eligible work, automatic or manual, has a timer or a running attempt, and an open episode before slow probing is as it was, hidden or shown, unless cancelled |
| MobileRecovery.MobileSyncRecovery.AttemptFired | src/sync/mobile-recovery.ts:387-427 | an attempt starts exactly for an open episode of a visible plugin while nothing is busy, no cooldown runs and no manual request is open, with the ticket of that episode, and probes exactly in the slow phase |
| MobileRecovery.MobileSyncRecovery.AttemptSettled | src/sync/mobile-recovery.ts:405-458 | a success of a current attempt closes the episode and leaves no automatic timer, a blocked one makes it wait for a signal, a deferred one is due in half a second, retryable ones after 5, 15 and 60 seconds and then as a slow probe after five minutes or, if woken, half a second; one that has been superseded changes nothing |
| MobileRecovery.MobileSyncRecovery.ProbeSettled | src/sync/mobile-recovery.ts:387-458 | a full sync follows a probe if and only if it succeeded, its ticket is still that of the episode and nothing stands in its way; otherwise the attempt ends, blocked, deferred or by the outcome of the slow probe, with what that means for a current episode |
| MobileRecovery.MobileSyncRecovery.FullCompleted | src/sync/mobile-recovery.ts:152-165 | a successful full sync closes the episode exactly when it is still current |
| MobileRecoverySafety.OutcomeDecides | src/sync/mobile-recovery.ts:428-458 | what each outcome of a current attempt makes of the episode and its next timer, and that no other attempt decides anything |
| MobileRecoverySafety.ContextChangesCancel | src/sync/mobile-recovery.ts:266-310 | whatever comes first after another connection, a prohibition or a disabling cancels the episode with its retries, and nothing else does but disposal; an open manual request is answered then, and kept when only automatic recovery was disabled |
| MobileRecoverySafety.HintIsExact | src/sync/mobile-recovery.ts:168-201 | the episode, ticket and timer after any hint |
| MobileRecoverySafety.EveryRunIsValid | src/sync/mobile-recovery.ts:310-459 | in every run: no timer beside a running attempt or before the deadline, at most three retries and slow probing only after them, each manual request answered exactly once and in order, nothing left after disposal |
| MobileRecoverySafety.NotifiedWorkIsScheduled | src/sync/mobile-recovery.ts:203-223 | after an activity notification eligible work, automatic or manual, has a timer or a running attempt |
| MobileRecoverySafety.NewerEpisodeSurvives | src/sync/mobile-recovery.ts:152-165 | an episode opened after a full sync or an attempt began is neither cleared by that full nor changed by that attempt |
| MobileRecoverySafety.HintsKeepDeadline | src/sync/mobile-recovery.ts:167-223 | any sequence of hints, notifications, heartbeats and manual requests, with the app hidden and shown in between, leaves an open episode's deadline and retries alone before slow probing unless it is cancelled |
| MobileRecoverySafety.SteadyHintsKeepDeadline | src/sync/mobile-recovery.ts:167-223 | it is not cancelled as long as the connection stays the same and recovery stays allowed and enabled |
| MobileRecoverySafety.WakeNeverDelays | src/sync/mobile-recovery.ts:187-198 | no hint moves an open episode's deadline later without cancelling the episode |
| ReadTransport.RemoteReadTransport.Dispatch | src/api/read-transport.ts:154-183 | permits go to each pool first come first served, within its limit, and no waiter that could have one is left |
| ReadTransport.RemoteReadTransport.Request | src/api/read-transport.ts:51-75 | a new request joins the end of its pool and the queue is served |
| ReadTransport.RemoteReadTransport.AdmissionStops | src/api/read-transport.ts:84-95 | a stopped wait gives up its place, the others keeping their order, or its permit if it was already granted |
| ReadTransport.RemoteReadTransport.Release | src/api/read-transport.ts:169-181 | a grant is released once and serves the waiters; releasing it again does nothing |
| ReadTransport.RemoteReadTransport.Admitted | src/api/read-transport.ts:96-126 | with a clock that does not go back, an admitted request reads exactly when its budget is left and otherwise returns its permit and serves the waiters; an `execute` that throws keeps it for good |
| ReadTransport.LostPermitStarves | src/api/read-transport.ts:96-127 | with one permit, an `execute` that throws takes it for good: the next read stays queued, and no call returns a lost permit |
| ReadTransport.RemoteReadTransport.NativeSettles | src/api/read-transport.ts:107-127 | the permit of a read returns when the native read settles and serves the waiters |
| ReadTransport.RemoteReadTransport.CallerStops | src/api/read-transport.ts:128-151 | a caller that stops waiting changes no permit |
| ReadTransport.TakeOne | src/api/read-transport.ts:155-163 | serving a waiter behind a full pool serves the first of its own pool and leaves the other pool's order alone |
| TreeTraversal.Traversal.Dispatch | src/api/yandex-client.ts:851-907 | starts waiting directories in order while slots are free and nothing has failed, and settles exactly when nothing is active |
| TreeTraversal.Traversal.Deliver | src/api/yandex-client.ts:864-879 | keeps the files of a listing and appends each newly seen directory to the queue once, in the order listed |
| TreeTraversal.Traversal.Fail | src/api/yandex-client.ts:880-890 | a failed listing stops all further starts |
| TreeTraversal.Traversal.Close | src/api/yandex-client.ts:891-894 | the end of a listing frees its slot and dispatches |
| TreeTraversal.SuccessIsComplete | src/api/yandex-client.ts:828-919 | a traversal that succeeds has listed exactly the reachable directories, each once, and returns exactly their files |
| DirectoryPaging.ReadDirectoryPageSet | src/api/yandex-client.ts:928-1155 | against any server a directory listing returns normally only after accepting exactly the declared total of items, fails only at the first response with a flaw, always terminates, and remembers exactly the accepted directories with their ancestors |
| DirectoryPaging.ListingIsExact | src/api/yandex-client.ts:1078-1154 | the accepted items are valid with pairwise distinct paths; returned are, in order and once each, the files that the inspection accepts and the directories to descend into, without an inspection all files and all unprotected directories |
| DirectoryPaging.TakePage | src/api/yandex-client.ts:1107-1148 | a page is taken if and only if all its items are valid and new, also among themselves |
| DirectoryPaging.AcceptedIsDirectChild | src/api/yandex-client.ts:1107-1131 | in every directory, the root of the disk included, an accepted item lies directly in it under its own name if and only if that name has no backslash |
| DirectoryPaging.BackslashIsAccepted | src/api/yandex-client.ts:1107-1131 | a file named like two segments joined by a backslash is accepted in any directory under the path one level further down |
| FolderCache.Folders.Remember | src/api/yandex-client.ts:317-327 | remembering a folder adds it with its ancestors and keeps the cache ancestor-closed |
| FolderCache.Folders.Invalidate | src/api/yandex-client.ts:329-340 | invalidation forgets exactly the folder and what lies below it, and keeps the cache ancestor-closed |
| FolderCache.Folders.EnsureFoldersExist | src/api/yandex-client.ts:1204-1267 | every missing folder is requested after its ancestors are provided for, a failure is the last request, success leaves every prefix known, and nothing else is known afterwards than before but the folders requested with success and their ancestors |
| MetadataBatch.Arrange | src/api/yandex-client.ts:712-735 | the task order loses and doubles no path and puts the first path of each batched parent in front; the leading and the remaining paths each keep the order of their first occurrence |
| MetadataBatch.BatchedIff | src/api/yandex-client.ts:690-735 | a parent is listed as a whole if and only if more distinct requested paths lie below it, none of them observed, than its listing has pages |
| MetadataBatch.Collection.Start | src/api/yandex-client.ts:735-765 | a task uses an observation, joins the single listing of its parent when that is cheaper, or reads its own path |
| MetadataBatch.Collection.UseListing | src/api/yandex-client.ts:766-771 | what a listing lacks is read by its own path, never taken as absent |
| MetadataBatch.CollectionRefinesReads | src/api/yandex-client.ts:663-793 | a completed collection reports each distinct path exactly once with what its own GET returns, and lists no parent twice or without need |
| Coordinator.SyncCoordinator.DoRun | src/sync/coordinator.ts:65-98 | while a full session is unsettled every full request shares it and starts nothing, any other request starts one session, and pending work counts the unsettled |
| Coordinator.SyncCoordinator.StartBody | src/sync/coordinator.ts:117-130 | without early rejections a body starts alone and after all that were queued before it |
| Coordinator.SyncCoordinator.Resume | src/sync/coordinator.ts:133-183 | no other session is touched; without early rejections the active session is the one in its body, its task, fulfilled and rejected settlement and exits are as many as the awaits that have ended call for, and a session that is over has run its task exactly once if entered and settles as its body ended |
| CoordinatorSafety.BodiesNeverOverlap | src/sync/coordinator.ts:100-190 | when no `onQueued` fails ahead of its turn, session bodies exclude each other, run in enqueue order, and the active session is the one in its body |
| CoordinatorSafety.OverlapIff | src/sync/coordinator.ts:116-190 | over every trace, bodies can come to overlap at some point of it without a further early rejection if and only if some `onQueued` in it has rejected ahead of its turn |
| CoordinatorSafety.EarlyFailureLeadsToOverlap | src/sync/coordinator.ts:116-117 | from every state without early rejections so far, one such rejection is enough: the first unsettled session and the one behind the rejected can both enter their bodies |
| CoordinatorSafety.EarlyFailureOverlaps | src/sync/coordinator.ts:116-117 | a run in which an early rejection lets two bodies overlap |
| CoordinatorSafety.FullRequestsShare | src/sync/coordinator.ts:70-96 | in every run pending work counts the unsettled runs and all full requests made while one is unsettled share it |
| CoordinatorSafety.EnteredSessionsExitOnce | src/sync/coordinator.ts:131-183 | without early rejections a session settles at most once, and has exited exactly once if entered, or twice if the exit hook of its failure threw |
| CoordinatorSafety.SessionFollowsAwaits | src/sync/coordinator.ts:131-184 | over every trace without early rejections: a session that is over started its task exactly once if its enter hook succeeded; it was settled as fulfilled only after the task returned; a failed hook or task was followed by exactly one rejected settlement |
| CoordinatorSafety.FailedExitExitsTwice | src/sync/coordinator.ts:169-178 | a trace in which the exit hook of a failed session throws and is called again |

## Left out

- The transition controller's objects (transition, index maintenance, action queue) are values of the state machine, not
  objects updated in place; aliasing between them is not modelled.
- Uploads of a transition take effect when they are sent; an upload that lands after a crash and a finished rollback is not
  modelled, while late DELETEs are.
- Recovery reads the manifest and the canonical index as one step; changes by other devices between the two reads are not
  modelled.
- The replacement branch of the transition itself (reference files, epoch adoption) and the repair and stamping details of
  `verifyReplacementTargets`: a pass only learns whether something was repaired.
- A DELETE that is still in flight from an earlier transition when the next one begins.
- PluginDataLoader.AssertCurrentTransition: records of an authoritative replacement (its scope, reference files and
  deletions) and surplus keys of a stored record, because the model covers guarded transitions as typed records.
- PersistenceSafety.IdleDataIsStored: stated for a storage that has written nothing when it rejects at once; what any other
  storage holds is said by `PersistenceSafety.IdleStorage`.
- TransitionRecovery.UninterruptedRecoveryConverges: for one device only; a foreign device may by design leave a state in
  which recovery refuses to continue.
- DirectoryPaging.ReadDirectoryPageSet: the retry of a request without the field projection is part of the server's answer.
- FolderCache.Folders.EnsureFoldersExist: folders of one depth are requested one after another, and no other operation
  changes the cache meanwhile.
- TreeTraversal.SuccessIsComplete: the final sort by locale is not modelled; ties of the planner's depth sort are left open.
- Foreign recovery as a procedure of its own (`createRemoteTargetRecoveryPlan`, `completeRemoteTarget`): other devices appear
  through the steps they may take.
- Codecs derived for the running plugin (`createCodec`), messages, logging and presentation.
- AES-GCM, AES-SIV, key derivation and JSON text are inverse pairs or structured values; HTTP, Yandex error bodies, jitter
  and wall-clock values are inputs. A JSON number with a fraction is only ever rejected, so its value is not kept.
- The canonical manager, conflict resolver, watcher, Force workflow, scheduler, sign-in flow and stable 1.x import.
- `isReplacementSubtree`: its soundness depends on the filter matching, which is a parameter here.
