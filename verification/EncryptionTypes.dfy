/** The records that an encryption transition keeps on the device, in the canonical index and in the manifest. */
module EncryptionTypes {
  import opened Basics

  datatype Kind = Enable | Disable | Rotate
  datatype Phase = Prepared | FilesCopied | IndexCommitted | Stable | Cleanup

  /** `LocalEncryptionSnapshot`; `hardened` is `profileId === "hardened"`, its only other value being null. */
  datatype Snapshot = Snapshot(
    enabled: bool, salt: Option<string>, password: Option<string>, revision: Option<int>, hardened: bool)

  /** `EncryptionModeDescriptor`: the secret-free form of a snapshot. */
  datatype Mode = Mode(enabled: bool, revision: Option<int>, salt: Option<string>, verifier: Option<string>)

  datatype ManifestState = Enabled | Enabling | Rotating | Disabling

  datatype Descriptor = Descriptor(
    id: string, phase: Phase, sourceRevision: Option<int>, targetRevision: Option<int>, initiatedBy: string,
    source: Mode, target: Mode, sourceHardened: bool, targetHardened: bool)

  datatype Manifest = Manifest(
    state: ManifestState, revision: int, salt: string, verifier: string, updatedAt: int, updatedBy: string,
    transition: Option<Descriptor>)

  /** What identifies a local transition: it never changes while the transition lives. */
  datatype Claim = Claim(id: string, kind: Kind, source: Snapshot, target: Snapshot, sourceCanonicalRevision: int)

  /** `EncryptionBackupProof`: the archive that was made before the transition began. */
  datatype BackupProof = BackupProof(
    path: string, sha256: string, epoch: string, canonicalRevision: int, localSnapshotDigest: string, createdAt: int)

  /** The maintenance record of the canonical index, without its cleanup list. */
  datatype Authority = Authority(
    id: string, kind: Kind, phase: Phase, initiatedBy: string, sourceRevision: int, targetRevision: Option<int>,
    source: Mode, target: Mode)

  const PLAINTEXT_MODE := Mode(false, None, None, None)
  predicate SafeInteger(n: int) { -MAX_SAFE_INTEGER <= n <= MAX_SAFE_INTEGER }

  function ExpectedState(kind: Kind): ManifestState {
    match kind case Enable => Enabling case Rotate => Rotating case Disable => Disabling
  }

  /** `snapshotMatchesMode` and `snapshotMatchesModeDescriptor`. */
  predicate SnapshotMatches(snapshot: Snapshot, mode: Mode) {
    && snapshot.enabled == mode.enabled
    && snapshot.revision == mode.revision
    && snapshot.salt == mode.salt
    && snapshot.hardened == mode.enabled
  }

  predicate Precedes(a: Option<int>, b: Option<int>) {
    (if a.Some? then a.value else 0) < (if b.Some? then b.value else 0)
  }

  /** The mode pair belongs to the kind (`assertModePair`). */
  predicate ModePair(kind: Kind, source: Mode, target: Mode) {
    match kind
    case Enable => !source.enabled && target.enabled
    case Disable => source.enabled && !target.enabled
    case Rotate => source.enabled && target.enabled && Precedes(source.revision, target.revision)
                   && target.salt != source.salt && target.verifier != source.verifier
  }
}
