/** src/crypto/encryption-manager.ts and src/crypto/manifest-schema.ts: the manifest as written and as read. */
module ManifestSchema {
  import opened Basics
  import opened EncryptionTypes
  import Base64

  /** The property names the schema knows, and every other name. */
  datatype Key =
    | KEnabled | KRevision | KSalt | KVerifier
    | KId | KPhase | KSourceRevision | KTargetRevision | KInitiatedBy | KSource | KTarget
    | KSourceProfileId | KTargetProfileId
    | KFormat | KProfileId | KState | KKdf | KKeySchedule | KCipher | KFilenameCipher | KUpdatedAt | KUpdatedBy | KTransition
    | KName | KHash | KIterations | KKeyLength | KIvLength | KEncoding | KAad
    | KOther(name: string)

  // JSON values. A fractional number is only ever rejected, so its value is not kept.

  datatype Json =
    JNull | JBool(flag: bool) | JInt(n: int) | JFraction | JStr(text: string) | JArr(items: seq<Json>)
    | JObj(fields: map<Key, Json>)

  /** Canonical Base64 of a bounded number of bytes; `Base64OfIsChecked` relates it to the check of the source. */
  predicate Base64Of(value: string, minimum: nat, maximum: nat) {
    Base64.CanonicalText(value) && minimum <= Base64.ByteCount(value) <= maximum
  }

  /** `assertManifestBase64`: the value decodes to a permitted number of bytes that encode back to it. */
  lemma Base64OfIsChecked(value: string, minimum: nat, maximum: nat)
    ensures Base64Of(value, minimum, maximum) <==>
      match Base64.Atob(value)
      case None => false
      case Some(bytes) => minimum <= |bytes| <= maximum && Base64.Btoa(bytes) == value
  {
    Base64.CanonicalTextDecodes(value);
  }

  // Writing.

  function NullableInt(n: Option<int>): Json { if n.None? then JNull else JInt(n.value) }
  function NullableStr(s: Option<string>): Json { if s.None? then JNull else JStr(s.value) }
  function ProfileJson(hardened: bool): Json { if hardened then JStr("hardened") else JNull }

  function PhaseText(phase: Phase): string {
    match phase
    case Prepared => "prepared" case FilesCopied => "files-copied" case IndexCommitted => "index-committed"
    case Stable => "stable" case Cleanup => "cleanup"
  }

  function StateText(state: ManifestState): string {
    match state
    case Enabled => "enabled" case Enabling => "enabling" case Rotating => "rotating" case Disabling => "disabling"
  }

  function ModeJson(m: Mode): Json {
    JObj(map[KEnabled := JBool(m.enabled), KRevision := NullableInt(m.revision),
             KSalt := NullableStr(m.salt), KVerifier := NullableStr(m.verifier)])
  }

  function DescriptorJson(d: Descriptor): Json {
    JObj(map[KId := JStr(d.id), KPhase := JStr(PhaseText(d.phase)),
             KSourceRevision := NullableInt(d.sourceRevision), KTargetRevision := NullableInt(d.targetRevision),
             KInitiatedBy := JStr(d.initiatedBy), KSource := ModeJson(d.source), KTarget := ModeJson(d.target),
             KSourceProfileId := ProfileJson(d.sourceHardened), KTargetProfileId := ProfileJson(d.targetHardened)])
  }

  const KDF := JObj(map[KName := JStr("PBKDF2"), KHash := JStr("SHA-256"), KIterations := JInt(600000)])
  const KEY_SCHEDULE := JObj(map[KName := JStr("HKDF"), KHash := JStr("SHA-256")])
  const CIPHER := JObj(map[KName := JStr("AES-GCM"), KKeyLength := JInt(256), KIvLength := JInt(12)])
  const FILENAME_CIPHER := JObj(map[KName := JStr("AES-SIV"), KKeyLength := JInt(512),
    KEncoding := JStr("base64url"), KAad := JStr("obsidian-yandex-disk-sync:filename")])
  const FORMAT := "encryption-manifest"

  const REQUIRED_KEYS := {KFormat, KProfileId, KState, KRevision, KSalt, KVerifier, KKdf, KKeySchedule,
    KCipher, KFilenameCipher, KUpdatedAt, KUpdatedBy}

  function ToJson(m: Manifest): Json {
    JObj(if m.transition.None? then CommonFields(m) else CommonFields(m)[KTransition := DescriptorJson(m.transition.value)])
  }

  function CommonFields(m: Manifest): map<Key, Json> {
    map[KFormat := JStr(FORMAT), KProfileId := JStr("hardened"), KState := JStr(StateText(m.state)),
      KRevision := JInt(m.revision), KSalt := JStr(m.salt), KVerifier := JStr(m.verifier), KKdf := KDF,
      KKeySchedule := KEY_SCHEDULE, KCipher := CIPHER, KFilenameCipher := FILENAME_CIPHER,
      KUpdatedAt := JInt(m.updatedAt), KUpdatedBy := JStr(m.updatedBy)]
  }

  // Reading.

  predicate IsNullableInt(j: Json) { j.JNull? || (j.JInt? && SafeInteger(j.n)) }
  predicate IsNullableStr(j: Json) { j.JNull? || j.JStr? }
  function IntOf(j: Json): Option<int> { if j.JInt? then Some(j.n) else None }
  function StrOf(j: Json): Option<string> { if j.JStr? then Some(j.text) else None }

  /** The descriptor values a reader accepts: complete when encrypted, empty when plaintext. */
  predicate ValidMode(m: Mode) {
    if m.enabled then
      && m.revision.Some? && 1 <= m.revision.value <= MAX_SAFE_INTEGER
      && m.salt.Some? && m.salt.value != "" && Base64Of(m.salt.value, 16, 16)
      && m.verifier.Some? && m.verifier.value != "" && Base64Of(m.verifier.value, 28, 4096)
    else m == PLAINTEXT_MODE
  }

  function ParseMode(j: Json): Option<Mode> {
    if !j.JObj? || j.fields.Keys != {KEnabled, KRevision, KSalt, KVerifier} then None
    else
      var f := j.fields;
      if !f[KEnabled].JBool? || !IsNullableInt(f[KRevision]) || !IsNullableStr(f[KSalt])
         || !IsNullableStr(f[KVerifier]) then None
      else
        var mode := Mode(f[KEnabled].flag, IntOf(f[KRevision]), StrOf(f[KSalt]), StrOf(f[KVerifier]));
        if ValidMode(mode) then Some(mode) else None
  }

  function ParsePhase(j: Json): Option<Phase> {
    if !j.JStr? then None
    else if j.text == "prepared" then Some(Prepared)
    else if j.text == "files-copied" then Some(FilesCopied)
    else if j.text == "index-committed" then Some(IndexCommitted)
    else if j.text == "stable" then Some(Stable)
    else if j.text == "cleanup" then Some(Cleanup)
    else None
  }

  function ParseState(j: Json): Option<ManifestState> {
    if !j.JStr? then None
    else if j.text == "enabled" then Some(Enabled)
    else if j.text == "enabling" then Some(Enabling)
    else if j.text == "rotating" then Some(Rotating)
    else if j.text == "disabling" then Some(Disabling)
    else None
  }

  /** null or "hardened" */
  function ParseProfile(j: Json): Option<bool> {
    if j.JNull? then Some(false) else if j == JStr("hardened") then Some(true) else None
  }

  predicate ValidRevision(j: Json) { j.JNull? || (j.JInt? && 1 <= j.n <= MAX_SAFE_INTEGER) }

  function ParseDescriptor(j: Json): Option<Descriptor> {
    if !j.JObj? || j.fields.Keys != {KId, KPhase, KSourceRevision, KTargetRevision, KInitiatedBy, KSource,
         KTarget, KSourceProfileId, KTargetProfileId} then None
    else
      var f := j.fields;
      if !f[KId].JStr? || f[KId].text == "" || !f[KInitiatedBy].JStr? || f[KInitiatedBy].text == ""
         || !ValidRevision(f[KSourceRevision]) || !ValidRevision(f[KTargetRevision]) then None
      else match (ParsePhase(f[KPhase]), ParseMode(f[KSource]), ParseMode(f[KTarget]),
                  ParseProfile(f[KSourceProfileId]), ParseProfile(f[KTargetProfileId]))
           case (Some(phase), Some(source), Some(target), Some(sourceHardened), Some(targetHardened)) =>
             if source.enabled == sourceHardened && target.enabled == targetHardened
                && source.revision == IntOf(f[KSourceRevision]) && target.revision == IntOf(f[KTargetRevision])
             then Some(Descriptor(f[KId].text, phase, source.revision, target.revision, f[KInitiatedBy].text,
                                  source, target, sourceHardened, targetHardened))
             else None
           case _ => None
  }

  function KindOf(state: ManifestState): Option<Kind> {
    match state case Enabled => None case Enabling => Some(Enable) case Rotating => Some(Rotate) case Disabling => Some(Disable)
  }

  /** State, transition and top-level key agree. */
  predicate Coherent(m: Manifest) {
    match KindOf(m.state)
    case None => m.transition.None?
    case Some(kind) =>
      m.transition.Some? &&
      var d := m.transition.value;
      var declared := if kind == Disable then d.source else d.target;
      && ModePair(kind, d.source, d.target)
      && m.updatedBy == d.initiatedBy
      && declared.revision == Some(m.revision) && declared.salt == Some(m.salt) && declared.verifier == Some(m.verifier)
  }

  predicate KnownKeys(f: map<Key, Json>) { REQUIRED_KEYS <= f.Keys <= REQUIRED_KEYS + {KTransition} }

  /** The format and every algorithm constant are the only supported ones. */
  predicate SupportedProfile(f: map<Key, Json>)
    requires KnownKeys(f)
  {
    && f[KFormat] == JStr(FORMAT) && f[KProfileId] == JStr("hardened")
    && f[KKdf] == KDF && f[KKeySchedule] == KEY_SCHEDULE && f[KCipher] == CIPHER && f[KFilenameCipher] == FILENAME_CIPHER
  }

  predicate ValidScalars(f: map<Key, Json>)
    requires KnownKeys(f)
  {
    && f[KSalt].JStr? && f[KSalt].text != "" && Base64Of(f[KSalt].text, 16, 16)
    && f[KVerifier].JStr? && f[KVerifier].text != "" && Base64Of(f[KVerifier].text, 28, 4096)
    && f[KRevision].JInt? && 1 <= f[KRevision].n <= MAX_SAFE_INTEGER
    && f[KUpdatedAt].JInt? && 0 <= f[KUpdatedAt].n <= MAX_SAFE_INTEGER
    && f[KUpdatedBy].JStr? && f[KUpdatedBy].text != ""
  }

  function ParseManifest(j: Json): Option<Manifest> {
    if !j.JObj? || !KnownKeys(j.fields) || !SupportedProfile(j.fields) || !ValidScalars(j.fields) then None
    else
      var f := j.fields;
      var transition := if KTransition in f then ParseDescriptor(f[KTransition]) else None;
      match ParseState(f[KState])
      case None => None
      case Some(state) =>
        var m := Manifest(state, f[KRevision].n, f[KSalt].text, f[KVerifier].text, f[KUpdatedAt].n,
                          f[KUpdatedBy].text, transition);
        if (KTransition in f && transition.None?) || !Coherent(m) then None else Some(m)
  }

  // Building a manifest from a transition.

  /** The publication request; `verifies` and `freshVerifier` are the key service's answers. */
  datatype Publication = Publication(
    verifies: string -> bool, freshVerifier: string, salt: string, state: ManifestState, revision: int,
    deviceId: string, updatedAt: int, transition: Option<Claim>, maintenance: Option<Authority>)

  /** `createManifest` */
  function CreateManifest(p: Publication): Option<Manifest> {
    match p.transition
    case None =>
      Some(Manifest(p.state, p.revision, p.salt, p.freshVerifier, p.updatedAt, p.deviceId, None))
    case Some(claim) =>
      if p.maintenance.None? then None
      else
        var m := p.maintenance.value;
        var declared := if p.state == Disabling then m.source else m.target;
        if p.state != ExpectedState(claim.kind) || m.id != claim.id || m.kind != claim.kind
           || m.initiatedBy != p.deviceId || m.sourceRevision != claim.sourceCanonicalRevision
           || !SnapshotMatches(claim.source, m.source) || !SnapshotMatches(claim.target, m.target) then None
        else if declared.verifier.None? || declared.verifier.value == "" || !p.verifies(declared.verifier.value)
           || !declared.enabled || declared.salt != Some(p.salt) || declared.revision != Some(p.revision) then None
        else
          Some(Manifest(p.state, p.revision, p.salt, declared.verifier.value, p.updatedAt, p.deviceId,
            Some(Descriptor(claim.id, m.phase, claim.source.revision, claim.target.revision, p.deviceId,
                            m.source, m.target, claim.source.hardened, claim.target.hardened))))
  }

  // What the writer writes the reader accepts, and nothing else.

  predicate WellFormedDescriptor(d: Descriptor) {
    && d.id != "" && d.initiatedBy != "" && ValidMode(d.source) && ValidMode(d.target)
    && d.source.revision == d.sourceRevision && d.target.revision == d.targetRevision
    && d.source.enabled == d.sourceHardened && d.target.enabled == d.targetHardened
  }

  predicate WellFormed(m: Manifest) {
    && m.salt != "" && Base64Of(m.salt, 16, 16) && m.verifier != "" && Base64Of(m.verifier, 28, 4096)
    && 1 <= m.revision <= MAX_SAFE_INTEGER && 0 <= m.updatedAt <= MAX_SAFE_INTEGER && m.updatedBy != ""
    && (m.transition.Some? ==> WellFormedDescriptor(m.transition.value))
    && Coherent(m)
  }

  lemma ModeRoundTrip(m: Mode)
    ensures ParseMode(ModeJson(m)) == if ValidMode(m) then Some(m) else None
  {
    hide Base64Of;
    var f := ModeJson(m).fields;
    assert f.Keys == {KEnabled, KRevision, KSalt, KVerifier};
  }

  lemma ModeIsWritten(j: Json)
    requires ParseMode(j).Some?
    ensures j == ModeJson(ParseMode(j).value) && ValidMode(ParseMode(j).value)
  {
    hide Base64Of;
    assert j.fields == ModeJson(ParseMode(j).value).fields;
  }

  lemma DescriptorRoundTrip(d: Descriptor)
    ensures ParseDescriptor(DescriptorJson(d)) == if WellFormedDescriptor(d) then Some(d) else None
  {
    hide Base64Of;
    ModeRoundTrip(d.source);
    ModeRoundTrip(d.target);
    assert ParsePhase(JStr(PhaseText(d.phase))) == Some(d.phase);
  }

  lemma DescriptorIsWritten(j: Json)
    requires ParseDescriptor(j).Some?
    ensures j == DescriptorJson(ParseDescriptor(j).value) && WellFormedDescriptor(ParseDescriptor(j).value)
  {
    hide Base64Of;
    ModeIsWritten(j.fields[KSource]);
    ModeIsWritten(j.fields[KTarget]);
    assert j.fields == DescriptorJson(ParseDescriptor(j).value).fields;
  }

  lemma StateRoundTrip(state: ManifestState)
    ensures ParseState(JStr(StateText(state))) == Some(state)
  {}

  lemma CommonKeys(m: Manifest)
    ensures CommonFields(m).Keys == REQUIRED_KEYS
  {
    hide StateText, KDF, KEY_SCHEDULE, CIPHER, FILENAME_CIPHER, FORMAT;
  }

  lemma WrittenFields(m: Manifest)
    ensures ToJson(m).JObj?
    ensures var f := ToJson(m).fields;
      && KnownKeys(f) && SupportedProfile(f) && (KTransition in f <==> m.transition.Some?)
      && f[KState] == JStr(StateText(m.state)) && f[KRevision] == JInt(m.revision) && f[KSalt] == JStr(m.salt)
      && f[KVerifier] == JStr(m.verifier) && f[KUpdatedAt] == JInt(m.updatedAt) && f[KUpdatedBy] == JStr(m.updatedBy)
      && (m.transition.Some? ==> f[KTransition] == DescriptorJson(m.transition.value))
  {
    hide StateText, DescriptorJson, KDF, KEY_SCHEDULE, CIPHER, FILENAME_CIPHER, FORMAT;
    CommonKeys(m);
  }

  /** Every well-formed manifest reads back as itself, and every other manifest is refused. */
  lemma ManifestRoundTrip(m: Manifest)
    ensures ParseManifest(ToJson(m)) == if WellFormed(m) then Some(m) else None
  {
    hide Base64Of, ParseDescriptor, DescriptorJson, WellFormedDescriptor, Coherent, ParseState, StateText,
      SupportedProfile, ToJson;
    WrittenFields(m);
    StateRoundTrip(m.state);
    if m.transition.Some? { DescriptorRoundTrip(m.transition.value); }
  }

  lemma StateIsWritten(j: Json)
    requires ParseState(j).Some?
    ensures j == JStr(StateText(ParseState(j).value))
  {}

  lemma SameFields(f: map<Key, Json>, g: map<Key, Json>)
    requires KnownKeys(f) && KnownKeys(g) && f.Keys == g.Keys && SupportedProfile(f) && SupportedProfile(g)
    requires f[KState] == g[KState] && f[KRevision] == g[KRevision] && f[KSalt] == g[KSalt]
    requires f[KVerifier] == g[KVerifier] && f[KUpdatedAt] == g[KUpdatedAt] && f[KUpdatedBy] == g[KUpdatedBy]
    requires KTransition in f ==> f[KTransition] == g[KTransition]
    ensures f == g
  {
    hide KDF, KEY_SCHEDULE, CIPHER, FILENAME_CIPHER, FORMAT;
  }

  /** The reader accepts no other spelling: an accepted value is the written form of what was read. */
  lemma ParsedIsWritten(j: Json)
    requires ParseManifest(j).Some?
    ensures j == ToJson(ParseManifest(j).value) && WellFormed(ParseManifest(j).value)
  {
    hide Base64Of, ParseDescriptor, DescriptorJson, WellFormedDescriptor, Coherent, ParseState, StateText,
      SupportedProfile, ToJson;
    var m := ParseManifest(j).value;
    WrittenFields(m);
    StateIsWritten(j.fields[KState]);
    if KTransition in j.fields { DescriptorIsWritten(j.fields[KTransition]); }
    assert j.fields.Keys == ToJson(m).fields.Keys;
    SameFields(j.fields, ToJson(m).fields);
  }

  // What a readable manifest says, told from its fields alone.

  /** Standard Base64 that re-encodes to itself and holds so many bytes. */
  predicate Bytes(text: string, minimum: nat, maximum: nat) {
    match Base64.Atob(text)
    case None => false
    case Some(bytes) => minimum <= |bytes| <= maximum && Base64.Btoa(bytes) == text
  }

  /** An encrypted mode with its revision, its salt of 16 bytes and its verifier. */
  predicate Complete(mode: Mode, hardened: bool, revision: Option<int>) {
    && mode.enabled && hardened && revision == mode.revision
    && match (mode.revision, mode.salt, mode.verifier)
       case (Some(r), Some(salt), Some(verifier)) =>
         1 <= r <= MAX_SAFE_INTEGER && Bytes(salt, 16, 16) && Bytes(verifier, 28, 4096)
       case _ => false
  }

  predicate Plaintext(mode: Mode, hardened: bool, revision: Option<int>) {
    && !mode.enabled && mode.revision.None? && mode.salt.None? && mode.verifier.None?
    && !hardened && revision.None?
  }

  /** The key of the manifest is the key of the mode. */
  predicate Declares(m: Manifest, mode: Mode) {
    mode.revision == Some(m.revision) && mode.salt == Some(m.salt) && mode.verifier == Some(m.verifier)
  }

  /** A stable manifest has no transition. Encrypting declares the target's key and decrypting the source's, the other
      mode being plaintext; rotating declares the target's, which is newer than the source's and shares neither salt nor
      verifier with it. The device that publishes is the one that initiated. */
  predicate Readable(m: Manifest) {
    && Bytes(m.salt, 16, 16) && Bytes(m.verifier, 28, 4096) && 1 <= m.revision <= MAX_SAFE_INTEGER
    && 0 <= m.updatedAt <= MAX_SAFE_INTEGER && m.updatedBy != ""
    && match m.transition
       case None => m.state == Enabled
       case Some(d) =>
         && d.id != "" && d.initiatedBy == m.updatedBy
         && match m.state
            case Enabled => false
            case Enabling =>
              Plaintext(d.source, d.sourceHardened, d.sourceRevision) && Complete(d.target, d.targetHardened, d.targetRevision)
              && Declares(m, d.target)
            case Disabling =>
              Complete(d.source, d.sourceHardened, d.sourceRevision) && Plaintext(d.target, d.targetHardened, d.targetRevision)
              && Declares(m, d.source)
            case Rotating =>
              Complete(d.source, d.sourceHardened, d.sourceRevision) && Complete(d.target, d.targetHardened, d.targetRevision)
              && Declares(m, d.target) && d.source.revision.value < m.revision
              && d.source.salt != Some(m.salt) && d.source.verifier != Some(m.verifier)
  }

  lemma BytesIff(text: string)
    ensures Bytes(text, 16, 16) <==> text != "" && Base64Of(text, 16, 16)
    ensures Bytes(text, 28, 4096) <==> text != "" && Base64Of(text, 28, 4096)
  {
    assert Base64.Atob("") == Some([]);
    hide Base64Of, Base64.Atob, Base64.Btoa;
    Base64OfIsChecked(text, 16, 16);
    Base64OfIsChecked(text, 28, 4096);
  }

  lemma ModeIff(mode: Mode, hardened: bool, revision: Option<int>)
    ensures ValidMode(mode) && mode.enabled == hardened && mode.revision == revision <==>
      Complete(mode, hardened, revision) || Plaintext(mode, hardened, revision)
  {
    hide Base64Of, Bytes;
    if mode.salt.Some? { BytesIff(mode.salt.value); }
    if mode.verifier.Some? { BytesIff(mode.verifier.value); }
  }

  lemma WellFormedIff(m: Manifest)
    ensures WellFormed(m) <==> Readable(m)
  {
    hide Base64Of, Bytes, ValidMode;
    BytesIff(m.salt);
    BytesIff(m.verifier);
    if m.transition.Some? {
      var d := m.transition.value;
      ModeIff(d.source, d.sourceHardened, d.sourceRevision);
      ModeIff(d.target, d.targetHardened, d.targetRevision);
    }
  }

  /** A written manifest can be read exactly when it is readable so, and whatever has been read is. */
  lemma ReadableIff(m: Manifest, j: Json)
    ensures ParseManifest(ToJson(m)).Some? <==> Readable(m)
    ensures ParseManifest(j).Some? ==> Readable(ParseManifest(j).value)
  {
    hide Readable, WellFormed, ParseManifest, ToJson;
    ManifestRoundTrip(m);
    WellFormedIff(m);
    if ParseManifest(j).Some? {
      ParsedIsWritten(j);
      WellFormedIff(ParseManifest(j).value);
    }
  }

  /** The inputs under which a built manifest is readable. */
  predicate Publishable(p: Publication) {
    && p.deviceId != "" && 0 <= p.updatedAt <= MAX_SAFE_INTEGER
    && match p.transition
       case None =>
         && p.state == Enabled && 1 <= p.revision <= MAX_SAFE_INTEGER
         && p.salt != "" && Base64Of(p.salt, 16, 16) && p.freshVerifier != "" && Base64Of(p.freshVerifier, 28, 4096)
       case Some(claim) =>
         && claim.id != "" && p.maintenance.Some?
         && ValidMode(p.maintenance.value.source) && ValidMode(p.maintenance.value.target)
         && ModePair(claim.kind, p.maintenance.value.source, p.maintenance.value.target)
  }

  /** A built manifest parses back to itself exactly when it was built from publishable inputs. */
  lemma CreatedManifestParses(p: Publication)
    requires CreateManifest(p).Some?
    ensures ParseManifest(ToJson(CreateManifest(p).value)) ==
      if Publishable(p) then CreateManifest(p) else None
  {
    hide Base64Of, ParseManifest, ToJson;
    ManifestRoundTrip(CreateManifest(p).value);
  }

  /** The snapshot of the device is not the mode of the index. */
  predicate Differs(snapshot: Snapshot, mode: Mode) {
    || snapshot.enabled != mode.enabled || snapshot.salt != mode.salt || snapshot.revision != mode.revision
    || snapshot.hardened != mode.enabled
  }

  /** The key that the state declares is none of the service: another salt or revision, or a verifier that it does not
      authenticate. */
  predicate ForeignKey(p: Publication, mode: Mode) {
    || !mode.enabled || mode.salt != Some(p.salt) || mode.revision != Some(p.revision)
    || match mode.verifier case None => true case Some(v) => v == "" || !p.verifies(v)
  }

  /** The maintenance is that of another transition, device, source or mode, or the state that of another kind. */
  predicate Contradicts(p: Publication, claim: Claim, m: Authority) {
    || m.id != claim.id || m.kind != claim.kind || m.initiatedBy != p.deviceId
    || m.sourceRevision != claim.sourceCanonicalRevision || Differs(claim.source, m.source) || Differs(claim.target, m.target)
    || match claim.kind
       case Enable => !p.state.Enabling? || ForeignKey(p, m.target)
       case Rotate => !p.state.Rotating? || ForeignKey(p, m.target)
       case Disable => !p.state.Disabling? || ForeignKey(p, m.source)
  }

  /** What is built, and when it is refused: a transition needs its own maintenance and the key that the state
      declares; the manifest then carries that key, the phase and the modes of the maintenance. */
  lemma CreatedIsExact(p: Publication)
    ensures CreateManifest(p).None? <==>
      p.transition.Some? && (p.maintenance.None? || Contradicts(p, p.transition.value, p.maintenance.value))
    ensures CreateManifest(p).Some? ==>
      (var n := CreateManifest(p).value;
       && n.state == p.state && n.revision == p.revision && n.salt == p.salt && n.updatedAt == p.updatedAt && n.updatedBy == p.deviceId
       && match p.transition
          case None => n.transition == None && n.verifier == p.freshVerifier
          case Some(claim) =>
            var m := p.maintenance.value;
            && Some(n.verifier) == (if claim.kind.Disable? then m.source.verifier else m.target.verifier)
            && n.transition == Some(Descriptor(claim.id, m.phase, claim.source.revision, claim.target.revision, p.deviceId,
                                               m.source, m.target, claim.source.hardened, claim.target.hardened)))
  {}
}
