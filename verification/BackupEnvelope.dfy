/** src/backup/backup-envelope.ts: the encrypted archive frame
    `magic | header length, 4 bytes big-endian | header | ciphertext`. */
module BackupEnvelope {
  import opened Basics
  import Base64

  type Byte = Base64.Byte
  type Bytes = seq<Byte>

  const MAGIC: Bytes := [79, 89, 68, 83, 66, 75, 80, 33] // "OYDSBKP!"
  const HEADER_LENGTH_BYTES := 4
  const MAX_HEADER_LENGTH := 16 * 1024
  const SALT_LENGTH := 16
  const IV_LENGTH := 12
  const TAG_LENGTH := 16
  const ITERATIONS := 600000
  datatype BackupKind = LogicalVault | RemoteRaw
  datatype Metadata = Metadata(kind: BackupKind, createdAt: int, pluginVersion: string, fileCount: int)
  datatype Header = Header(metadata: Metadata, iterations: int, keyLength: int, salt: string, iv: string)
  datatype Opened = Opened(header: Header, content: Bytes)
  datatype EnvelopeError =
    HeaderTooLarge | Unsupported | Truncated | InvalidHeaderLength | InvalidHeader | InvalidSalt | InvalidIv | NotAuthentic

  /** The platform calls: JSON text of a header, and authenticated encryption under a password, salt and IV. */
  datatype Platform = Platform(
    encodeHeader: Header -> Bytes, decodeHeader: Bytes -> Option<Header>,
    encrypt: (string, Bytes, Bytes, Bytes, Bytes) -> Bytes,
    decrypt: (string, Bytes, Bytes, Bytes, Bytes) -> Option<Bytes>)
  {
    /** Decoding inverts encoding, decryption with the same parameters inverts encryption, the tag is appended. */
    ghost predicate Inverse() {
      && (forall h :: encodeHeader(h) != [] && decodeHeader(encodeHeader(h)) == Some(h))
      && (forall password, salt, iv, aad, content ::
            && decrypt(password, salt, iv, aad, encrypt(password, salt, iv, aad, content)) == Some(content)
            && |encrypt(password, salt, iv, aad, content)| == |content| + TAG_LENGTH)
    }
  }

  /** `parseHeader` accepts the decoded header. */
  predicate ValidHeader(h: Header) {
    && 0 <= h.metadata.createdAt <= MAX_SAFE_INTEGER
    && 1 <= |h.metadata.pluginVersion| <= 100
    && 0 <= h.metadata.fileCount <= MAX_SAFE_INTEGER
    && h.iterations == ITERATIONS
    && h.keyLength == 256
  }

  // The frame.

  function BigEndian32(n: int): Bytes
    requires 0 <= n < 0x1_0000_0000
  {
    [n / 0x100_0000, n / 0x1_0000 % 256, n / 256 % 256, n % 256]
  }

  function FromBigEndian32(b: Bytes): int
    requires |b| == 4
  {
    ((b[0] as int * 256 + b[1]) * 256 + b[2]) * 256 + b[3]
  }

  lemma BigEndianInverts(n: int)
    requires 0 <= n < 0x1_0000_0000
    ensures FromBigEndian32(BigEndian32(n)) == n
  {
    var a, b := n / 256, n / 0x1_0000;
    assert a == b * 256 + a % 256 && b == n / 0x100_0000 * 256 + b % 256;
    assert a / 256 == b;
  }

  lemma BigEndianOf(b: Bytes)
    requires |b| == 4
    ensures 0 <= FromBigEndian32(b) < 0x1_0000_0000 && BigEndian32(FromBigEndian32(b)) == b
    ensures FromBigEndian32(b) == b[0] as int * 0x100_0000 + b[1] as int * 0x1_0000 + b[2] as int * 0x100 + b[3] as int
  {
    var n := FromBigEndian32(b);
    assert n / 256 == (b[0] as int * 256 + b[1]) * 256 + b[2];
    assert n / 0x1_0000 == b[0] as int * 256 + b[1];
  }

  function Frame(header: Bytes, ciphertext: Bytes): Bytes
    requires |header| <= MAX_HEADER_LENGTH
  {
    MAGIC + BigEndian32(|header|) + header + ciphertext
  }

  /** `decodeSizedBase64`; `DecodeSizedIsChecked` relates it to the checks of the source. */
  function DecodeSized(value: string, expected: nat): Option<Bytes> {
    if Base64.CanonicalText(value) && Base64.ByteCount(value) == expected then Base64.Atob(value) else None
  }

  /** The value is decoded, has the expected number of bytes, and encodes back to itself. */
  lemma DecodeSizedIsChecked(value: string, expected: nat)
    ensures DecodeSized(value, expected) ==
      match Base64.Atob(value)
      case None => None
      case Some(bytes) => if |bytes| == expected && Base64.Btoa(bytes) == value then Some(bytes) else None
  {
    Base64.CanonicalTextDecodes(value);
  }

  function SealedHeader(metadata: Metadata, salt: Bytes, iv: Bytes): Header {
    Header(metadata, ITERATIONS, 256, Base64.Btoa(salt), Base64.Btoa(iv))
  }

  /** What opening a byte string yields, check by check. */
  function Open(p: Platform, data: Bytes, password: string): Result<Opened, EnvelopeError> {
    var start := |MAGIC| + HEADER_LENGTH_BYTES;
    if !(MAGIC <= data) then Failure(Unsupported)
    else if |data| < start then Failure(Truncated)
    else
      var length := FromBigEndian32(data[|MAGIC|..start]);
      if length == 0 || length > MAX_HEADER_LENGTH then Failure(InvalidHeaderLength)
      else if start + length + TAG_LENGTH > |data| then Failure(Truncated)
      else
        var headerBytes := data[start..start + length];
        match p.decodeHeader(headerBytes)
        case None => Failure(InvalidHeader)
        case Some(header) =>
          if !ValidHeader(header) then Failure(InvalidHeader)
          else match (DecodeSized(header.salt, SALT_LENGTH), DecodeSized(header.iv, IV_LENGTH))
               case (None, _) => Failure(InvalidSalt)
               case (_, None) => Failure(InvalidIv)
               case (Some(salt), Some(iv)) =>
                 match p.decrypt(password, salt, iv, headerBytes, data[start + length..])
                 case None => Failure(NotAuthentic)
                 case Some(content) => Success(Opened(header, content))
  }

  /** Copy bytes into a buffer, as `Uint8Array.set`. */
  method Put(buffer: array<Byte>, bytes: Bytes, offset: nat)
    requires offset + |bytes| <= buffer.Length
    modifies buffer
    ensures buffer[..] == old(buffer[..offset]) + bytes + old(buffer[offset + |bytes|..])
  {
    forall i | 0 <= i < |bytes| { buffer[offset + i] := bytes[i]; }
  }

  method SealBackupEnvelope(p: Platform, content: Bytes, password: string, metadata: Metadata, salt: Bytes, iv: Bytes)
    returns (result: Result<array<Byte>, EnvelopeError>)
    requires |salt| == SALT_LENGTH && |iv| == IV_LENGTH
    ensures result.Success? <==> |p.encodeHeader(SealedHeader(metadata, salt, iv))| <= MAX_HEADER_LENGTH
    ensures result.Success? ==> fresh(result.value)
    ensures result.Success? ==>
              var header := p.encodeHeader(SealedHeader(metadata, salt, iv));
              result.value[..] == Frame(header, p.encrypt(password, salt, iv, header, content))
  {
    var header := p.encodeHeader(SealedHeader(metadata, salt, iv));
    if |header| > MAX_HEADER_LENGTH { return Failure(HeaderTooLarge); }
    var ciphertext := p.encrypt(password, salt, iv, header, content);
    var buffer := new Byte[|MAGIC| + HEADER_LENGTH_BYTES + |header| + |ciphertext|];
    Put(buffer, MAGIC, 0);
    Put(buffer, BigEndian32(|header|), |MAGIC|);
    Put(buffer, header, |MAGIC| + HEADER_LENGTH_BYTES);
    Put(buffer, ciphertext, |MAGIC| + HEADER_LENGTH_BYTES + |header|);
    return Success(buffer);
  }

  lemma DecodeSizedBtoa(bytes: Bytes)
    ensures DecodeSized(Base64.Btoa(bytes), |bytes|) == Some(bytes)
  {
    Base64.AtobBtoa(bytes);
    DecodeSizedIsChecked(Base64.Btoa(bytes), |bytes|);
  }

  /** A sealed archive opens to the same header and content exactly when its metadata passes the reader's checks;
      sealing itself never checks them. */
  lemma OpenSealed(p: Platform, content: Bytes, password: string, metadata: Metadata, salt: Bytes, iv: Bytes)
    requires p.Inverse() && |salt| == SALT_LENGTH && |iv| == IV_LENGTH
    requires |p.encodeHeader(SealedHeader(metadata, salt, iv))| <= MAX_HEADER_LENGTH
    ensures var header := SealedHeader(metadata, salt, iv);
            var bytes := p.encodeHeader(header);
            Open(p, Frame(bytes, p.encrypt(password, salt, iv, bytes, content)), password) ==
            if ValidHeader(header) then Success(Opened(header, content)) else Failure(InvalidHeader)
  {
    var header := SealedHeader(metadata, salt, iv);
    var bytes := p.encodeHeader(header);
    var ciphertext := p.encrypt(password, salt, iv, bytes, content);
    FrameParts(bytes, ciphertext);
    DecodeSizedBtoa(salt);
    DecodeSizedBtoa(iv);
    assert p.decodeHeader(bytes) == Some(header);
    assert p.decrypt(password, salt, iv, bytes, ciphertext) == Some(content);
  }

  /** Metadata that is sealed without complaint and never opens again: an empty plugin version. */
  lemma SealedWithoutVersion(p: Platform, content: Bytes, password: string, salt: Bytes, iv: Bytes)
    requires p.Inverse() && |salt| == SALT_LENGTH && |iv| == IV_LENGTH
    requires |p.encodeHeader(SealedHeader(Metadata(LogicalVault, 0, "", 0), salt, iv))| <= MAX_HEADER_LENGTH
    ensures var header := p.encodeHeader(SealedHeader(Metadata(LogicalVault, 0, "", 0), salt, iv));
      Open(p, Frame(header, p.encrypt(password, salt, iv, header, content)), password) == Failure(InvalidHeader)
  {
    OpenSealed(p, content, password, Metadata(LogicalVault, 0, "", 0), salt, iv);
  }

  lemma FrameParts(header: Bytes, ciphertext: Bytes)
    requires |header| <= MAX_HEADER_LENGTH
    ensures var f := Frame(header, ciphertext);
            && |f| == 12 + |header| + |ciphertext| && MAGIC <= f
            && FromBigEndian32(f[8..12]) == |header| && f[12..12 + |header|] == header && f[12 + |header|..] == ciphertext
  {
    var f := Frame(header, ciphertext);
    assert f[8..12] == BigEndian32(|header|);
    BigEndianInverts(|header|);
  }

  /** Opening is exact about the frame: every accepted byte string is a frame whose header re-authenticates. */
  lemma OpenedIsFramed(p: Platform, data: Bytes, password: string) returns (header: Bytes, ciphertext: Bytes)
    requires Open(p, data, password).Success?
    ensures 0 < |header| <= MAX_HEADER_LENGTH && |ciphertext| >= TAG_LENGTH && data == Frame(header, ciphertext)
    ensures p.decodeHeader(header) == Some(Open(p, data, password).value.header)
    ensures ValidHeader(Open(p, data, password).value.header)
  {
    var length := FromBigEndian32(data[8..12]);
    header, ciphertext := data[12..12 + length], data[12 + length..];
    FrameOf(data, length);
  }

  /** An archive of this header and content under the password, told from its bytes. */
  predicate Archives(p: Platform, data: Bytes, password: string, bytes: Bytes, ciphertext: Bytes, archive: Opened) {
    var h := archive.header;
    && 1 <= |bytes| <= 16384 && |ciphertext| >= 16 && data == Frame(bytes, ciphertext)
    && p.decodeHeader(bytes) == Some(h) && h.iterations == 600000 && h.keyLength == 256
    && 0 <= h.metadata.createdAt <= 9007199254740991 && 0 <= h.metadata.fileCount <= 9007199254740991
    && h.metadata.pluginVersion != "" && |h.metadata.pluginVersion| <= 100
    && match (Base64.Atob(h.salt), Base64.Atob(h.iv))
       case (Some(salt), Some(iv)) =>
         && |salt| == 16 && Base64.Btoa(salt) == h.salt && |iv| == 12 && Base64.Btoa(iv) == h.iv
         && p.decrypt(password, salt, iv, bytes, ciphertext) == Some(archive.content)
       case _ => false
  }

  lemma OpenedIsArchive(p: Platform, data: Bytes, password: string) returns (bytes: Bytes, ciphertext: Bytes)
    requires Open(p, data, password).Success?
    ensures Archives(p, data, password, bytes, ciphertext, Open(p, data, password).value)
  {
    hide Base64.Atob, Base64.Btoa, Base64.CanonicalText, Base64.ByteCount, BigEndian32, FromBigEndian32;
    bytes, ciphertext := OpenedIsFramed(p, data, password);
    FrameParts(bytes, ciphertext);
    var h := Open(p, data, password).value.header;
    DecodeSizedIsChecked(h.salt, 16);
    DecodeSizedIsChecked(h.iv, 12);
    hide DecodeSized, Frame;
  }

  lemma ArchiveOpens(p: Platform, data: Bytes, password: string, bytes: Bytes, ciphertext: Bytes, archive: Opened)
    requires Archives(p, data, password, bytes, ciphertext, archive)
    ensures Open(p, data, password) == Success(archive)
  {
    hide Base64.Atob, Base64.Btoa, Base64.CanonicalText, Base64.ByteCount, BigEndian32, FromBigEndian32;
    FrameParts(bytes, ciphertext);
    DecodeSizedIsChecked(archive.header.salt, 16);
    DecodeSizedIsChecked(archive.header.iv, 12);
    hide DecodeSized, Frame;
  }

  /** The reader opens exactly the archives, and nothing else. */
  lemma OpenIff(p: Platform, data: Bytes, password: string, archive: Opened)
    ensures Open(p, data, password) == Success(archive) <==>
      exists bytes, ciphertext :: Archives(p, data, password, bytes, ciphertext, archive)
  {
    hide Open, Archives;
    if Open(p, data, password) == Success(archive) { var bytes, ciphertext := OpenedIsArchive(p, data, password); }
    if bytes, ciphertext :| Archives(p, data, password, bytes, ciphertext, archive) {
      ArchiveOpens(p, data, password, bytes, ciphertext, archive);
    }
  }

  lemma FrameOf(data: Bytes, length: nat)
    requires MAGIC <= data && 12 + length <= |data| && length <= MAX_HEADER_LENGTH
    requires length == FromBigEndian32(data[8..12])
    ensures data == Frame(data[12..12 + length], data[12 + length..])
  {
    BigEndianOf(data[8..12]);
    assert data[..8] == MAGIC;
    assert data == data[..8] + data[8..12] + data[12..12 + length] + data[12 + length..];
  }
}
