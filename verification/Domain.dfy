/** Values of the sync protocol: identifiers, contents, paths and the manifest.

    Identifiers (players, clients, operations, file extensions) are only ever
    compared for equality, so they are numbers.  A `Content` is a byte string up to
    what the protocol can observe of one: equality, fingerprint, and what it parses
    to.  `ManifestText(m, 0)` is the canonical JSON of `m`; other spellings are other
    byte strings that parse to the same manifest.
 */
module Domain {

  datatype Option<+T> = None | Some(value: T)

  type PlayerId = nat
  type ClientId = nat
  type OperationId = nat
  type GameId = nat
  type Extension = nat
  type Timestamp = nat

  /** A SHA-256 digest: its first twelve hexadecimal digits and the other 52. */
  datatype Digest = Digest(head: nat, tail: nat)

  datatype Fingerprint = Fingerprint(sha256: Digest, size: nat)

  /** Storage paths below one game root; names carry only the digest's head. */
  datatype Path =
    | Root
    | SavesDir | TemporaryDir | LocksDir | HistoryDir
    | LockDir | LockJson
    | ManifestJson
    | SavePath(sequence: nat, head: nat, ext: Extension)
    | HistoryPath(sequence: nat, head: nat)
    | TmpUpload(op: OperationId, ext: Extension)
    | TmpManifest(op: OperationId)
    | TmpHistory(op: OperationId)

  function Parent(p: Path): Option<Path> {
    match p
    case Root => None
    case SavesDir | TemporaryDir | LocksDir | HistoryDir | ManifestJson => Some(Root)
    case LockDir => Some(LocksDir)
    case LockJson => Some(LockDir)
    case SavePath(_, _, _) => Some(SavesDir)
    case HistoryPath(_, _) => Some(HistoryDir)
    case TmpUpload(_, _) | TmpManifest(_) | TmpHistory(_) => Some(TemporaryDir)
  }

  /** Objects that are immutable once published. */
  predicate Archived(p: Path) {
    p.SavePath? || p.HistoryPath?
  }

  predicate Temporary(p: Path) {
    p.TmpUpload? || p.TmpManifest? || p.TmpHistory?
  }

  datatype AcceptedSave = AcceptedSave(
    sha256: Digest, size: nat, path: Path, filename: nat, acceptedAt: Timestamp)

  datatype Manifest = Manifest(
    gameId: GameId, displayName: nat, players: seq<PlayerId>, sequence: nat,
    current: PlayerId, lastSender: Option<PlayerId>, save: Option<AcceptedSave>,
    hashes: seq<Digest>, previous: Option<Path>, lastOp: Option<OperationId>)

  datatype LockDocument = LockDocument(
    op: OperationId, client: ClientId, player: PlayerId, createdAt: Timestamp)

  datatype Content =
    | Raw(id: nat)
    | ManifestText(manifest: Manifest, spelling: nat)
    | LockText(document: LockDocument, spelling: nat)
    | Garbled(of: Content)

  /** SHA-256 and length: an arbitrary fixed function, about which nothing is assumed. */
  const FINGERPRINT: Content -> Fingerprint

  function Sha256(c: Content): Digest { FINGERPRINT(c).sha256 }

  predicate Distinct<T(==)>(s: seq<T>) {
    forall i, j :: 0 <= i < j < |s| ==> s[i] != s[j]
  }

  /** The checks every constructed manifest has passed. */
  predicate ValidManifest(m: Manifest) {
    && ValidPlayers(m)
    && Distinct(m.hashes)
    && |m.hashes| == m.sequence
    && (if m.sequence == 0 then
          m.save.None? && m.lastSender.None? && m.previous.None? && m.lastOp.None?
        else
          && m.save.Some? && m.save.value.size > 0 && m.save.value.path.SavePath?
          && m.lastSender.Some?
          && m.previous.Some? && m.previous.value.HistoryPath?
          && m.lastOp.Some?
          && m.hashes[m.sequence - 1] == m.save.value.sha256)
  }

  predicate ValidPlayers(m: Manifest) {
    && |m.players| > 0
    && Distinct(m.players)
    && m.current in m.players
    && (m.lastSender.Some? ==> m.lastSender.value in m.players)
  }

  function ParseManifest(c: Content): Option<Manifest> {
    if c.ManifestText? && ValidManifest(c.manifest) then Some(c.manifest) else None
  }

  function ParseLock(c: Content): Option<LockDocument> {
    if c.LockText? then Some(c.document) else None
  }

  function Canonical(m: Manifest): Content { ManifestText(m, 0) }

  function LockBytes(d: LockDocument): Content { LockText(d, 0) }
}
