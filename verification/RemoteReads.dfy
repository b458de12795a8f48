/** Reads the protocol decides by: a stored object compared with a fingerprint, the
    authoritative manifest, and the upload lock. */
module RemoteReads {
  import opened Domain
  import opened Storage
  import opened Handoff
  import opened Faults
  import FS = FakeStorage

  // ----- complete read-back and comparison -----

  datatype Comparison = ExactMatch | Mismatch | Raised(error: Failure)

  function Compared(r: Reply, expected: Fingerprint): Comparison {
    if r.Data? then (if FINGERPRINT(r.content) == expected then ExactMatch else Mismatch)
    else if r.Failed? then Raised(r.error)
    else Raised(Transport)
  }

  lemma ReadAnswers(caps: FS.Capabilities, r: FS.Remote, p: Path)
    requires Counted(r.schedule.counts)
    ensures var reply := FS.Respond(caps, r, Read(p)).1; reply.Data? || reply.Failed?
  {
  }

  method CompareStoredObject(storage: FS.FakeStorage, p: Path, expected: Fingerprint)
    returns (c: Comparison, ghost reply: Reply)
    requires storage.Valid()
    modifies storage, storage.faults
    ensures storage.Valid() && storage.Served(old(storage.Value()), Read(p), reply)
    ensures c == Compared(reply, expected)
    ensures reply.Data? || reply.Failed?
  {
    ReadAnswers(storage.capabilities, storage.Value(), p);
    var r := storage.ReadFile(p);
    reply := r;
    match r
    case Data(content) => c := if FINGERPRINT(content) == expected then ExactMatch else Mismatch;
    case Failed(e) => c := Raised(e);
  }

  // ----- the authoritative manifest -----

  method ReadAuthoritativeManifest(storage: FS.FakeStorage, game: GameId)
    returns (read: ManifestRead, ghost reply: Reply)
    requires storage.Valid()
    modifies storage, storage.faults
    ensures storage.Served(old(storage.Value()), Read(ManifestJson), reply)
    ensures read == ReadOutcome(game, reply)
  {
    ReadAnswers(storage.capabilities, storage.Value(), ManifestJson);
    var r := storage.ReadFile(ManifestJson);
    reply := r;
    match r {
      case Failed(NotFound) => return Missing, reply;
      case Failed(WrongKind) => return Invalid, reply;
      case Failed(_) => return Unreachable, reply;
      case Data(raw) =>
        var manifest := ParseManifest(raw);
        if manifest.None? { return Invalid, reply; }
        if manifest.value.gameId != game { return GameMismatch, reply; }
        return ReadOk(manifest.value, raw), reply;
    }
  }

  // ----- the upload lock -----

  /** A lock of the wrong kind is reported with the exact bytes or entries seen. */
  datatype Inspection =
    | Absent | NoDocument | Malformed(raw: Content) | Unanswered
    | LockIsFile(raw: Content) | DocumentIsDirectory(entries: set<Path>)
    | Readable(document: LockDocument, raw: Content)

  /** The replies an inspection saw, and the storage between them.  `again` is the second
      look at an object of the wrong kind. */
  datatype Seen = Seen(listed: Reply, mid: FS.Remote, read: Reply, late: FS.Remote, again: Reply)

  function InspectionOf(seen: Seen): Inspection {
    if seen.listed.Failed? then
      (if seen.listed.error == NotFound then Absent
       else if seen.listed.error == WrongKind then
         (if seen.again.Data? then LockIsFile(seen.again.content)
          else if seen.again == Failed(NotFound) then Absent
          else Unanswered)
       else Unanswered)
    else if seen.read.Data? then
      (match ParseLock(seen.read.content)
       case None => Malformed(seen.read.content)
       case Some(d) => Readable(d, seen.read.content))
    else if seen.read == Failed(NotFound) then NoDocument
    else if seen.read == Failed(WrongKind) then
      (if seen.again.Listing? then DocumentIsDirectory(seen.again.entries)
       else if seen.again == Failed(NotFound) then NoDocument
       else Unanswered)
    else Unanswered
  }

  /** A second look was taken, and at what. */
  function LookedAgain(seen: Seen): Option<WrongObject> {
    if seen.listed.Failed? then (if seen.listed.error == WrongKind then Some(LockFile) else None)
    else if seen.read == Failed(WrongKind) then Some(DocumentDirectory)
    else None
  }

  /** What kinds of replies can come back. */
  predicate Sensible(seen: Seen) {
    && (seen.listed.Failed? || (seen.listed.Listing? && (seen.read.Failed? || seen.read.Data?)))
    && (match LookedAgain(seen)
        case None => true
        case Some(LockFile) => seen.again.Failed? || seen.again.Data?
        case Some(DocumentDirectory) => seen.again.Failed? || seen.again.Listing?)
  }

  ghost predicate Saw(caps: FS.Capabilities, before: FS.Remote, after: FS.Remote, seen: Seen) {
    && Counted(before.schedule.counts)
    && (seen.mid, seen.listed) == FS.Respond(caps, before, List(LockDir))
    && Counted(seen.mid.schedule.counts)
    && (if seen.listed.Failed? then seen.late == seen.mid
        else (seen.late, seen.read) == FS.Respond(caps, seen.mid, Read(LockJson)))
    && Counted(seen.late.schedule.counts)
    && (match LookedAgain(seen)
        case None => after == seen.late
        case Some(kind) => (after, seen.again) == FS.Respond(caps, seen.late, KindOp(kind)))
  }

  lemma ListAnswers(caps: FS.Capabilities, r: FS.Remote, p: Path)
    requires Counted(r.schedule.counts)
    ensures var reply := FS.Respond(caps, r, List(p)).1; reply.Listing? || reply.Failed?
  {
  }

  /** The tree says what the reply says; `exact` when no byte of it was altered. */
  predicate Tells(fs: Fs, op: Op, reply: Reply, exact: bool)
    requires op.Read? || op.List?
  {
    match reply
    case Data(c) => op.path in fs.files && (exact ==> fs.files[op.path] == c)
    case Listing(entries) => op.path in fs.dirs && entries == Children(fs, op.path)
    case Failed(NotFound) => op.path !in fs.files && op.path !in fs.dirs
    case Failed(WrongKind) => if op.Read? then op.path in fs.dirs else op.path in fs.files
    case _ => true
  }

  /** Reading changes no object and is told the truth. */
  lemma LooksTell(caps: FS.Capabilities, r: FS.Remote, op: Op)
    requires Counted(r.schedule.counts) && (op.Read? || op.List?)
    ensures var (r', reply) := FS.Respond(caps, r, op);
            && r'.fs == r.fs
            && Tells(r.fs, op, reply, r.schedule.corruptions == [])
            && (r.schedule.corruptions == [] ==> r'.schedule.corruptions == [])
  {
  }

  /** Every reply of an inspection tells what is stored. */
  predicate Informed(fs: Fs, seen: Seen, exact: bool) {
    && Tells(fs, List(LockDir), seen.listed, exact)
    && (seen.listed.Failed? || Tells(fs, Read(LockJson), seen.read, exact))
    && (match LookedAgain(seen)
        case None => true
        case Some(LockFile) => Tells(fs, Read(LockDir), seen.again, exact)
        case Some(DocumentDirectory) => Tells(fs, List(LockJson), seen.again, exact))
  }

  lemma InspectionInforms(caps: FS.Capabilities, before: FS.Remote, after: FS.Remote, seen: Seen)
    requires Saw(caps, before, after, seen)
    ensures after.fs == before.fs && Informed(before.fs, seen, before.schedule.corruptions == [])
  {
    LooksTell(caps, before, List(LockDir));
    if !seen.listed.Failed? { LooksTell(caps, seen.mid, Read(LockJson)); }
    match LookedAgain(seen)
    case None =>
    case Some(LockFile) => LooksTell(caps, seen.late, Read(LockDir));
    case Some(DocumentDirectory) => LooksTell(caps, seen.late, List(LockJson));
  }

  /** The lock as it stands. */
  function Found(fs: Fs): Inspection {
    if LockDir in fs.files then LockIsFile(fs.files[LockDir])
    else if LockDir !in fs.dirs then Absent
    else if LockJson in fs.dirs then DocumentIsDirectory(Children(fs, LockJson))
    else if LockJson !in fs.files then NoDocument
    else
      match ParseLock(fs.files[LockJson])
      case None => Malformed(fs.files[LockJson])
      case Some(d) => Readable(d, fs.files[LockJson])
  }

  /** Looking without a fault, on a storage that can read. */
  lemma CalmLook(caps: FS.Capabilities, r: FS.Remote, op: Op)
    requires FS.Undisturbed(caps, r) && (op.Read? || op.List?)
    ensures var (r', reply) := FS.Respond(caps, r, op);
            && r'.fs == r.fs && Faultless(r'.schedule) && reply != Failed(Transport) && reply != Failed(NoCapability)
  {
  }

  /** Undisturbed, an inspection finds the lock as it stands. */
  lemma CalmInspection(caps: FS.Capabilities, before: FS.Remote, after: FS.Remote, seen: Seen)
    requires Saw(caps, before, after, seen) && Sensible(seen)
    requires FS.Undisturbed(caps, before)
    ensures after.fs == before.fs && Faultless(after.schedule)
    ensures InspectionOf(seen) == Found(before.fs)
  {
    CalmLook(caps, before, List(LockDir));
    if !seen.listed.Failed? { CalmLook(caps, seen.mid, Read(LockJson)); }
    match LookedAgain(seen)
    case None =>
    case Some(LockFile) => CalmLook(caps, seen.late, Read(LockDir));
    case Some(DocumentDirectory) => CalmLook(caps, seen.late, List(LockJson));
    InspectionInforms(caps, before, after, seen);
  }

  method InspectUploadLock(storage: FS.FakeStorage) returns (i: Inspection, ghost seen: Seen)
    requires storage.Valid()
    modifies storage, storage.faults
    ensures storage.Valid()
    ensures Saw(storage.capabilities, old(storage.Value()), storage.Value(), seen)
    ensures i == InspectionOf(seen) && Sensible(seen)
  {
    ListAnswers(storage.capabilities, storage.Value(), LockDir);
    var listed := storage.ListDirectory(LockDir);
    ghost var mid := storage.Value();
    if listed.Failed? {
      seen := Seen(listed, mid, listed, mid, listed);
      match listed.error {
        case NotFound => i := Absent;
        case WrongKind =>
          var raw := InspectLockFile(storage);
          seen := seen.(again := raw);
          i := match raw
               case Data(content) => LockIsFile(content)
               case Failed(NotFound) => Absent
               case _ => Unanswered;
        case _ => i := Unanswered;
      }
      return;
    }
    ReadAnswers(storage.capabilities, mid, LockJson);
    var raw := storage.ReadFile(LockJson);
    ghost var late := storage.Value();
    seen := Seen(listed, mid, raw, late, raw);
    match raw {
      case Data(content) =>
        var document := ParseLock(content);
        i := if document.None? then Malformed(content) else Readable(document.value, content);
      case Failed(NotFound) => i := NoDocument;
      case Failed(WrongKind) =>
        var children := InspectDocumentDirectory(storage);
        seen := seen.(again := children);
        i := match children
             case Listing(entries) => DocumentIsDirectory(entries)
             case Failed(NotFound) => NoDocument
             case _ => Unanswered;
      case Failed(_) => i := Unanswered;
    }
  }

  /** The exact bytes when `upload.lock` exists as a file. */
  method InspectLockFile(storage: FS.FakeStorage) returns (r: Reply)
    requires storage.Valid()
    modifies storage, storage.faults
    ensures storage.Served(old(storage.Value()), Read(LockDir), r) && (r.Data? || r.Failed?)
  {
    ReadAnswers(storage.capabilities, storage.Value(), LockDir);
    r := storage.ReadFile(LockDir);
  }

  /** The entries when `lock.json` is a directory. */
  method InspectDocumentDirectory(storage: FS.FakeStorage) returns (r: Reply)
    requires storage.Valid()
    modifies storage, storage.faults
    ensures storage.Served(old(storage.Value()), List(LockJson), r) && (r.Listing? || r.Failed?)
  {
    ListAnswers(storage.capabilities, storage.Value(), LockJson);
    r := storage.ListDirectory(LockJson);
  }
}
