/** Semantics of the storage port: one operation on a tree of directories and files,
    and the faults that can hide its response.
 */
module Storage {
  import opened Domain

  datatype Fs = Fs(dirs: set<Path>, files: map<Path, Content>)

  datatype Failure = NotFound | AlreadyExists | WrongKind | NotEmpty | NoCapability | Transport

  datatype Reply =
    | Ok
    | Data(content: Content)
    | Listing(entries: set<Path>)
    | Failed(error: Failure)

  datatype Op =
    | Mkdir(path: Path)
    | Write(path: Path, data: Content, overwrite: bool)
    | Read(path: Path)
    | List(path: Path)
    | RemoveFile(path: Path)
    | RemoveDir(path: Path)
    | Publish(source: Path, path: Path)
    | AtomicReplace(source: Path, path: Path)

  /** Before: lost before it took effect.  After: took effect, response lost.
      Corrupt: a read returned altered bytes. */
  datatype Fault = NoFault | Before | After | Corrupt

  function Children(fs: Fs, p: Path): set<Path> {
    set q | q in fs.dirs + fs.files.Keys && Parent(q) == Some(p)
  }

  /** The parent-must-exist check: no failure, or the error it raises. */
  function ParentError(fs: Fs, p: Path): Option<Failure> {
    match Parent(p)
    case None => None
    case Some(q) =>
      if q in fs.files then Some(WrongKind)
      else if q !in fs.dirs then Some(NotFound)
      else None
  }

  function SourceError(fs: Fs, p: Path): Option<Failure> {
    if p in fs.dirs then Some(WrongKind)
    else if p !in fs.files then Some(NotFound)
    else None
  }

  function DirError(fs: Fs, p: Path): Option<Failure> {
    if p in fs.files then Some(WrongKind)
    else if p !in fs.dirs then Some(NotFound)
    else None
  }

  function OpError(fs: Fs, op: Op): Option<Failure> {
    match op
    case Mkdir(p) =>
      if ParentError(fs, p).Some? then ParentError(fs, p)
      else if p in fs.files then Some(WrongKind)
      else if p in fs.dirs then Some(AlreadyExists)
      else None
    case Write(p, _, overwrite) =>
      if ParentError(fs, p).Some? then ParentError(fs, p)
      else if p in fs.dirs then Some(WrongKind)
      else if p in fs.files && !overwrite then Some(AlreadyExists)
      else None
    case Read(p) => SourceError(fs, p)
    case List(p) => DirError(fs, p)
    case RemoveFile(p) => SourceError(fs, p)
    case RemoveDir(p) =>
      if DirError(fs, p).Some? then DirError(fs, p)
      else if Children(fs, p) != {} then Some(NotEmpty)
      else None
    case Publish(s, p) =>
      if SourceError(fs, s).Some? then SourceError(fs, s)
      else if ParentError(fs, p).Some? then ParentError(fs, p)
      else if p in fs.dirs then Some(WrongKind)
      else if p in fs.files then Some(AlreadyExists)
      else None
    case AtomicReplace(s, p) =>
      if SourceError(fs, s).Some? then SourceError(fs, s)
      else if ParentError(fs, p).Some? then ParentError(fs, p)
      else if p in fs.dirs then Some(WrongKind)
      else None
  }

  function Effect(fs: Fs, op: Op): Fs
    requires OpError(fs, op).None?
  {
    match op
    case Mkdir(p) => fs.(dirs := fs.dirs + {p})
    case Write(p, data, _) => fs.(files := fs.files[p := data])
    case Read(_) | List(_) => fs
    case RemoveFile(p) => fs.(files := fs.files - {p})
    case RemoveDir(p) => fs.(dirs := fs.dirs - {p})
    case Publish(s, p) => fs.(files := (fs.files - {s})[p := fs.files[s]])
    case AtomicReplace(s, p) =>
      if s == p then fs else fs.(files := (fs.files - {s})[p := fs.files[s]])
  }

  function Answer(fs: Fs, op: Op): Reply
    requires OpError(fs, op).None?
  {
    match op
    case Read(p) => Data(fs.files[p])
    case List(p) => Listing(Children(fs, p))
    case _ => Ok
  }

  /** Reading back altered bytes: the first byte is inverted. */
  function Corrupted(c: Content): Content {
    if c.Garbled? then c.of else Garbled(c)
  }

  /** One storage call under a fault: the new tree and what the caller sees. */
  function Exec(fs: Fs, op: Op, fault: Fault): (Fs, Reply) {
    if fault == Before then (fs, Failed(Transport))
    else match OpError(fs, op)
      case Some(e) => (fs, Failed(e))
      case None =>
        var fs' := Effect(fs, op);
        var r := Answer(fs, op);
        if fault == After then (fs', Failed(Transport))
        else if fault == Corrupt && r.Data? then (fs', Data(Corrupted(r.content)))
        else (fs', r)
  }

  /** Files and directories never share a path, and every entry's parent is a directory. */
  ghost predicate WellFormed(fs: Fs) {
    && fs.dirs !! fs.files.Keys
    && forall p | p in fs.dirs + fs.files.Keys ::
         Parent(p).Some? ==> Parent(p).value in fs.dirs
  }

  /** Every operation keeps the tree well formed, under every fault. */
  lemma ExecKeepsWellFormed(fs: Fs, op: Op, fault: Fault)
    requires WellFormed(fs)
    ensures WellFormed(Exec(fs, op, fault).0)
  {
    if OpError(fs, op).None? && op.RemoveDir? {
      forall q | q in fs.dirs + fs.files.Keys ensures Parent(q) != Some(op.path) {
        assert q !in Children(fs, op.path);
      }
    }
  }
}
