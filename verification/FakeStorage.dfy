/** The in-memory storage: a set of directories and a map of files, changed in place, with
    scheduled faults.  Every operation is proved to do exactly what `Exec` says. */
module FakeStorage {
  import opened Domain
  import opened Storage
  import opened Faults

  datatype Capabilities = Capabilities(
    exclusiveMkdir: bool, atomicReplace: bool, atomicPublish: bool, completeReadback: bool)

  predicate Full(caps: Capabilities) {
    caps.exclusiveMkdir && caps.atomicReplace && caps.atomicPublish && caps.completeReadback
  }

  /** A tree together with the faults still scheduled for it. */
  datatype Remote = Remote(fs: Fs, schedule: Schedule)

  /** A well-formed tree on a full storage, and nothing to disturb what is done to it. */
  ghost predicate Undisturbed(caps: Capabilities, r: Remote) {
    Full(caps) && Faultless(r.schedule) && WellFormed(r.fs)
  }

  function Serve(r: Remote, op: Op): (Remote, Reply)
    requires Counted(r.schedule.counts)
  {
    var (fs', reply) := Exec(r.fs, op, Draw(r.schedule, KindOf(op)));
    (Remote(fs', Spent(r.schedule, KindOf(op))), reply)
  }

  /** The same, for a storage that may lack a capability. */
  function Respond(caps: Capabilities, r: Remote, op: Op): (Remote, Reply)
    requires Counted(r.schedule.counts)
  {
    if || (op.Mkdir? && !caps.exclusiveMkdir) || (op.Publish? && !caps.atomicPublish)
       || (op.AtomicReplace? && !caps.atomicReplace)
    then (r, Failed(NoCapability))
    else if op.Read? && !caps.completeReadback && Draw(r.schedule, ReadOp) != Before
            && OpError(r.fs, op).None?
    then (Remote(r.fs, Spent(r.schedule, ReadOp)), Failed(NoCapability))
    else Serve(r, op)
  }

  function RespondAll(caps: Capabilities, r: Remote, ops: seq<Op>): Remote
    requires Counted(r.schedule.counts)
    decreases |ops|
  {
    if ops == [] then r else RespondAll(caps, Respond(caps, r, ops[0]).0, ops[1..])
  }

  /** After any sequence of operations, whatever the storage can do, the tree is well formed
      and every pending fault can still fire. */
  lemma {:induction false} StorageStaysSound(caps: Capabilities, r: Remote, ops: seq<Op>)
    requires WellFormed(r.fs) && Pending(r.schedule)
    ensures var r' := RespondAll(caps, r, ops); WellFormed(r'.fs) && Pending(r'.schedule)
    decreases |ops|
  {
    if ops != [] {
      ExecKeepsWellFormed(r.fs, ops[0], Draw(r.schedule, KindOf(ops[0])));
      SpentStaysPending(r.schedule, KindOf(ops[0]));
      StorageStaysSound(caps, Respond(caps, r, ops[0]).0, ops[1..]);
    }
  }

  lemma LostBefore(r: Remote, op: Op)
    requires Counted(r.schedule.counts) && Draw(r.schedule, KindOf(op)) == Before
    ensures Serve(r, op) == (Remote(r.fs, Spent(r.schedule, KindOf(op))), Failed(Transport))
  {
  }

  lemma Refused(r: Remote, op: Op, e: Failure)
    requires Counted(r.schedule.counts) && Draw(r.schedule, KindOf(op)) != Before
    requires OpError(r.fs, op) == Some(e)
    ensures Serve(r, op) == (Remote(r.fs, Spent(r.schedule, KindOf(op))), Failed(e))
  {
  }

  lemma Done(r: Remote, op: Op)
    requires Counted(r.schedule.counts) && Draw(r.schedule, KindOf(op)) != Before && OpError(r.fs, op).None?
    ensures Serve(r, op).0 == Remote(Effect(r.fs, op), Spent(r.schedule, KindOf(op)))
    ensures !op.Read? ==>
              (Serve(r, op).1 == if Draw(r.schedule, KindOf(op)) == After then Failed(Transport)
                                 else Answer(r.fs, op))
  {
  }

  lemma ReadDone(r: Remote, p: Path)
    requires Counted(r.schedule.counts) && Draw(r.schedule, ReadOp) != Before && OpError(r.fs, Read(p)).None?
    ensures Serve(r, Read(p)).0 == Remote(r.fs, Spent(r.schedule, ReadOp))
    ensures var n := r.schedule.counts[ReadOp] + 1;
            Serve(r, Read(p)).1 ==
              (if Draw(r.schedule, ReadOp) == After then Failed(Transport)
               else if n in r.schedule.corruptions then Data(Corrupted(r.fs.files[p]))
               else Data(r.fs.files[p]))
  {
  }

  class FakeStorage {
    const capabilities: Capabilities
    const faults: FaultController
    var directories: set<Path>
    var files: map<Path, Content>

    ghost function Value(): Remote
      reads this, faults
    {
      Remote(Fs(directories, files), faults.Value())
    }

    ghost predicate Valid()
      reads faults
    {
      Orderly(faults.Value())
    }

    constructor (capabilities: Capabilities)
      ensures Valid() && fresh(faults) && this.capabilities == capabilities
      ensures WellFormed(Value().fs) && Pending(Value().schedule)
      ensures Value() == Remote(Fs({}, map[]), Schedule([], [], NO_CALLS))
    {
      this.capabilities := capabilities;
      directories, files := {}, map[];
      faults := new FaultController();
    }

    /** `path` may be created: its parent is a directory. */
    method EnsureParent(path: Path) returns (e: Option<Failure>)
      ensures e == ParentError(Value().fs, path)
    {
      var parent := Parent(path);
      if parent.None? { return None; }
      if parent.value in files { return Some(WrongKind); }
      if parent.value !in directories { return Some(NotFound); }
      return None;
    }

    method RequireFile(path: Path) returns (e: Option<Failure>)
      ensures e == SourceError(Value().fs, path)
    {
      if path in directories { return Some(WrongKind); }
      if path !in files { return Some(NotFound); }
      return None;
    }

    method RequireDirectory(path: Path) returns (e: Option<Failure>)
      ensures e == DirError(Value().fs, path)
    {
      if path in files { return Some(WrongKind); }
      if path !in directories { return Some(NotFound); }
      return None;
    }

    /** What every operation promises. */
    ghost predicate Served(before: Remote, op: Op, reply: Reply)
      requires Counted(before.schedule.counts)
      reads this, faults
    {
      Valid() && (Value(), reply) == Respond(capabilities, before, op)
    }

    method MakeDirectory(path: Path) returns (reply: Reply)
      requires Valid()
      modifies this`directories, faults
      ensures Served(old(Value()), Mkdir(path), reply)
    {
      if !capabilities.exclusiveMkdir { return Failed(NoCapability); }
      ghost var start := Value();
      var before := faults.Begin(MkdirOp);
      if before { LostBefore(start, Mkdir(path)); return Failed(Transport); }
      var e := EnsureParent(path);
      if e.None? {
        if path in files { e := Some(WrongKind); }
        else if path in directories { e := Some(AlreadyExists); }
      }
      if e.Some? {
        faults.Abort(MkdirOp, start.schedule);
        Refused(start, Mkdir(path), e.value);
        return Failed(e.value);
      }
      directories := directories + {path};
      Done(start, Mkdir(path));
      var after := faults.Finish(MkdirOp, start.schedule);
      return if after then Failed(Transport) else Ok;
    }

    method WriteFile(path: Path, data: Content, overwrite: bool) returns (reply: Reply)
      requires Valid()
      modifies this`files, faults
      ensures Served(old(Value()), Write(path, data, overwrite), reply)
    {
      ghost var start := Value();
      ghost var op := Write(path, data, overwrite);
      var before := faults.Begin(WriteOp);
      if before { LostBefore(start, op); return Failed(Transport); }
      var e := EnsureParent(path);
      if e.None? {
        if path in directories { e := Some(WrongKind); }
        else if path in files && !overwrite { e := Some(AlreadyExists); }
      }
      if e.Some? {
        faults.Abort(WriteOp, start.schedule);
        Refused(start, op, e.value);
        return Failed(e.value);
      }
      files := files[path := data];
      Done(start, op);
      var after := faults.Finish(WriteOp, start.schedule);
      return if after then Failed(Transport) else Ok;
    }

    method ReadFile(path: Path) returns (reply: Reply)
      requires Valid()
      modifies faults
      ensures Served(old(Value()), Read(path), reply)
    {
      ghost var start := Value();
      var before := faults.Begin(ReadOp);
      if before { LostBefore(start, Read(path)); return Failed(Transport); }
      var e := RequireFile(path);
      if e.Some? {
        faults.Abort(ReadOp, start.schedule);
        Refused(start, Read(path), e.value);
        return Failed(e.value);
      }
      ReadDone(start, path);
      if !capabilities.completeReadback {
        faults.Abort(ReadOp, start.schedule);
        return Failed(NoCapability);
      }
      var data := files[path];
      var corrupted := faults.CorruptReadPayload(data, start.schedule);
      var after := faults.Finish(ReadOp, start.schedule);
      if after { return Failed(Transport); }
      return Data(if corrupted.None? then data else corrupted.value);
    }

    method ListDirectory(path: Path) returns (reply: Reply)
      requires Valid()
      modifies faults
      ensures Served(old(Value()), List(path), reply)
    {
      ghost var start := Value();
      var before := faults.Begin(ListOp);
      if before { LostBefore(start, List(path)); return Failed(Transport); }
      var e := RequireDirectory(path);
      if e.Some? {
        faults.Abort(ListOp, start.schedule);
        Refused(start, List(path), e.value);
        return Failed(e.value);
      }
      var entries := Children(Fs(directories, files), path);
      Done(start, List(path));
      var after := faults.Finish(ListOp, start.schedule);
      return if after then Failed(Transport) else Listing(entries);
    }

    method DeleteFile(path: Path) returns (reply: Reply)
      requires Valid()
      modifies this`files, faults
      ensures Served(old(Value()), RemoveFile(path), reply)
    {
      ghost var start := Value();
      var before := faults.Begin(RemoveFileOp);
      if before { LostBefore(start, RemoveFile(path)); return Failed(Transport); }
      var e := RequireFile(path);
      if e.Some? {
        faults.Abort(RemoveFileOp, start.schedule);
        Refused(start, RemoveFile(path), e.value);
        return Failed(e.value);
      }
      files := files - {path};
      Done(start, RemoveFile(path));
      var after := faults.Finish(RemoveFileOp, start.schedule);
      return if after then Failed(Transport) else Ok;
    }

    method DeleteDirectory(path: Path) returns (reply: Reply)
      requires Valid()
      modifies this`directories, faults
      ensures Served(old(Value()), RemoveDir(path), reply)
    {
      ghost var start := Value();
      var before := faults.Begin(RemoveDirOp);
      if before { LostBefore(start, RemoveDir(path)); return Failed(Transport); }
      var e := RequireDirectory(path);
      if e.None? && Children(Fs(directories, files), path) != {} { e := Some(NotEmpty); }
      if e.Some? {
        faults.Abort(RemoveDirOp, start.schedule);
        Refused(start, RemoveDir(path), e.value);
        return Failed(e.value);
      }
      directories := directories - {path};
      Done(start, RemoveDir(path));
      var after := faults.Finish(RemoveDirOp, start.schedule);
      return if after then Failed(Transport) else Ok;
    }

    method PublishNoReplace(source: Path, destination: Path) returns (reply: Reply)
      requires Valid()
      modifies this`files, faults
      ensures Served(old(Value()), Publish(source, destination), reply)
    {
      if !capabilities.atomicPublish { return Failed(NoCapability); }
      ghost var start := Value();
      ghost var op := Publish(source, destination);
      var before := faults.Begin(PublishOp);
      if before { LostBefore(start, op); return Failed(Transport); }
      var e := RequireFile(source);
      if e.None? { e := EnsureParent(destination); }
      if e.None? {
        if destination in directories { e := Some(WrongKind); }
        else if destination in files || source == destination { e := Some(AlreadyExists); }
      }
      if e.Some? {
        faults.Abort(PublishOp, start.schedule);
        Refused(start, op, e.value);
        return Failed(e.value);
      }
      files := (files - {source})[destination := files[source]];
      Done(start, op);
      var after := faults.Finish(PublishOp, start.schedule);
      return if after then Failed(Transport) else Ok;
    }

    method ReplaceAtomically(source: Path, destination: Path) returns (reply: Reply)
      requires Valid()
      modifies this`files, faults
      ensures Served(old(Value()), AtomicReplace(source, destination), reply)
    {
      if !capabilities.atomicReplace { return Failed(NoCapability); }
      ghost var start := Value();
      ghost var op := AtomicReplace(source, destination);
      var before := faults.Begin(ReplaceOp);
      if before { LostBefore(start, op); return Failed(Transport); }
      var e := RequireFile(source);
      if e.None? { e := EnsureParent(destination); }
      if e.None? && destination in directories { e := Some(WrongKind); }
      if e.Some? {
        faults.Abort(ReplaceOp, start.schedule);
        Refused(start, op, e.value);
        return Failed(e.value);
      }
      if source != destination {
        var content := files[source];
        files := files - {source};
        files := files[destination := content];
      }
      Done(start, op);
      var after := faults.Finish(ReplaceOp, start.schedule);
      return if after then Failed(Transport) else Ok;
    }
  }
}
