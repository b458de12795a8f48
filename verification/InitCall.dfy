/** `initialize_match` over the storage, proved to do what its machine does. */
module InitCall {
  import opened Domain
  import opened Storage
  import opened Handoff
  import opened Initialize
  import opened Faults
  import FS = FakeStorage
  import opened RemoteReads

  function InitRank(s: InitStep): nat {
    match s
    case MakeRoot => 8
    case MakeSub(i) => if i < 4 then 7 - i else 0
    case StageZero => 3
    case Install => 2
    case ClassifyExisting | ClassifyUncertain => 1
    case Finished(_) => 0
  }

  lemma InitProgress(cfg: Config, s: InitStep, r: Reply)
    requires ValidConfig(cfg) && WellFormedInit(s) && !s.Finished?
    ensures InitRank(OnInitReply(cfg, s, r)) < InitRank(s)
  {
  }

  /** The rest of an initialization over a storage. */
  function InitOn(cfg: Config, op: OperationId, caps: FS.Capabilities, remote: FS.Remote, s: InitStep)
    : (FS.Remote, InitResult)
    requires ValidConfig(cfg) && WellFormedInit(s) && Counted(remote.schedule.counts)
    decreases InitRank(s)
  {
    if s.Finished? then (remote, s.result)
    else
      var (remote', r) := FS.Respond(caps, remote, InitOp(cfg, op, s));
      InitProgress(cfg, s, r);
      InitOn(cfg, op, caps, remote', OnInitReply(cfg, s, r))
  }

  lemma Onward(cfg: Config, op: OperationId, caps: FS.Capabilities, remote: FS.Remote, s: InitStep,
               remote': FS.Remote, r: Reply)
    requires ValidConfig(cfg) && WellFormedInit(s) && !s.Finished? && Counted(remote.schedule.counts)
    requires (remote', r) == FS.Respond(caps, remote, InitOp(cfg, op, s))
    ensures Counted(remote'.schedule.counts)
    ensures InitOn(cfg, op, caps, remote, s) == InitOn(cfg, op, caps, remote', OnInitReply(cfg, s, r))
  {
  }

  method ClassifyExistingGameRoot(storage: FS.FakeStorage, cfg: Config, ghost op: OperationId)
    returns (result: InitResult)
    requires storage.Valid() && ValidConfig(cfg)
    modifies storage, storage.faults
    ensures storage.Valid()
    ensures InitOn(cfg, op, storage.capabilities, old(storage.Value()), ClassifyExisting) ==
            (storage.Value(), result)
  {
    var read, r := ReadAuthoritativeManifest(storage, cfg.game);
    Onward(cfg, op, storage.capabilities, old(storage.Value()), ClassifyExisting, storage.Value(), r);
    match read {
      case ReadOk(m, _) => return InitResult(JoinedExisting, Some(m));
      case Invalid => return InitResult(InvalidExisting, None);
      case GameMismatch => return InitResult(GameIdMismatch, None);
      case Unreachable => return InitResult(TransportFailed, None);
      case Missing => return InitResult(IncompleteOrConflicting, None);
    }
  }

  /** CREATED only when the remote bytes are exactly the intended ones. */
  method ClassifyUncertainCommit(storage: FS.FakeStorage, cfg: Config, ghost op: OperationId)
    returns (result: InitResult)
    requires storage.Valid() && ValidConfig(cfg)
    modifies storage, storage.faults
    ensures storage.Valid()
    ensures InitOn(cfg, op, storage.capabilities, old(storage.Value()), ClassifyUncertain) ==
            (storage.Value(), result)
  {
    var recovered, r := ReadAuthoritativeManifest(storage, cfg.game);
    Onward(cfg, op, storage.capabilities, old(storage.Value()), ClassifyUncertain, storage.Value(), r);
    match recovered {
      case ReadOk(m, raw) =>
        return InitResult(if raw == ZeroPayload(cfg) then Created else JoinedExisting, Some(m));
      case Invalid => return InitResult(InvalidExisting, None);
      case GameMismatch => return InitResult(GameIdMismatch, None);
      case Missing => return InitResult(TransportFailed, None);
      case Unreachable => return InitResult(TransportFailed, None);
    }
  }

  method StageAndInstall(storage: FS.FakeStorage, cfg: Config, op: OperationId) returns (result: InitResult)
    requires storage.Valid() && ValidConfig(cfg)
    modifies storage, storage.faults
    ensures storage.Valid()
    ensures InitOn(cfg, op, storage.capabilities, old(storage.Value()), StageZero) == (storage.Value(), result)
  {
    var r := storage.WriteFile(TmpManifest(op), ZeroPayload(cfg), false);
    ghost var mid := storage.Value();
    Onward(cfg, op, storage.capabilities, old(storage.Value()), StageZero, mid, r);
    if !r.Failed? {
      r := storage.ReplaceAtomically(TmpManifest(op), ManifestJson);
      Onward(cfg, op, storage.capabilities, mid, Install, storage.Value(), r);
    }
    if !r.Failed? { return InitResult(Created, Some(ZeroManifest(cfg))); }
    match r.error {
      case NoCapability => return InitResult(CapabilityMissing, None);
      case Transport => result := ClassifyUncertainCommit(storage, cfg, op);
      case _ => return InitResult(TransportFailed, None);
    }
  }

  method FinishNewMatch(storage: FS.FakeStorage, cfg: Config, op: OperationId) returns (result: InitResult)
    requires storage.Valid() && ValidConfig(cfg)
    modifies storage, storage.faults
    ensures storage.Valid()
    ensures InitOn(cfg, op, storage.capabilities, old(storage.Value()), MakeSub(0)) == (storage.Value(), result)
  {
    for i := 0 to |SUBDIRECTORIES|
      invariant storage.Valid()
      invariant InitOn(cfg, op, storage.capabilities, old(storage.Value()), MakeSub(0)) ==
                InitOn(cfg, op, storage.capabilities, storage.Value(),
                       if i < |SUBDIRECTORIES| then MakeSub(i) else StageZero)
    {
      ghost var before := storage.Value();
      var r := storage.MakeDirectory(SUBDIRECTORIES[i]);
      Onward(cfg, op, storage.capabilities, before, MakeSub(i), storage.Value(), r);
      if r.Failed? {
        match r.error {
          case NoCapability => return InitResult(CapabilityMissing, None);
          case WrongKind => return InitResult(IncompleteOrConflicting, None);
          case _ => return InitResult(TransportFailed, None);
        }
      }
    }
    result := StageAndInstall(storage, cfg, op);
  }

  /** The whole initialization is exactly its machine's run, whatever faults are scheduled. */
  method InitializeMatch(storage: FS.FakeStorage, cfg: Config, op: OperationId) returns (result: InitResult)
    requires storage.Valid() && ValidConfig(cfg)
    modifies storage, storage.faults
    ensures storage.Valid()
    ensures (storage.Value(), result) == InitOn(cfg, op, storage.capabilities, old(storage.Value()), MakeRoot)
    ensures FS.Undisturbed(storage.capabilities, old(storage.Value())) && Root in old(storage.directories) ==>
              storage.Value().fs == old(storage.Value()).fs && result == Existing(storage.Value().fs, cfg.game)
    ensures FS.Undisturbed(storage.capabilities, old(storage.Value())) && old(storage.Value()).fs == Fs({}, map[]) ==>
              && result == InitResult(Created, Some(ZeroManifest(cfg)))
              && storage.Value().fs == Fs(SKELETON, map[ManifestJson := ZeroPayload(cfg)])
  {
    if FS.Undisturbed(storage.capabilities, storage.Value()) {
      if Root in storage.directories { ExistingAnswers(cfg, op, storage.capabilities, storage.Value()); }
      if storage.Value().fs == Fs({}, map[]) {
        FreshTreeIsInitialized(cfg, op, storage.capabilities, storage.Value());
      }
    }
    var r := storage.MakeDirectory(Root);
    Onward(cfg, op, storage.capabilities, old(storage.Value()), MakeRoot, storage.Value(), r);
    if r.Failed? {
      match r.error {
        case AlreadyExists => result := ClassifyExistingGameRoot(storage, cfg, op);
        case WrongKind => return InitResult(IncompleteOrConflicting, None);
        case NoCapability => return InitResult(CapabilityMissing, None);
        case _ => return InitResult(TransportFailed, None);
      }
    } else {
      result := FinishNewMatch(storage, cfg, op);
    }
  }

  /** A fresh tree without faults: the match is created, with its directories and its
      sequence-zero manifest and nothing else. */
  lemma FreshTreeIsInitialized(cfg: Config, op: OperationId, caps: FS.Capabilities, remote: FS.Remote)
    requires ValidConfig(cfg) && FS.Full(caps) && Counted(remote.schedule.counts)
    requires remote.fs == Fs({}, map[]) && remote.schedule.faults == [] && remote.schedule.corruptions == []
    ensures var (remote', result) := InitOn(cfg, op, caps, remote, MakeRoot);
            && result == InitResult(Created, Some(ZeroManifest(cfg)))
            && remote'.fs == Fs(SKELETON, map[ManifestJson := ZeroPayload(cfg)])
  {
    var r0 := MadeNext(cfg, op, caps, remote, MakeRoot);
    assert r0.fs.dirs == DirsUpTo(0);
    DirectoriesFollow(cfg, op, caps, r0, 0);
  }

  function DirsUpTo(i: nat): set<Path> {
    {Root} + (if i > 0 then {SavesDir} else {}) + (if i > 1 then {TemporaryDir} else {})
    + (if i > 2 then {LocksDir} else {}) + (if i > 3 then {HistoryDir} else {})
  }

  lemma {:induction false} DirectoriesFollow(cfg: Config, op: OperationId, caps: FS.Capabilities,
                                             remote: FS.Remote, i: nat)
    requires ValidConfig(cfg) && FS.Full(caps) && Counted(remote.schedule.counts)
    requires i <= 4 && remote.fs == Fs(DirsUpTo(i), map[])
    requires remote.schedule.faults == [] && remote.schedule.corruptions == []
    ensures var (remote', result) := InitOn(cfg, op, caps, remote, if i < 4 then MakeSub(i) else StageZero);
            && result == InitResult(Created, Some(ZeroManifest(cfg)))
            && remote'.fs == Fs(SKELETON, map[ManifestJson := ZeroPayload(cfg)])
    decreases 4 - i
  {
    if i == 4 {
      assert remote.fs.dirs == SKELETON;
      SkeletonIsFilled(cfg, op, caps, remote);
    } else {
      var next := SubMade(cfg, op, caps, remote, i, SUBDIRECTORIES[i]);
      assert next.fs.dirs == DirsUpTo(i + 1);
      DirectoriesFollow(cfg, op, caps, next, i + 1);
    }
  }

  const SKELETON: set<Path> := {Root, SavesDir, TemporaryDir, LocksDir, HistoryDir}

  lemma SkeletonIsFilled(cfg: Config, op: OperationId, caps: FS.Capabilities, remote: FS.Remote)
    requires ValidConfig(cfg) && FS.Full(caps) && Counted(remote.schedule.counts)
    requires remote.fs == Fs(SKELETON, map[])
    requires remote.schedule.faults == [] && remote.schedule.corruptions == []
    ensures var (remote', result) := InitOn(cfg, op, caps, remote, StageZero);
            && result == InitResult(Created, Some(ZeroManifest(cfg)))
            && remote'.fs == Fs(SKELETON, map[ManifestJson := ZeroPayload(cfg)])
  {
    var r5 := MadeNext(cfg, op, caps, remote, StageZero);
    assert r5.fs == Fs(SKELETON, map[TmpManifest(op) := ZeroPayload(cfg)]);
    var r6 := MadeNext(cfg, op, caps, r5, Install);
    assert r6.fs.files == map[ManifestJson := ZeroPayload(cfg)];
  }

  lemma SubMade(cfg: Config, op: OperationId, caps: FS.Capabilities, remote: FS.Remote, i: nat, p: Path)
    returns (next: FS.Remote)
    requires ValidConfig(cfg) && FS.Full(caps) && Counted(remote.schedule.counts)
    requires i < 4 && p == SUBDIRECTORIES[i] && p !in remote.fs.dirs && Root in remote.fs.dirs
    requires remote.fs.files == map[] && remote.schedule.faults == [] && remote.schedule.corruptions == []
    ensures next.fs == Fs(remote.fs.dirs + {p}, map[]) && Counted(next.schedule.counts)
    ensures next.schedule.faults == [] && next.schedule.corruptions == []
    ensures InitOn(cfg, op, caps, remote, MakeSub(i)) ==
            InitOn(cfg, op, caps, next, if i < 3 then MakeSub(i + 1) else StageZero)
  {
    next := MadeNext(cfg, op, caps, remote, MakeSub(i));
  }

  lemma MadeNext(cfg: Config, op: OperationId, caps: FS.Capabilities, remote: FS.Remote, s: InitStep)
    returns (next: FS.Remote)
    requires ValidConfig(cfg) && WellFormedInit(s) && FS.Full(caps) && Counted(remote.schedule.counts)
    requires s.MakeRoot? || s.MakeSub? || s.StageZero? || s.Install?
    requires remote.schedule.faults == [] && remote.schedule.corruptions == []
    requires OpError(remote.fs, InitOp(cfg, op, s)).None?
    ensures next.fs == Effect(remote.fs, InitOp(cfg, op, s)) && Counted(next.schedule.counts)
    ensures next.schedule.faults == [] && next.schedule.corruptions == []
    ensures InitOn(cfg, op, caps, remote, s) == InitOn(cfg, op, caps, next, OnInitReply(cfg, s, Ok))
  {
    next := FS.Respond(caps, remote, InitOp(cfg, op, s)).0;
    Onward(cfg, op, caps, remote, s, next, Ok);
  }

  // ----- every answer of an undisturbed initialization -----

  /** What the object under `manifest.json` makes of a match that exists already. */
  function Existing(fs: Fs, game: GameId): InitResult {
    if ManifestJson in fs.dirs then InitResult(InvalidExisting, None)
    else if ManifestJson !in fs.files then InitResult(IncompleteOrConflicting, None)
    else
      match ParseManifest(fs.files[ManifestJson])
      case None => InitResult(InvalidExisting, None)
      case Some(m) => if m.gameId == game then InitResult(JoinedExisting, Some(m)) else InitResult(GameIdMismatch, None)
  }

  lemma FaultlessRead(caps: FS.Capabilities, remote: FS.Remote)
    requires FS.Full(caps) && Faultless(remote.schedule) && WellFormed(remote.fs)
    ensures var (remote', r) := FS.Respond(caps, remote, Read(ManifestJson));
            && remote'.fs == remote.fs
            && r == (if ManifestJson in remote.fs.dirs then Failed(WrongKind)
                     else if ManifestJson !in remote.fs.files then Failed(NotFound)
                     else Data(remote.fs.files[ManifestJson]))
  {
  }

  /** Joining: on an existing root the tree stays as it is, and each answer is given exactly
      when the stored object says so. */
  lemma ExistingAnswers(cfg: Config, op: OperationId, caps: FS.Capabilities, remote: FS.Remote)
    requires ValidConfig(cfg) && FS.Full(caps) && Faultless(remote.schedule)
    requires WellFormed(remote.fs) && Root in remote.fs.dirs
    ensures var (remote', result) := InitOn(cfg, op, caps, remote, MakeRoot);
            remote'.fs == remote.fs && result == Existing(remote.fs, cfg.game)
    ensures var result, fs := InitOn(cfg, op, caps, remote, MakeRoot).1, remote.fs;
            && (forall m :: result == InitResult(JoinedExisting, Some(m)) <==>
                  ManifestJson in fs.files && ParseManifest(fs.files[ManifestJson]) == Some(m) && m.gameId == cfg.game)
            && (result.outcome == InvalidExisting <==>
                  ManifestJson in fs.dirs
                  || (ManifestJson in fs.files && ParseManifest(fs.files[ManifestJson]).None?))
            && (result.outcome == GameIdMismatch <==>
                  ManifestJson in fs.files && ParseManifest(fs.files[ManifestJson]).Some?
                  && ParseManifest(fs.files[ManifestJson]).value.gameId != cfg.game)
            && (result.outcome == IncompleteOrConflicting <==>
                  ManifestJson !in fs.files && ManifestJson !in fs.dirs)
  {
    var (r1, made) := FS.Respond(caps, remote, Mkdir(Root));
    assert made == Failed(AlreadyExists) && r1.fs == remote.fs && Faultless(r1.schedule);
    Onward(cfg, op, caps, remote, MakeRoot, r1, made);
    var (r2, read) := FS.Respond(caps, r1, Read(ManifestJson));
    FaultlessRead(caps, r1);
    Onward(cfg, op, caps, r1, ClassifyExisting, r2, read);
    ClassifiedAs(cfg, op, caps, r2, remote.fs, read);
  }

  lemma ClassifiedAs(cfg: Config, op: OperationId, caps: FS.Capabilities, remote: FS.Remote, fs: Fs, read: Reply)
    requires ValidConfig(cfg) && Counted(remote.schedule.counts) && WellFormed(fs)
    requires read == (if ManifestJson in fs.dirs then Failed(WrongKind)
                      else if ManifestJson !in fs.files then Failed(NotFound)
                      else Data(fs.files[ManifestJson]))
    ensures InitOn(cfg, op, caps, remote, OnInitReply(cfg, ClassifyExisting, read)) ==
            (remote, Existing(fs, cfg.game))
  {
    assert ManifestJson in fs.files ==> ManifestJson !in fs.dirs;
  }

  /** A file in place of the root conflicts; nothing is touched. */
  lemma RootFileConflicts(cfg: Config, op: OperationId, caps: FS.Capabilities, remote: FS.Remote)
    requires ValidConfig(cfg) && FS.Full(caps) && Faultless(remote.schedule) && Root in remote.fs.files
    ensures var (remote', result) := InitOn(cfg, op, caps, remote, MakeRoot);
            remote'.fs == remote.fs && result == InitResult(IncompleteOrConflicting, None)
  {
    var (r1, made) := FS.Respond(caps, remote, Mkdir(Root));
    Onward(cfg, op, caps, remote, MakeRoot, r1, made);
  }

  /** Without a root the tree is empty, so these two and the fresh tree are all there is. */
  lemma NoRootIsFresh(fs: Fs)
    requires WellFormed(fs) && Root !in fs.dirs && Root !in fs.files
    ensures fs == Fs({}, map[])
  {
    forall p ensures p !in fs.dirs && p !in fs.files {
      NothingWithoutRoot(fs, p);
    }
    assert fs.dirs == {} && fs.files == map[];
  }

  lemma {:induction false} NothingWithoutRoot(fs: Fs, p: Path)
    requires WellFormed(fs) && Root !in fs.dirs && Root !in fs.files
    ensures p !in fs.dirs + fs.files.Keys
    decreases Depth(p)
  {
    if p != Root { NothingWithoutRoot(fs, Parent(p).value); }
  }

  function Depth(p: Path): nat {
    match p
    case Root => 0
    case SavesDir | TemporaryDir | LocksDir | HistoryDir | ManifestJson => 1
    case LockJson => 3
    case _ => 2
  }

  /** A storage without exclusive creation of directories is refused untouched. */
  lemma NoCapabilityAnswers(cfg: Config, op: OperationId, caps: FS.Capabilities, remote: FS.Remote)
    requires ValidConfig(cfg) && Counted(remote.schedule.counts) && !caps.exclusiveMkdir
    ensures InitOn(cfg, op, caps, remote, MakeRoot) == (remote, InitResult(CapabilityMissing, None))
  {
    Onward(cfg, op, caps, remote, MakeRoot, remote, Failed(NoCapability));
  }

  /** After a lost response: created exactly when the stored bytes are the intended ones,
      joined exactly when they are another manifest of this game. */
  lemma UncertainAnswers(cfg: Config, op: OperationId, caps: FS.Capabilities, remote: FS.Remote)
    requires ValidConfig(cfg) && FS.Full(caps) && Faultless(remote.schedule) && WellFormed(remote.fs)
    ensures var (remote', result) := InitOn(cfg, op, caps, remote, ClassifyUncertain);
            var fs := remote.fs;
            var stored := ManifestJson in fs.files;
            && remote'.fs == fs
            && (result.outcome == Created <==> stored && fs.files[ManifestJson] == ZeroPayload(cfg))
            && (result.outcome == JoinedExisting <==>
                  stored && fs.files[ManifestJson] != ZeroPayload(cfg)
                  && ParseManifest(fs.files[ManifestJson]).Some?
                  && ParseManifest(fs.files[ManifestJson]).value.gameId == cfg.game)
            && (result.outcome == Created || result.outcome == JoinedExisting ==>
                  result.manifest == ParseManifest(fs.files[ManifestJson]))
            && (result.outcome == TransportFailed <==> !stored && ManifestJson !in fs.dirs)
            && (result.outcome == InvalidExisting <==>
                  ManifestJson in fs.dirs || (stored && ParseManifest(fs.files[ManifestJson]).None?))
  {
    var (r1, read) := FS.Respond(caps, remote, Read(ManifestJson));
    FaultlessRead(caps, remote);
    Onward(cfg, op, caps, remote, ClassifyUncertain, r1, read);
    assert ManifestJson in remote.fs.files ==> ManifestJson !in remote.fs.dirs;
    assert ParseManifest(ZeroPayload(cfg)) == Some(ZeroManifest(cfg));
  }

  /** A lost request or response: before the install nothing is concluded, after it the
      stored bytes are read. */
  lemma LossAnswers(cfg: Config, s: InitStep)
    requires ValidConfig(cfg) && WellFormedInit(s) && !s.Finished?
    ensures OnInitReply(cfg, s, Failed(Transport)) ==
              if s.StageZero? || s.Install? then ClassifyUncertain else Ended(TransportFailed)
  {
  }
}
