/** A call left alone: no fault, no other client.  When exactly it commits, and where it
    ends. */
module Alone {
  import opened Domain
  import opened Storage
  import opened HashClassify
  import opened Handoff
  import opened Invariant
  import opened HandoffSafety
  import opened NoRepair

  datatype Run = Run(fs: Fs, mem: Memory, step: Step)

  function StepAlone(req: Request, run: Run): (run': Run)
    requires WellFormedStep(req, run.step) && ActionOf(req, run.step) != Halt
    ensures WellFormedStep(req, run'.step) && Rank(run'.step) < Rank(run.step)
  {
    match ActionOf(req, run.step)
    case Remote(op) =>
      var (fs', r) := Exec(run.fs, op, NoFault);
      EveryReplyMakesProgress(req, run.mem, run.step, r);
      Run(fs', run.mem, OnReply(req, run.mem, run.step, r))
    case Local =>
      EveryLocalStepMakesProgress(req, run.mem, run.step);
      var (mem', s') := OnLocal(req, run.mem, run.step);
      Run(run.fs, mem', s')
  }

  /** The rest of a call, uninterrupted. */
  function Finally(req: Request, run: Run): (last: Run)
    requires WellFormedStep(req, run.step)
    ensures last.step.Returned?
    decreases Rank(run.step)
  {
    if ActionOf(req, run.step) == Halt then run else Finally(req, StepAlone(req, run))
  }

  predicate Matches(fs: Fs, p: Path, fp: Fingerprint) {
    p in fs.files ==> FINGERPRINT(fs.files[p]) == fp
  }

  // ----- what is still needed at each stage -----

  predicate RoomForSave(fs: Fs, req: Request, raw: Content)
    requires Candidate(req, raw)
  {
    && SavesDir in fs.dirs && FinalPath(req, raw) !in fs.dirs
    && Matches(fs, FinalPath(req, raw), FINGERPRINT(req.bytes))
  }

  predicate RoomForArchive(fs: Fs, raw: Content)
    requires ParseManifest(raw).Some?
  {
    && HistoryDir in fs.dirs && ArchivePath(raw) !in fs.dirs
    && Matches(fs, ArchivePath(raw), FINGERPRINT(raw))
  }

  predicate RoomForManifest(fs: Fs, req: Request) {
    TemporaryDir in fs.dirs && TmpManifest(req.op) !in fs.dirs
  }

  predicate UploadLeft(fs: Fs, req: Request, stage: Stage, raw: Content)
    requires Candidate(req, raw) && Uploading(stage)
  {
    var up, save := TmpUpload(req.op, req.ext), FINGERPRINT(req.bytes);
    match stage
    case UpCompare => TemporaryDir in fs.dirs && up !in fs.dirs && RoomForSave(fs, req, raw)
    case UpWrite(overwrite) =>
      && TemporaryDir in fs.dirs && up !in fs.dirs && (overwrite || up !in fs.files)
      && RoomForSave(fs, req, raw)
    case UpVerify => Stored(fs, up, save) && RoomForSave(fs, req, raw)
    case PubMove =>
      && up in fs.files && RoomForSave(fs, req, raw)
      && (FinalPath(req, raw) !in fs.files ==> Stored(fs, up, save))
    case PubReuse | PubCheck | FinalCheck => Stored(fs, FinalPath(req, raw), save)
  }

  predicate ArchiveLeft(fs: Fs, req: Request, stage: Stage, raw: Content)
    requires Candidate(req, raw) && Archiving(stage)
  {
    var hist, archive := TmpHistory(req.op), FINGERPRINT(raw);
    match stage
    case HistCompare | HistWrite =>
      && TemporaryDir in fs.dirs && hist !in fs.dirs && Matches(fs, hist, archive)
      && RoomForArchive(fs, raw)
    case HistRace | HistVerify => Stored(fs, hist, archive) && RoomForArchive(fs, raw)
    case HistMove =>
      && hist in fs.files && RoomForArchive(fs, raw)
      && (ArchivePath(raw) !in fs.files ==> Stored(fs, hist, archive))
    case HistReuse | HistCheck => Stored(fs, ArchivePath(raw), archive)
  }

  /** Exactly what the tree must look like for the rest of the call to commit. */
  predicate WorkLeft(fs: Fs, req: Request, stage: Stage, raw: Content)
    requires Candidate(req, raw)
  {
    if Uploading(stage) then
      && UploadLeft(fs, req, stage, raw) && ArchiveLeft(fs, req, HistCompare, raw)
      && RoomForManifest(fs, req)
    else if Archiving(stage) then ArchiveLeft(fs, req, stage, raw) && RoomForManifest(fs, req)
    else if stage == StageManifest then RoomForManifest(fs, req)
    else if stage.OwnKind? then false
    else TmpManifest(req.op) in fs.files
  }

  predicate NewTurn(fs: Fs, mem: Memory, req: Request) {
    && ManifestJson in fs.files && Candidate(req, fs.files[ManifestJson])
    && DigestOf(req) !in mem.accepted
  }

  predicate OnTrack(req: Request, run: Run) {
    match run.step
    case ReadManifest =>
      NewTurn(run.fs, run.mem, req) && WorkLeft(run.fs, req, UpCompare, run.fs.files[ManifestJson])
    case Work(stage, raw) => Candidate(req, raw) && WorkLeft(run.fs, req, stage, raw)
    case Record(r) => r.outcome == Committed
    case RelList(r) => r.outcome == Committed
    case RelRead(r) => r.outcome == Committed
    case RelJson(r) => r.outcome == Committed
    case RelDir(r) => r.outcome == Committed
    case RelClear(r) => r.outcome == Committed
    case Returned(r) => r.outcome == Committed
    case RelKind(_, _) => false
    case AcqMkdir | AcqWrite | AcqBegin(_) | ResList | ResRead | ResKind(_) | Uncertain(_) => false
  }

  /** What holds at every step of a call left alone since its manifest read. */
  ghost predicate Steady(req: Request, run: Run, raw: Content) {
    && WellFormed(run.fs) && WellFormedStep(req, run.step) && Claim(run.fs, req, run.step)
    && Candidate(req, raw)
    && match run.step
       case ReadManifest => ManifestJson in run.fs.files && run.fs.files[ManifestJson] == raw
       case Work(stage, r) =>
         && r == raw && ManifestJson in run.fs.files && run.fs.files[ManifestJson] == raw
         && (StageRank(stage) <= 4 && TmpManifest(req.op) in run.fs.files ==>
               run.fs.files[TmpManifest(req.op)] == Payload(req, raw))
       case Record(r) => r.outcome == Committed ==> Installed1(run.fs, req, raw)
       case RelList(r) => r.outcome == Committed ==> Installed1(run.fs, req, raw)
       case RelRead(r) => r.outcome == Committed ==> Installed1(run.fs, req, raw)
       case RelJson(r) => r.outcome == Committed ==> Installed1(run.fs, req, raw)
       case RelDir(r) =>
         LockJson !in run.fs.dirs && (r.outcome == Committed ==> Installed1(run.fs, req, raw))
       case RelClear(r) => r.outcome == Committed ==> Installed1(run.fs, req, raw)
       case Returned(r) => r.outcome == Committed ==> Installed1(run.fs, req, raw)
       case _ => false
  }

  predicate Installed1(fs: Fs, req: Request, raw: Content)
    requires Candidate(req, raw)
  {
    ManifestJson in fs.files && fs.files[ManifestJson] == Payload(req, raw)
  }

  // ----- one step -----

  /** Staging and publishing the save leave the archive's and the manifest's room alone. */
  lemma UploadFrame(fs: Fs, req: Request, stage: Stage, raw: Content)
    requires Candidate(req, raw) && Uploading(stage)
    ensures var fs' := Exec(fs, WorkOp(req, stage, raw), NoFault).0;
            && (ArchiveLeft(fs', req, HistCompare, raw) <==> ArchiveLeft(fs, req, HistCompare, raw))
            && (RoomForManifest(fs', req) <==> RoomForManifest(fs, req))
  {
  }

  predicate AfterUpload(fs: Fs, req: Request, raw: Content, s: Step)
    requires Candidate(req, raw)
  {
    s.Work? && (s.stage == HistCompare || (Uploading(s.stage) && UploadLeft(fs, req, s.stage, raw)))
  }

  lemma StagingTrack(fs: Fs, req: Request, stage: Stage, raw: Content)
    requires WellFormed(fs) && Candidate(req, raw) && (stage.UpCompare? || stage.UpWrite? || stage.UpVerify?)
    ensures var (fs', r) := Exec(fs, WorkOp(req, stage, raw), NoFault);
            UploadLeft(fs, req, stage, raw) <==> AfterUpload(fs', req, raw, OnUpload(req, stage, raw, r))
  {
    var up := TmpUpload(req.op, req.ext);
    assert up in fs.dirs + fs.files.Keys ==> TemporaryDir in fs.dirs;
  }

  lemma PublishTrack(fs: Fs, req: Request, stage: Stage, raw: Content)
    requires WellFormed(fs) && Candidate(req, raw)
    requires stage.PubMove? || stage.PubReuse? || stage.PubCheck? || stage.FinalCheck?
    ensures var (fs', r) := Exec(fs, WorkOp(req, stage, raw), NoFault);
            UploadLeft(fs, req, stage, raw) <==> AfterUpload(fs', req, raw, OnUpload(req, stage, raw, r))
  {
    var save := FinalPath(req, raw);
    assert save in fs.dirs + fs.files.Keys ==> SavesDir in fs.dirs;
  }

  lemma UploadTrack(fs: Fs, req: Request, stage: Stage, raw: Content)
    requires WellFormed(fs) && Candidate(req, raw) && Uploading(stage)
    ensures var (fs', r) := Exec(fs, WorkOp(req, stage, raw), NoFault);
            var s := OnUpload(req, stage, raw, r);
            WorkLeft(fs, req, stage, raw) <==> s.Work? && WorkLeft(fs', req, s.stage, raw)
  {
    UploadFrame(fs, req, stage, raw);
    if stage.UpCompare? || stage.UpWrite? || stage.UpVerify? { StagingTrack(fs, req, stage, raw); }
    else { PublishTrack(fs, req, stage, raw); }
    var (fs', r) := Exec(fs, WorkOp(req, stage, raw), NoFault);
    UploadNext(req, stage, raw, r);
    UploadJoin(fs, fs', req, stage, raw, OnUpload(req, stage, raw, r));
  }

  lemma UploadNext(req: Request, stage: Stage, raw: Content, r: Reply)
    requires Candidate(req, raw) && Uploading(stage)
    ensures var s := OnUpload(req, stage, raw, r); s.Work? ==> Uploading(s.stage) || s.stage == HistCompare
  {
  }

  lemma UploadJoin(fs: Fs, fs': Fs, req: Request, stage: Stage, raw: Content, s: Step)
    requires Candidate(req, raw) && Uploading(stage)
    requires ArchiveLeft(fs', req, HistCompare, raw) <==> ArchiveLeft(fs, req, HistCompare, raw)
    requires RoomForManifest(fs', req) <==> RoomForManifest(fs, req)
    requires UploadLeft(fs, req, stage, raw) <==> AfterUpload(fs', req, raw, s)
    requires s.Work? ==> Uploading(s.stage) || s.stage == HistCompare
    ensures WorkLeft(fs, req, stage, raw) <==> s.Work? && WorkLeft(fs', req, s.stage, raw)
  {
  }

  lemma ArchiveFrame(fs: Fs, req: Request, stage: Stage, raw: Content)
    requires Candidate(req, raw) && Archiving(stage)
    ensures var fs' := Exec(fs, WorkOp(req, stage, raw), NoFault).0;
            RoomForManifest(fs', req) <==> RoomForManifest(fs, req)
  {
  }

  predicate AfterArchive(fs: Fs, req: Request, raw: Content, s: Step)
    requires Candidate(req, raw)
  {
    s.Work? && (s.stage == StageManifest || (Archiving(s.stage) && ArchiveLeft(fs, req, s.stage, raw)))
  }

  lemma KeepingTrack(fs: Fs, req: Request, stage: Stage, raw: Content)
    requires WellFormed(fs) && Candidate(req, raw)
    requires stage.HistCompare? || stage.HistWrite? || stage.HistRace? || stage.HistVerify?
    ensures var (fs', r) := Exec(fs, WorkOp(req, stage, raw), NoFault);
            ArchiveLeft(fs, req, stage, raw) <==> AfterArchive(fs', req, raw, OnArchive(req, stage, raw, r))
  {
    if stage.HistWrite? { HistoryWriteTrack(fs, req, raw); } else { HistoryReadTrack(fs, req, stage, raw); }
  }

  lemma HistoryReadTrack(fs: Fs, req: Request, stage: Stage, raw: Content)
    requires WellFormed(fs) && Candidate(req, raw) && (stage.HistCompare? || stage.HistRace? || stage.HistVerify?)
    ensures var (fs', r) := Exec(fs, WorkOp(req, stage, raw), NoFault);
            ArchiveLeft(fs, req, stage, raw) <==> AfterArchive(fs', req, raw, OnArchive(req, stage, raw, r))
  {
    var hist := TmpHistory(req.op);
    assert hist in fs.dirs + fs.files.Keys ==> TemporaryDir in fs.dirs;
  }

  lemma HistoryWriteTrack(fs: Fs, req: Request, raw: Content)
    requires WellFormed(fs) && Candidate(req, raw)
    ensures var (fs', r) := Exec(fs, WorkOp(req, HistWrite, raw), NoFault);
            ArchiveLeft(fs, req, HistWrite, raw) <==> AfterArchive(fs', req, raw, OnArchive(req, HistWrite, raw, r))
  {
    var hist := TmpHistory(req.op);
    assert hist in fs.dirs + fs.files.Keys ==> TemporaryDir in fs.dirs;
  }

  lemma MovingTrack(fs: Fs, req: Request, stage: Stage, raw: Content)
    requires WellFormed(fs) && Candidate(req, raw)
    requires stage.HistMove? || stage.HistReuse? || stage.HistCheck?
    ensures var (fs', r) := Exec(fs, WorkOp(req, stage, raw), NoFault);
            ArchiveLeft(fs, req, stage, raw) <==> AfterArchive(fs', req, raw, OnArchive(req, stage, raw, r))
  {
    var h := ArchivePath(raw);
    assert h in fs.dirs + fs.files.Keys ==> HistoryDir in fs.dirs;
  }

  lemma ArchiveJoin(fs: Fs, fs': Fs, req: Request, stage: Stage, raw: Content, s: Step)
    requires Candidate(req, raw) && Archiving(stage)
    requires RoomForManifest(fs', req) <==> RoomForManifest(fs, req)
    requires ArchiveLeft(fs, req, stage, raw) <==> AfterArchive(fs', req, raw, s)
    requires s.Work? ==> Archiving(s.stage) || s.stage == StageManifest
    ensures WorkLeft(fs, req, stage, raw) <==> s.Work? && WorkLeft(fs', req, s.stage, raw)
  {
  }

  lemma ArchiveTrack(fs: Fs, req: Request, stage: Stage, raw: Content)
    requires WellFormed(fs) && Candidate(req, raw) && Archiving(stage)
    ensures var (fs', r) := Exec(fs, WorkOp(req, stage, raw), NoFault);
            var s := OnArchive(req, stage, raw, r);
            WorkLeft(fs, req, stage, raw) <==> s.Work? && WorkLeft(fs', req, s.stage, raw)
  {
    ArchiveFrame(fs, req, stage, raw);
    if stage.HistMove? || stage.HistReuse? || stage.HistCheck? { MovingTrack(fs, req, stage, raw); }
    else { KeepingTrack(fs, req, stage, raw); }
    var (fs', r) := Exec(fs, WorkOp(req, stage, raw), NoFault);
    ArchiveNext(req, stage, raw, r);
    ArchiveJoin(fs, fs', req, stage, raw, OnArchive(req, stage, raw, r));
  }

  lemma StageManifestTrack(fs: Fs, req: Request, raw: Content)
    requires WellFormed(fs) && Candidate(req, raw)
    ensures var (fs', r) := Exec(fs, WorkOp(req, StageManifest, raw), NoFault);
            var s := OnCommit(req, StageManifest, raw, r);
            RoomForManifest(fs, req) <==> s == Work(OwnList, raw) && TmpManifest(req.op) in fs'.files
  {
  }

  /** The ownership check changes nothing and passes while the lock is held. */
  lemma OwnershipTrack(fs: Fs, req: Request, stage: Stage, raw: Content)
    requires WellFormed(fs) && Candidate(req, raw) && Holds(fs, req)
    requires stage == OwnList || stage == OwnRead
    ensures var (fs', r) := Exec(fs, WorkOp(req, stage, raw), NoFault);
            fs' == fs && OnCommit(req, stage, raw, r) == Work(if stage == OwnList then OwnRead else Replace, raw)
  {
    LockTree(fs);
  }

  lemma ReplaceTrack(fs: Fs, req: Request, raw: Content)
    requires WellFormed(fs) && Candidate(req, raw)
    requires ManifestJson in fs.files
    requires TmpManifest(req.op) in fs.files ==> fs.files[TmpManifest(req.op)] == Payload(req, raw)
    ensures var (fs', r) := Exec(fs, WorkOp(req, Replace, raw), NoFault);
            var s := OnCommit(req, Replace, raw, r);
            if TmpManifest(req.op) in fs.files then
              s.Record? && s.result.outcome == Committed && Installed1(fs', req, raw)
            else Gave(req, s)
  {
    assert ManifestJson in fs.dirs + fs.files.Keys;
  }

  // ----- one step of a call left alone -----

  lemma StepKeepsClaim(req: Request, run: Run)
    requires WellFormed(run.fs) && WellFormedStep(req, run.step) && Claim(run.fs, req, run.step)
    requires ActionOf(req, run.step).Remote?
    ensures WellFormed(StepAlone(req, run).fs) && Claim(StepAlone(req, run).fs, req, StepAlone(req, run).step)
  {
    var fs', s := StepAlone(req, run).fs, run.step;
    ExecKeepsWellFormed(run.fs, ActionOf(req, s).op, NoFault);
    if s.AcqMkdir? || s.AcqWrite? || s.RelJson? || s.RelDir? {
      LockStepClaims(run.fs, fs', req, run.mem, s, NoFault);
    } else {
      OnlyLockSteps(req, s);
      ElsewhereKeepsLock(run.fs, ActionOf(req, s).op, NoFault);
      QuietStepClaims(run.fs, fs', req, run.mem, s, NoFault);
    }
  }

  lemma LocalKeepsClaim(req: Request, run: Run)
    requires WellFormedStep(req, run.step) && Claim(run.fs, req, run.step)
    requires ActionOf(req, run.step).Local?
    ensures Claim(run.fs, req, StepAlone(req, run).step)
  {
  }

  lemma ReadTrack(req: Request, run: Run, raw: Content)
    requires Steady(req, run, raw) && run.step.ReadManifest?
    ensures var next := StepAlone(req, run);
            && next.fs == run.fs && next.mem == run.mem
            && (if DigestOf(req) in run.mem.accepted then Gave(req, next.step)
                else next.step == Work(UpCompare, raw))
  {
    assert ManifestJson in run.fs.dirs + run.fs.files.Keys;
  }

  /** Before the replacement the manifest is left alone, and its staged successor is
      written only at its own stage. */
  lemma WorkFrame(fs: Fs, req: Request, stage: Stage, raw: Content)
    requires Candidate(req, raw) && stage != Replace
    ensures var fs' := Exec(fs, WorkOp(req, stage, raw), NoFault).0;
            && (ManifestJson in fs.files ==>
                  ManifestJson in fs'.files && fs'.files[ManifestJson] == fs.files[ManifestJson])
            && (TmpManifest(req.op) in fs'.files ==>
                  || (TmpManifest(req.op) in fs.files
                      && fs'.files[TmpManifest(req.op)] == fs.files[TmpManifest(req.op)])
                  || (stage == StageManifest && fs'.files[TmpManifest(req.op)] == Payload(req, raw)))
  {
  }

  /** Giving up ends off the track. */
  lemma GaveSteady(req: Request, run: Run, raw: Content)
    requires WellFormed(run.fs) && WellFormedStep(req, run.step) && Claim(run.fs, req, run.step)
    requires Candidate(req, raw) && Gave(req, run.step)
    ensures Steady(req, run, raw) && !OnTrack(req, run)
  {
  }

  lemma WorkOnward(req: Request, run: Run, raw: Content, s: Step)
    requires Steady(req, run, raw) && run.step.Work? && run.step.stage != Replace
    requires s == StepAlone(req, run).step
    requires Gave(req, s) || (s.Work? && s.raw == raw
               && (StageRank(s.stage) <= 4 ==> StageRank(run.step.stage) <= 5))
    requires StageRank(run.step.stage) == 5 ==> run.step.stage == StageManifest
    requires WorkLeft(run.fs, req, run.step.stage, raw) <==>
               s.Work? && WorkLeft(StepAlone(req, run).fs, req, s.stage, raw)
    requires run.step.stage == StageManifest && s.Work? && TmpManifest(req.op) in StepAlone(req, run).fs.files ==>
               StepAlone(req, run).fs.files[TmpManifest(req.op)] == Payload(req, raw)
    ensures Steady(req, StepAlone(req, run), raw)
    ensures OnTrack(req, run) <==> OnTrack(req, StepAlone(req, run))
  {
    StepKeepsClaim(req, run);
    WorkFrame(run.fs, req, run.step.stage, raw);
    if Gave(req, s) { GaveSteady(req, StepAlone(req, run), raw); }
  }

  lemma UploadOnward(req: Request, stage: Stage, raw: Content, r: Reply)
    requires Candidate(req, raw) && Uploading(stage)
    ensures var s := OnUpload(req, stage, raw, r); s.Work? ==> StageRank(s.stage) > 4
  {
  }

  lemma ReplaceSteady(req: Request, run: Run, raw: Content)
    requires Steady(req, run, raw) && run.step == Work(Replace, raw)
    ensures Steady(req, StepAlone(req, run), raw)
    ensures OnTrack(req, run) <==> OnTrack(req, StepAlone(req, run))
  {
    StepKeepsClaim(req, run);
    ReplaceTrack(run.fs, req, raw);
    if TmpManifest(req.op) !in run.fs.files { GaveSteady(req, StepAlone(req, run), raw); }
  }

  lemma CommitSteady(req: Request, run: Run, raw: Content)
    requires Steady(req, run, raw) && run.step.Work?
    requires !Uploading(run.step.stage) && !Archiving(run.step.stage) && run.step.stage != Replace
    ensures Steady(req, StepAlone(req, run), raw)
    ensures OnTrack(req, run) <==> OnTrack(req, StepAlone(req, run))
  {
    var fs, stage, s := run.fs, run.step.stage, StepAlone(req, run).step;
    if stage == StageManifest {
      StageManifestTrack(fs, req, raw);
      StagedWhole(fs, req, raw);
    } else {
      OwnershipTrack(fs, req, stage, raw);
    }
    WorkOnward(req, run, raw, s);
  }

  lemma StagedWhole(fs: Fs, req: Request, raw: Content)
    requires Candidate(req, raw)
    ensures var (fs', r) := Exec(fs, WorkOp(req, StageManifest, raw), NoFault);
            OnCommit(req, StageManifest, raw, r).Work? && TmpManifest(req.op) in fs'.files ==>
              fs'.files[TmpManifest(req.op)] == Payload(req, raw)
  {
  }

  lemma WorkSteady(req: Request, run: Run, raw: Content)
    requires Steady(req, run, raw) && run.step.Work?
    ensures Steady(req, StepAlone(req, run), raw)
    ensures OnTrack(req, run) <==> OnTrack(req, StepAlone(req, run))
  {
    var fs, stage := run.fs, run.step.stage;
    var r := Exec(fs, WorkOp(req, stage, raw), NoFault).1;
    if Uploading(stage) {
      UploadTrack(fs, req, stage, raw);
      UploadOnward(req, stage, raw, r);
      WorkOnward(req, run, raw, OnUpload(req, stage, raw, r));
    } else if Archiving(stage) {
      ArchiveTrack(fs, req, stage, raw);
      ArchiveNext(req, stage, raw, r);
      WorkOnward(req, run, raw, OnArchive(req, stage, raw, r));
    } else if stage == Replace {
      ReplaceSteady(req, run, raw);
    } else {
      CommitSteady(req, run, raw);
    }
  }

  lemma ReleaseSteady(req: Request, run: Run, raw: Content)
    requires Steady(req, run, raw)
    requires run.step.RelList? || run.step.RelRead? || run.step.RelJson? || run.step.RelDir?
    ensures var next := StepAlone(req, run);
            && Steady(req, next, raw) && !next.step.Returned? && next.step.result == run.step.result
            && next.mem == run.mem
            && (next.step.RelClear? ==> LockDir !in next.fs.dirs && LockJson !in next.fs.files)
            && (next.step.RelClear? <==> run.step.RelDir?)
            && (ManifestJson in next.fs.files <==> ManifestJson in run.fs.files)
            && (ManifestJson in run.fs.files ==> next.fs.files[ManifestJson] == run.fs.files[ManifestJson])
  {
    StepKeepsClaim(req, run);
    LockTree(run.fs);
    if run.step.RelDir? {
      forall q | q in run.fs.dirs + run.fs.files.Keys ensures Parent(q) != Some(LockDir) {
      }
      assert Children(run.fs, LockDir) == {};
    }
  }

  lemma SteadyStep(req: Request, run: Run, raw: Content)
    requires Steady(req, run, raw) && !run.step.Returned?
    ensures Steady(req, StepAlone(req, run), raw)
    ensures OnTrack(req, run) <==> OnTrack(req, StepAlone(req, run))
  {
    match run.step
    case ReadManifest => ReadTrack(req, run, raw); StepKeepsClaim(req, run);
    case Work(_, _) => WorkSteady(req, run, raw);
    case Record(_) => LocalKeepsClaim(req, run);
    case RelClear(_) => LocalKeepsClaim(req, run);
    case RelList(_) => ReleaseSteady(req, run, raw);
    case RelRead(_) => ReleaseSteady(req, run, raw);
    case RelJson(_) => ReleaseSteady(req, run, raw);
    case RelDir(_) => ReleaseSteady(req, run, raw);
  }

  // ----- the whole of a call left alone -----

  /** A call commits exactly when its tree has room for everything it still has to do, and
      then the manifest it leaves is its own. */
  lemma {:induction false} CommitsExactlyOnTrack(req: Request, run: Run, raw: Content)
    requires Steady(req, run, raw)
    ensures Finally(req, run).step.result.outcome == Committed <==> OnTrack(req, run)
    ensures OnTrack(req, run) ==> Installed1(Finally(req, run).fs, req, raw)
    decreases Rank(run.step)
  {
    if !run.step.Returned? {
      SteadyStep(req, run, raw);
      CommitsExactlyOnTrack(req, StepAlone(req, run), raw);
    }
  }

  /** The lock is gone and the journal is clear. */
  predicate Clean(run: Run) {
    LockDir !in run.fs.dirs && LockJson !in run.fs.files && run.mem.inProgress.None?
  }

  predicate SameManifest(fs: Fs, fs': Fs) {
    && (ManifestJson in fs.files <==> ManifestJson in fs'.files)
    && (ManifestJson in fs.files ==> fs'.files[ManifestJson] == fs.files[ManifestJson])
  }

  /** Release, left alone, reports the result it was given and leaves nothing behind. */
  lemma {:induction false} ReleaseEnds(req: Request, run: Run, raw: Content)
    requires Steady(req, run, raw)
    requires run.step.Record? || run.step.RelList? || run.step.RelRead? || run.step.RelJson?
             || run.step.RelDir?
             || (run.step.RelClear? && LockDir !in run.fs.dirs && LockJson !in run.fs.files)
    ensures var last := Finally(req, run);
            last.step == Returned(run.step.result) && Clean(last) && SameManifest(run.fs, last.fs)
    decreases Rank(run.step)
  {
    var next := StepAlone(req, run);
    SteadyStep(req, run, raw);
    if run.step.RelClear? {
      assert Finally(req, run) == Finally(req, next) == next;
    } else {
      if !run.step.Record? { ReleaseSteady(req, run, raw); }
      ReleaseEnds(req, next, raw);
    }
  }

  /** A committing call ends with its lock released and its journal clear. */
  lemma {:induction false} CommitEndsClean(req: Request, run: Run, raw: Content)
    requires Steady(req, run, raw) && OnTrack(req, run)
    requires run.step.ReadManifest? || run.step.Work? || run.step.Record?
    ensures Clean(Finally(req, run))
    decreases Rank(run.step)
  {
    SteadyStep(req, run, raw);
    if run.step.Record? {
      ReleaseEnds(req, run, raw);
    } else {
      CommitLeads(req, run, raw);
      CommitEndsClean(req, StepAlone(req, run), raw);
    }
  }

  lemma CommitLeads(req: Request, run: Run, raw: Content)
    requires Steady(req, run, raw) && (run.step.ReadManifest? || run.step.Work?)
    requires OnTrack(req, run) && OnTrack(req, StepAlone(req, run))
    ensures StepAlone(req, run).step.Work? || StepAlone(req, run).step.Record?
  {
    if run.step.ReadManifest? {
      ReadTrack(req, run, raw);
    } else {
      WorkLeads(req, run.step.stage, raw, Exec(run.fs, WorkOp(req, run.step.stage, raw), NoFault).1);
    }
  }

  /** The work stages lead to more work, a recorded result, or an uncommitted end. */
  lemma WorkLeads(req: Request, stage: Stage, raw: Content, r: Reply)
    requires Candidate(req, raw)
    ensures var s := OnWork(req, stage, raw, r); s.Work? || s.Record? || s.Uncertain? || Gave(req, s)
  {
  }

  /** A call that does not have the current turn, or whose hash is known, commits nothing. */
  lemma {:induction false} ResultStays(req: Request, run: Run)
    requires WellFormedStep(req, run.step)
    requires HasResult(run.step)
    requires run.step.result.outcome != Committed
    ensures Finally(req, run).step.result.outcome != Committed
    decreases Rank(run.step)
  {
    if !run.step.Returned? { ResultStays(req, StepAlone(req, run)); }
  }

  /** Seen from its manifest read, a call left alone commits exactly when the turn is new
      and the tree has room for the save, the archive and the manifest. */
  lemma CommitsFromRead(req: Request, fs: Fs, mem: Memory)
    requires WellFormed(fs) && ValidRequest(req) && Holds(fs, req)
    ensures Finally(req, Run(fs, mem, ReadManifest)).step.result.outcome == Committed <==>
              NewTurn(fs, mem, req) && WorkLeft(fs, req, UpCompare, fs.files[ManifestJson])
  {
    var run := Run(fs, mem, ReadManifest);
    LockTree(fs);
    if ManifestJson in fs.files && Candidate(req, fs.files[ManifestJson]) {
      CommitsExactlyOnTrack(req, run, fs.files[ManifestJson]);
    } else {
      NotNewEnds(req, run);
      ResultStays(req, StepAlone(req, run));
    }
  }

  lemma NotNewEnds(req: Request, run: Run)
    requires WellFormed(run.fs) && ValidRequest(req) && run.step.ReadManifest?
    requires !(ManifestJson in run.fs.files && Candidate(req, run.fs.files[ManifestJson]))
    ensures var s := StepAlone(req, run).step;
            (s.Record? || Gave(req, s)) && s.result.outcome != Committed
  {
    var r := Exec(run.fs, Read(ManifestJson), NoFault).1;
    match ReadOutcome(req.game, r)
    case ReadOk(m, raw) => NewIffUnknown(DigestOf(req), m, req.player, EvidenceFor(run.mem, DigestOf(req)));
    case _ =>
  }
}
