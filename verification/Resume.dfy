/** A handoff cut anywhere, by a crash or a lost response, and run again, ends where an
    uninterrupted one would have ended. */
module Resume {
  import opened Domain
  import opened Storage
  import opened HashClassify
  import opened Handoff
  import opened Initialize
  import opened World
  import opened Invariant
  import opened HandoffSafety
  import opened NoRepair
  import opened Alone

  /** The same request submitted again at another time. */
  function At(req: Request, n: Timestamp): Request { req.(now := n) }

  /** The manifest is this turn's, whichever attempt installed it. */
  ghost predicate Landed(fs: Fs, req: Request, raw: Content)
    requires Candidate(req, raw)
  {
    exists n: Timestamp :: Installed1(fs, At(req, n), raw)
  }

  /** The manifest is still the one read, and everything else has room. */
  predicate Open(fs: Fs, mem: Memory, req: Request, raw: Content)
    requires Candidate(req, raw)
  {
    && ManifestJson in fs.files && fs.files[ManifestJson] == raw
    && DigestOf(req) !in mem.accepted && WorkLeft(fs, req, UpCompare, raw)
  }

  predicate Journalled(mem: Memory, req: Request) {
    mem.inProgress == Some(ProgressOf(req)) && DigestOf(req) in mem.attempted
  }

  /** A fresh process that submits the request again will finish the turn. */
  ghost predicate Resumable(fs: Fs, mem: Memory, req: Request, raw: Content) {
    && WellFormed(fs) && Holds(fs, req) && Journalled(mem, req) && Candidate(req, raw)
    && |SourceOf(raw).players| >= 2
    && (Open(fs, mem, req, raw) || Landed(fs, req, raw))
  }

  /** What an attempt in progress adds; `req` carries the attempt's own time. */
  ghost predicate Fits(fs: Fs, req: Request, s: Step, raw: Content)
    requires Candidate(req, raw)
  {
    match s
    case Work(stage, r) =>
      && r == raw && !stage.OwnKind? && ManifestJson in fs.files && fs.files[ManifestJson] == raw
      && (stage == UpVerify || stage == PubMove ==> Matches(fs, TmpUpload(req.op, req.ext), FINGERPRINT(req.bytes)))
      && (StageRank(stage) <= 4 && TmpManifest(req.op) in fs.files ==>
            fs.files[TmpManifest(req.op)] == Payload(req, raw))
    case Uncertain(r) => r == raw
    case Record(r) => Landed(fs, req, raw) && Won(r)
    case RelList(r) => Landed(fs, req, raw) && Won(r)
    case RelRead(r) => Landed(fs, req, raw) && Won(r)
    case RelJson(r) => Landed(fs, req, raw) && Won(r)
    case RelKind(_, _) | RelClear(_) => false
    case _ => true
  }

  predicate Won(r: HandoffResult) {
    r.outcome == Committed || r.outcome == IdempotentAck
  }

  lemma LandedIs(fs: Fs, req: Request, n: Timestamp, k: Timestamp, raw: Content)
    requires Candidate(req, raw) && Installed1(fs, At(req, n), raw)
    ensures Landed(fs, At(req, k), raw) && Landed(fs, req, raw)
  {
    assert At(At(req, k), n) == At(req, n);
  }

  /** With two players or more, a turn that landed is acknowledged when read again. */
  lemma LandedIsAcknowledged(fs: Fs, mem: Memory, req: Request, raw: Content, n: Timestamp, fault: Fault)
    requires Candidate(req, raw) && |SourceOf(raw).players| >= 2 && fault != Corrupt
    requires WellFormed(fs) && Installed1(fs, At(req, n), raw) && DigestOf(req) in mem.attempted
    ensures var s := OnManifest(req, mem, Exec(fs, Read(ManifestJson), fault).1);
            (s.Record? && Won(s.result) && !s.result.changed) || s.Returned?
  {
    var m := NextManifest(At(req, n), raw);
    assert ManifestJson in fs.dirs + fs.files.Keys;
    assert m.hashes[|m.hashes| - 1] == DigestOf(req);
    RetryIsAcknowledged(m, DigestOf(req), req.player, EvidenceFor(mem, DigestOf(req)));
  }

  /** With a single player the same rerun is rejected: the theorem needs two. */
  lemma LandedIsRejectedAlone(fs: Fs, mem: Memory, req: Request, raw: Content, n: Timestamp)
    requires WellFormed(fs) && Candidate(req, raw) && SourceOf(raw).players == [req.player]
    requires Installed1(fs, At(req, n), raw)
    ensures var s := OnManifest(req, mem, Exec(fs, Read(ManifestJson), NoFault).1);
            s.RelList? && s.result.outcome == RejectIncoming && !s.result.changed
  {
    var m := NextManifest(At(req, n), raw);
    assert ManifestJson in fs.dirs + fs.files.Keys;
    assert m.hashes[|m.hashes| - 1] == DigestOf(req);
    SinglePlayerRetryIsRejected(m, DigestOf(req), req.player, EvidenceFor(mem, DigestOf(req)));
  }

  lemma OpenIsNew(fs: Fs, mem: Memory, req: Request, raw: Content, fault: Fault)
    requires Candidate(req, raw) && fault != Corrupt && WellFormed(fs) && Open(fs, mem, req, raw)
    ensures var s := OnManifest(req, mem, Exec(fs, Read(ManifestJson), fault).1);
            s == Work(UpCompare, raw) || s.Returned?
  {
    assert ManifestJson in fs.dirs + fs.files.Keys;
    NewIffUnknown(DigestOf(req), SourceOf(raw), req.player, EvidenceFor(mem, DigestOf(req)));
  }

  // ----- one faulty step of the attempt -----

  /** `Kept1`: the manifest and the room are as they were. */
  ghost predicate Kept1(fs: Fs, fs': Fs, req: Request, raw: Content)
    requires Candidate(req, raw)
  {
    && SameManifest(fs, fs')
    && (WorkLeft(fs, req, UpCompare, raw) ==> WorkLeft(fs', req, UpCompare, raw))
  }

  lemma KeptResumable(fs: Fs, fs': Fs, mem: Memory, req: Request, raw: Content)
    requires Resumable(fs, mem, req, raw) && Kept1(fs, fs', req, raw)
    requires WellFormed(fs') && Holds(fs', req)
    ensures Resumable(fs', mem, req, raw)
    ensures Landed(fs, req, raw) ==> Landed(fs', req, raw)
  {
    if Landed(fs, req, raw) {
      var n: Timestamp :| Installed1(fs, At(req, n), raw);
      assert Installed1(fs', At(req, n), raw);
    }
  }

  lemma UploadKept(fs: Fs, req: Request, stage: Stage, raw: Content, fault: Fault)
    requires Candidate(req, raw) && Uploading(stage) && fault != Corrupt
    requires Fits(fs, req, Work(stage, raw), raw)
    ensures Kept1(fs, Exec(fs, WorkOp(req, stage, raw), fault).0, req, raw)
  {
  }

  lemma ArchiveKept1(fs: Fs, req: Request, stage: Stage, raw: Content, fault: Fault)
    requires Candidate(req, raw) && Archiving(stage) && fault != Corrupt
    ensures Kept1(fs, Exec(fs, WorkOp(req, stage, raw), fault).0, req, raw)
  {
  }

  lemma CommitKept(fs: Fs, req: Request, stage: Stage, raw: Content, fault: Fault)
    requires Candidate(req, raw) && fault != Corrupt
    requires stage == StageManifest || stage == OwnList || stage == OwnRead
    ensures Kept1(fs, Exec(fs, WorkOp(req, stage, raw), fault).0, req, raw)
  {
    if stage == StageManifest { StagingKept(fs, req, raw, fault); }
  }

  lemma StagingKept(fs: Fs, req: Request, raw: Content, fault: Fault)
    requires Candidate(req, raw) && fault != Corrupt
    ensures Kept1(fs, Exec(fs, WorkOp(req, StageManifest, raw), fault).0, req, raw)
  {
  }

  /** Next comes more of the same work, or a return that keeps the lock. */
  predicate Goes(s: Step, raw: Content) {
    s.Returned? || (s.Work? && s.raw == raw && !s.stage.OwnKind?)
  }

  lemma StagingGoes(fs: Fs, req: Request, stage: Stage, raw: Content, fault: Fault)
    requires WellFormed(fs) && Candidate(req, raw) && WorkLeft(fs, req, UpCompare, raw) && fault != Corrupt
    requires stage.UpCompare? || stage.UpWrite? || stage.UpVerify?
    requires stage == UpVerify ==> Matches(fs, TmpUpload(req.op, req.ext), FINGERPRINT(req.bytes))
    ensures var (fs', r) := Exec(fs, WorkOp(req, stage, raw), fault);
            var s := OnUpload(req, stage, raw, r);
            Goes(s, raw) && (s.Work? ==> s.stage == UpVerify || s.stage == PubMove || s.stage.UpWrite?)
            && (s.Work? && !s.stage.UpWrite? ==>
                  Matches(fs', TmpUpload(req.op, req.ext), FINGERPRINT(req.bytes)))
  {
  }

  lemma PublishGoes(fs: Fs, req: Request, stage: Stage, raw: Content, fault: Fault)
    requires WellFormed(fs) && Candidate(req, raw) && WorkLeft(fs, req, UpCompare, raw) && fault != Corrupt
    requires stage.PubMove? || stage.PubReuse? || stage.PubCheck? || stage.FinalCheck?
    ensures var s := OnUpload(req, stage, raw, Exec(fs, WorkOp(req, stage, raw), fault).1);
            Goes(s, raw) && (s.Work? ==> s.stage != UpVerify && s.stage != PubMove)
  {
  }

  lemma KeepingGoes(fs: Fs, req: Request, stage: Stage, raw: Content, fault: Fault)
    requires WellFormed(fs) && Candidate(req, raw) && WorkLeft(fs, req, UpCompare, raw) && fault != Corrupt
    requires stage.HistCompare? || stage.HistWrite? || stage.HistRace? || stage.HistVerify?
    ensures Goes(OnArchive(req, stage, raw, Exec(fs, WorkOp(req, stage, raw), fault).1), raw)
  {
  }

  lemma MovingGoes(fs: Fs, req: Request, stage: Stage, raw: Content, fault: Fault)
    requires WellFormed(fs) && Candidate(req, raw) && WorkLeft(fs, req, UpCompare, raw) && fault != Corrupt
    requires stage.HistMove? || stage.HistReuse? || stage.HistCheck?
    ensures Goes(OnArchive(req, stage, raw, Exec(fs, WorkOp(req, stage, raw), fault).1), raw)
  {
  }

  lemma StageManifestGoes(fs: Fs, req: Request, raw: Content, fault: Fault)
    requires WellFormed(fs) && Candidate(req, raw) && WorkLeft(fs, req, UpCompare, raw) && fault != Corrupt
    ensures var (fs', r) := Exec(fs, WorkOp(req, StageManifest, raw), fault);
            var s := OnCommit(req, StageManifest, raw, r);
            && Goes(s, raw)
            && (s.Work? ==> TmpManifest(req.op) in fs'.files
                            && fs'.files[TmpManifest(req.op)] == Payload(req, raw))
  {
  }

  lemma OwnershipGoes(fs: Fs, req: Request, stage: Stage, raw: Content, fault: Fault)
    requires WellFormed(fs) && Candidate(req, raw) && Holds(fs, req) && fault != Corrupt
    requires stage == OwnList || stage == OwnRead
    ensures Goes(OnCommit(req, stage, raw, Exec(fs, WorkOp(req, stage, raw), fault).1), raw)
  {
    LockTree(fs);
  }

  /** The work goes on, with what the next stage relies on. */
  predicate WellOnward(fs: Fs, req: Request, stage: Stage, raw: Content, s: Step)
    requires Candidate(req, raw)
  {
    && Goes(s, raw)
    && (s == Work(UpVerify, raw) || s == Work(PubMove, raw) ==>
          Matches(fs, TmpUpload(req.op, req.ext), FINGERPRINT(req.bytes)))
    && (s.Work? && StageRank(s.stage) <= 4 ==> StageRank(stage) <= 5)
  }

  lemma UploadGoes(fs: Fs, req: Request, stage: Stage, raw: Content, fault: Fault)
    requires WellFormed(fs) && Candidate(req, raw) && fault != Corrupt && Uploading(stage)
    requires WorkLeft(fs, req, UpCompare, raw) && Fits(fs, req, Work(stage, raw), raw)
    ensures var (fs', r) := Exec(fs, WorkOp(req, stage, raw), fault);
            WellOnward(fs', req, stage, raw, OnUpload(req, stage, raw, r))
  {
    UploadOnward(req, stage, raw, Exec(fs, WorkOp(req, stage, raw), fault).1);
    if stage.UpCompare? || stage.UpWrite? || stage.UpVerify? { StagingGoes(fs, req, stage, raw, fault); }
    else { PublishGoes(fs, req, stage, raw, fault); }
  }

  lemma WorkGoes(fs: Fs, req: Request, stage: Stage, raw: Content, fault: Fault)
    requires WellFormed(fs) && Candidate(req, raw) && Holds(fs, req) && fault != Corrupt && stage != Replace
    requires WorkLeft(fs, req, UpCompare, raw) && Fits(fs, req, Work(stage, raw), raw)
    ensures var (fs', r) := Exec(fs, WorkOp(req, stage, raw), fault);
            WellOnward(fs', req, stage, raw, OnWork(req, stage, raw, r))
  {
    var r := Exec(fs, WorkOp(req, stage, raw), fault).1;
    if Uploading(stage) {
      UploadGoes(fs, req, stage, raw, fault);
    } else if Archiving(stage) {
      ArchiveNext(req, stage, raw, r);
      if stage.HistMove? || stage.HistReuse? || stage.HistCheck? { MovingGoes(fs, req, stage, raw, fault); }
      else { KeepingGoes(fs, req, stage, raw, fault); }
    } else if stage == StageManifest {
      StageManifestGoes(fs, req, raw, fault);
    } else {
      OwnershipGoes(fs, req, stage, raw, fault);
    }
  }

  lemma WorkKept1(fs: Fs, req: Request, stage: Stage, raw: Content, fault: Fault)
    requires Candidate(req, raw) && fault != Corrupt && stage != Replace && Fits(fs, req, Work(stage, raw), raw)
    ensures Kept1(fs, Exec(fs, WorkOp(req, stage, raw), fault).0, req, raw)
  {
    if Uploading(stage) { UploadKept(fs, req, stage, raw, fault); }
    else if Archiving(stage) { ArchiveKept1(fs, req, stage, raw, fault); }
    else { CommitKept(fs, req, stage, raw, fault); }
  }

  /** Before the replacement the attempt fits its next step. */
  lemma WorkFits(fs: Fs, req: Request, stage: Stage, raw: Content, fault: Fault)
    requires WellFormed(fs) && Candidate(req, raw) && Holds(fs, req) && fault != Corrupt && stage != Replace
    requires WorkLeft(fs, req, UpCompare, raw) && Fits(fs, req, Work(stage, raw), raw)
    ensures var (fs', r) := Exec(fs, WorkOp(req, stage, raw), fault);
            var s := OnWork(req, stage, raw, r);
            Kept1(fs, fs', req, raw) && (s.Returned? || (s.Work? && Fits(fs', req, s, raw)))
  {
    WorkGoes(fs, req, stage, raw, fault);
    WorkKept1(fs, req, stage, raw, fault);
    WorkFrameFaulty(fs, req, stage, raw, fault);
  }

  lemma WorkFrameFaulty(fs: Fs, req: Request, stage: Stage, raw: Content, fault: Fault)
    requires Candidate(req, raw) && stage != Replace
    ensures var fs' := Exec(fs, WorkOp(req, stage, raw), fault).0;
            TmpManifest(req.op) in fs'.files ==>
              || (TmpManifest(req.op) in fs.files
                  && fs'.files[TmpManifest(req.op)] == fs.files[TmpManifest(req.op)])
              || (stage == StageManifest && fs'.files[TmpManifest(req.op)] == Payload(req, raw))
  {
  }

  /** At the commit point: the turn lands, or nothing happened. */
  lemma ReplaceOnward(fs: Fs, fs': Fs, req: Request, raw: Content, fault: Fault)
    requires WellFormed(fs) && Candidate(req, raw) && fault != Corrupt
    requires Fits(fs, req, Work(Replace, raw), raw)
    requires fs' == Exec(fs, WorkOp(req, Replace, raw), fault).0
    ensures var s := OnCommit(req, Replace, raw, Exec(fs, WorkOp(req, Replace, raw), fault).1);
            && (fs' == fs || Installed1(fs', req, raw))
            && (s.Returned? || s == Uncertain(raw)
                || (s.Record? && Won(s.result) && Installed1(fs', req, raw)))
  {
    ReplaceOnTree(fs, req, raw, fault);
    ReplaceAnswered(req, raw, Exec(fs, WorkOp(req, Replace, raw), fault).1);
  }

  lemma ReplaceOnTree(fs: Fs, req: Request, raw: Content, fault: Fault)
    requires WellFormed(fs) && Candidate(req, raw) && Fits(fs, req, Work(Replace, raw), raw)
    ensures var (fs', r) := Exec(fs, WorkOp(req, Replace, raw), fault);
            && (fs' == fs || Installed1(fs', req, raw)) && (!r.Failed? ==> Installed1(fs', req, raw))
            && (r.Failed? ==> r.error == Transport || r.error == NotFound || r.error == WrongKind)
  {
    assert ManifestJson in fs.dirs + fs.files.Keys;
  }

  lemma ReplaceAnswered(req: Request, raw: Content, r: Reply)
    requires Candidate(req, raw) && (r.Failed? ==> r.error != NoCapability)
    ensures var s := OnCommit(req, Replace, raw, r);
            s.Returned? || s == Uncertain(raw) || (s.Record? && Won(s.result) && !r.Failed?)
  {
  }

  // ----- one faulty step of the attempt, whole -----

  lemma RawIsOpen(fs: Fs, mem: Memory, req: Request, raw: Content)
    requires Resumable(fs, mem, req, raw) && ManifestJson in fs.files && fs.files[ManifestJson] == raw
    ensures Open(fs, mem, req, raw)
  {
  }

  lemma InstalledResumes(fs: Fs, mem: Memory, req: Request, raw: Content)
    requires WellFormed(fs) && Holds(fs, req) && Journalled(mem, req) && Candidate(req, raw)
    requires |SourceOf(raw).players| >= 2 && Installed1(fs, req, raw)
    ensures Resumable(fs, mem, req, raw) && Landed(fs, req, raw)
  {
    LandedIs(fs, req, req.now, req.now, raw);
    assert At(req, req.now) == req;
  }

  lemma WorkResumes(fs: Fs, mem: Memory, req: Request, stage: Stage, raw: Content, fault: Fault)
    requires Resumable(fs, mem, req, raw) && Fits(fs, req, Work(stage, raw), raw) && fault != Corrupt
    requires WellFormed(Exec(fs, WorkOp(req, stage, raw), fault).0)
    ensures var (fs', r) := Exec(fs, WorkOp(req, stage, raw), fault);
            var s := OnWork(req, stage, raw, r);
            Holds(fs', req) ==> Resumable(fs', mem, req, raw) && Fits(fs', req, s, raw)
  {
    RawIsOpen(fs, mem, req, raw);
    var (fs', r) := Exec(fs, WorkOp(req, stage, raw), fault);
    if Holds(fs', req) {
      if stage == Replace {
        ReplaceOnward(fs, fs', req, raw, fault);
        if fs' != fs { InstalledResumes(fs', mem, req, raw); }
      } else {
        WorkFits(fs, req, stage, raw, fault);
        KeptResumable(fs, fs', mem, req, raw);
      }
    }
  }

  lemma ReadResumes(fs: Fs, mem: Memory, req: Request, raw: Content, fault: Fault)
    requires Resumable(fs, mem, req, raw) && fault != Corrupt
    ensures Fits(fs, req, OnManifest(req, mem, Exec(fs, Read(ManifestJson), fault).1), raw)
  {
    if Landed(fs, req, raw) {
      var n: Timestamp :| Installed1(fs, At(req, n), raw);
      LandedIsAcknowledged(fs, mem, req, raw, n, fault);
    } else {
      OpenIsNew(fs, mem, req, raw, fault);
    }
  }

  lemma UncertainResumes(fs: Fs, req: Request, raw: Content, fault: Fault)
    requires WellFormed(fs) && Candidate(req, raw) && fault != Corrupt
    ensures Fits(fs, req, OnUncertain(req, raw, Exec(fs, Read(ManifestJson), fault).1), raw)
  {
    var s := OnUncertain(req, raw, Exec(fs, Read(ManifestJson), fault).1);
    if s.Record? {
      assert Installed1(fs, At(req, req.now), raw);
    }
  }

  /** The lock steps, for as long as the lock document stays. */
  lemma EdgeResumes(fs: Fs, mem: Memory, req: Request, s: Step, raw: Content, fault: Fault)
    requires Resumable(fs, mem, req, raw) && Fits(fs, req, s, raw) && Claim(fs, req, s) && fault != Corrupt
    requires WellFormedStep(req, s) && ActionOf(req, s).Remote?
    requires !s.Work? && !s.ReadManifest? && !s.Uncertain?
    ensures var (fs', r) := Exec(fs, ActionOf(req, s).op, fault);
            var s' := OnReply(req, mem, s, r);
            Holds(fs', req) ==> fs' == fs && Fits(fs, req, s', raw)
  {
    LockTree(fs);
    if !(s.AcqMkdir? || s.AcqWrite? || s.ResList? || s.ResRead? || s.ResKind?) {
      ReleaseResumes(fs, mem, req, s, raw, fault);
    }
  }

  lemma ReleaseResumes(fs: Fs, mem: Memory, req: Request, s: Step, raw: Content, fault: Fault)
    requires Resumable(fs, mem, req, raw) && Fits(fs, req, s, raw) && Claim(fs, req, s) && fault != Corrupt
    requires WellFormedStep(req, s) && (s.RelList? || s.RelRead? || s.RelKind? || s.RelJson? || s.RelDir?)
    ensures var (fs', r) := Exec(fs, ActionOf(req, s).op, fault);
            var s' := OnReply(req, mem, s, r);
            Holds(fs', req) ==> fs' == fs && Fits(fs, req, s', raw)
  {
    LockTree(fs);
  }

  lemma StepResumes(fs: Fs, mem: Memory, req: Request, s: Step, raw: Content, fault: Fault)
    requires Resumable(fs, mem, req, raw) && Fits(fs, req, s, raw) && Claim(fs, req, s) && fault != Corrupt
    requires WellFormedStep(req, s) && ActionOf(req, s).Remote?
    ensures var (fs', r) := Exec(fs, ActionOf(req, s).op, fault);
            var s' := OnReply(req, mem, s, r);
            Holds(fs', req) ==> Resumable(fs', mem, req, raw) && Fits(fs', req, s', raw)
  {
    ExecKeepsWellFormed(fs, ActionOf(req, s).op, fault);
    match s
    case Work(stage, _) => WorkResumes(fs, mem, req, stage, raw, fault);
    case ReadManifest => ReadResumes(fs, mem, req, raw, fault);
    case Uncertain(_) => UncertainResumes(fs, req, raw, fault);
    case _ => EdgeResumes(fs, mem, req, s, raw, fault);
  }

  lemma LocalResumes(fs: Fs, mem: Memory, req: Request, s: Step, raw: Content)
    requires Resumable(fs, mem, req, raw) && Fits(fs, req, s, raw)
    requires WellFormedStep(req, s) && ActionOf(req, s).Local?
    ensures var (mem', s') := OnLocal(req, mem, s);
            Resumable(fs, mem', req, raw) && Fits(fs, req, s', raw)
  {
  }

  // ----- an attempt at another time -----

  lemma ResumableAt(fs: Fs, mem: Memory, req: Request, n: Timestamp, raw: Content)
    requires Candidate(req, raw)
    ensures Resumable(fs, mem, At(req, n), raw) <==> Resumable(fs, mem, req, raw)
    ensures Landed(fs, At(req, n), raw) <==> Landed(fs, req, raw)
  {
    if Landed(fs, req, raw) {
      var k: Timestamp :| Installed1(fs, At(req, k), raw);
      LandedIs(fs, req, k, n, raw);
    }
    if Landed(fs, At(req, n), raw) {
      var k: Timestamp :| Installed1(fs, At(At(req, n), k), raw);
      assert At(At(req, n), k) == At(req, k);
      LandedIs(fs, req, k, n, raw);
    }
  }

  // ----- the rerun -----

  /** The rerun finds its own lock and journal and reads the manifest. */
  lemma RerunResumes(fs: Fs, mem: Memory, req: Request)
    requires WellFormed(fs) && ValidRequest(req) && Holds(fs, req) && Journalled(mem, req)
    ensures Finally(req, Run(fs, mem, AcqMkdir)) == Finally(req, Run(fs, mem, ReadManifest))
  {
    LockTree(fs);
    assert LockDir in fs.dirs + fs.files.Keys;
    var r0 := Run(fs, mem, AcqMkdir);
    var r1 := StepAlone(req, r0);
    assert r1 == Run(fs, mem, ResList);
    var r2 := StepAlone(req, r1);
    assert r2 == Run(fs, mem, ResRead);
    assert StepAlone(req, r2) == Run(fs, mem, ReadManifest);
    assert Finally(req, r0) == Finally(req, r1) == Finally(req, r2);
  }

  /** The turn ended: acknowledged, on the remote tree, lock and journal cleared. */
  ghost predicate Ended(last: Run, req: Request, raw: Content)
    requires Candidate(req, raw)
  {
    && last.step.Returned? && Won(last.step.result) && Clean(last)
    && Landed(last.fs, req, raw)
  }

  /** From a resumable state a fresh call, left alone, finishes the turn. */
  lemma RerunEnds(fs: Fs, mem: Memory, req: Request, raw: Content)
    requires Resumable(fs, mem, req, raw)
    ensures Ended(Finally(req, Run(fs, mem, AcqMkdir)), req, raw)
  {
    RerunResumes(fs, mem, req);
    LockTree(fs);
    var run := Run(fs, mem, ReadManifest);
    if Open(fs, mem, req, raw) {
      CommitsExactlyOnTrack(req, run, raw);
      CommitEndsClean(req, run, raw);
      assert At(req, req.now) == req;
      LandedIs(Finally(req, run).fs, req, req.now, req.now, raw);
    } else {
      var n: Timestamp :| Installed1(fs, At(req, n), raw);
      LandedRerun(req, run, raw, n);
    }
  }

  lemma LandedRerun(req: Request, run: Run, raw: Content, n: Timestamp)
    requires Resumable(run.fs, run.mem, req, raw) && run.step.ReadManifest?
    requires Installed1(run.fs, At(req, n), raw)
    ensures Ended(Finally(req, run), req, raw)
  {
    LandedIsAcknowledged(run.fs, run.mem, req, raw, n, NoFault);
    LockTree(run.fs);
    ReadHere(run.fs, req, run.mem);
    var next := StepAlone(req, run);
    assert next.step.Record? && next.fs == run.fs;
    StepKeepsClaim(req, run);
    assert Steady(req, next, raw);
    ReleaseEnds(req, next, raw);
    LandedIs(Finally(req, run).fs, req, n, n, raw);
  }

  lemma ReadHere(fs: Fs, req: Request, mem: Memory)
    requires WellFormed(fs) && ManifestJson in fs.files && ValidRequest(req)
    requires ParseManifest(fs.files[ManifestJson]).Some?
    requires ParseManifest(fs.files[ManifestJson]).value.gameId == req.game
    ensures !OnManifest(req, mem, Exec(fs, Read(ManifestJson), NoFault).1).Returned?
  {
    assert ManifestJson in fs.dirs + fs.files.Keys;
  }
}
