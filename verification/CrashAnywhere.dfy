/** The crash-anywhere theorem over the shared world: other clients and a temporary
    cleanup go on working while one client's handoff is cut and run again. */
module CrashAnywhere {
  import opened Domain
  import opened Storage
  import opened HashClassify
  import opened Handoff
  import opened Initialize
  import opened World
  import opened Invariant
  import opened Stability
  import opened Runs
  import opened NoRepair
  import opened Alone
  import opened Resume

  /** The lock document and the journal entry are this operation's. */
  predicate Held(w: World, req: Request) {
    && Holds(w.fs, req) && req.client in w.clients
    && Journalled(w.clients[req.client].mem, req)
  }

  /** This client only works on, crashes, and submits the same request again; everybody
      else does as they like; nobody repairs the lock. */
  predicate OnlyReruns(req: Request, e: Event) {
    match e
    case Act(_, _) | Crash(_) | CleanTemporary(_) => true
    case BeginHandoff(c, r) => c == req.client ==> r == At(req, r.now)
    case BeginInit(c, _, _) => c != req.client
    case BeginReconcile(c, _) => c != req.client
    case Associate(_, _) | MarkClose(_) => true
    case RepairLock => false
  }

  /** The release of the lock begins: the document is removed, even if the response to the
      removal is lost. */
  predicate Removes(w: World, req: Request, e: Event) {
    && e.Act? && e.who == req.client && e.fault != Before
    && var t := ClientOf(w, e.who).task;
       t.Handing? && t.step.RelJson?
  }

  /** A run of such events, in which this client has not begun to release the lock. */
  ghost predicate CutRun(w: World, req: Request, events: seq<Event>)
    decreases |events|
  {
    events == [] ||
    (Enabled(w, events[0]) && OnlyReruns(req, events[0]) && !Removes(w, req, events[0])
     && CutRun(Next(w, events[0]), req, events[1..]))
  }

  ghost predicate TaskFits(fs: Fs, t: Task, req: Request, raw: Content)
    requires Candidate(req, raw)
  {
    t.Idle? || (t.Handing? && t.req == At(req, t.req.now) && Fits(fs, t.req, t.step, raw))
  }

  ghost predicate Tracking(w: World, req: Request, raw: Content) {
    && Inv(w) && Exclusive(w) && req.client in w.clients
    && Resumable(w.fs, w.clients[req.client].mem, req, raw)
    && TaskFits(w.fs, w.clients[req.client].task, req, raw)
    && req.op in w.issued && w.issued[req.op] == IssueOf(req)
  }

  // ----- the client's own steps -----

  /** Only the removal of the document takes the lock from the client that holds it. */
  lemma LockStays(fs: Fs, req: Request, s: Step, fault: Fault)
    requires WellFormed(fs) && Holds(fs, req) && Claim(fs, req, s)
    requires WellFormedStep(req, s) && ActionOf(req, s).Remote?
    requires !(s.RelJson? && fault != Before)
    ensures Holds(Exec(fs, ActionOf(req, s).op, fault).0, req)
  {
    LockTree(fs);
    OnlyLockSteps(req, s);
    if Elsewhere(ActionOf(req, s).op) { ElsewhereKeepsLock(fs, ActionOf(req, s).op, fault); }
  }

  lemma OwnAct(w: World, req: Request, raw: Content, fault: Fault)
    requires Tracking(w, req, raw) && Enabled(w, Act(req.client, fault))
    requires !Removes(w, req, Act(req.client, fault))
    ensures var w' := AfterAct(w, req.client, fault);
            && Resumable(w'.fs, w'.clients[req.client].mem, req, raw)
            && TaskFits(w'.fs, w'.clients[req.client].task, req, raw)
  {
    var c, w' := req.client, AfterAct(w, req.client, fault);
    var cl := w.clients[c];
    var r, s := cl.task.req, cl.task.step;
    ResumableAt(w.fs, cl.mem, req, r.now, raw);
    assert TaskClaim(w.fs, cl.task);
    if NextAction(cl).Remote? {
      LockStays(w.fs, r, s, fault);
      StepResumes(w.fs, cl.mem, r, s, raw, fault);
    } else {
      LocalResumes(w.fs, cl.mem, r, s, raw);
    }
    ResumableAt(w'.fs, w'.clients[c].mem, req, r.now, raw);
  }

  // ----- everybody else -----

  /** What a client outside the lock may do to the tree. */
  predicate Outsider(w: World, d: ClientId, op: Op) {
    match op
    case Read(_) | List(_) => true
    case Mkdir(p) => p == LockDir || p == Root || p in SUBDIRECTORIES
    case Write(p, _, _) => p.TmpManifest? && p.op in w.issued && w.issued[p.op].client == d
    case _ => false
  }

  lemma OthersAreOutside(w: World, req: Request, d: ClientId)
    requires Inv(w) && Exclusive(w) && Holds(w.fs, req) && d != req.client && d in w.clients
    requires ManifestJson in w.fs.files
    requires WellFormedTask(w.clients[d]) && NextAction(w.clients[d]).Remote?
    ensures Outsider(w, d, NextAction(w.clients[d]).op)
  {
    var cl := w.clients[d];
    assert ClientOk(w, d, cl) && TaskClaim(w.fs, cl.task);
    assert |w.chain| > 0;
    match cl.task
    case Handing(r, s) => assert !Inside(cl.task);
    case Creating(cfg, op, s) =>
    case Reconciling(_, _) =>
  }

  /** The parts of the tree this turn is made of. */
  predicate SameParts(fs: Fs, fs': Fs, req: Request, raw: Content)
    requires Candidate(req, raw)
  {
    && SameManifest(fs, fs')
    && DocIn(fs') == DocIn(fs) && fs.dirs <= fs'.dirs
    && (forall p | p in fs'.dirs :: p in fs.dirs || p == LockDir || p == Root || p in SUBDIRECTORIES)
    && (forall p | p in {FinalPath(req, raw), ArchivePath(raw), TmpUpload(req.op, req.ext),
                         TmpHistory(req.op), TmpManifest(req.op)} && p in fs'.files ::
          p in fs.files && fs'.files[p] == fs.files[p])
  }

  lemma SamePartsResumes(fs: Fs, fs': Fs, mem: Memory, t: Task, req: Request, raw: Content)
    requires Resumable(fs, mem, req, raw) && TaskFits(fs, t, req, raw)
    requires SameParts(fs, fs', req, raw) && WellFormed(fs')
    ensures Resumable(fs', mem, req, raw) && TaskFits(fs', t, req, raw)
  {
    SamePartsRoom(fs, fs', req, raw);
    KeptResumable(fs, fs', mem, req, raw);
    if t.Handing? {
      SamePartsFit(fs, fs', t.req, t.step, raw);
    }
  }

  lemma SamePartsRoom(fs: Fs, fs': Fs, req: Request, raw: Content)
    requires Candidate(req, raw) && SameParts(fs, fs', req, raw)
    ensures Kept1(fs, fs', req, raw)
  {
    assert SUBDIRECTORIES == [SavesDir, TemporaryDir, LocksDir, HistoryDir];
  }

  lemma SamePartsFit(fs: Fs, fs': Fs, req: Request, s: Step, raw: Content)
    requires Candidate(req, raw) && SameParts(fs, fs', req, raw) && Fits(fs, req, s, raw)
    ensures Fits(fs', req, s, raw)
  {
    if Landed(fs, req, raw) {
      var n: Timestamp :| Installed1(fs, At(req, n), raw);
      assert Installed1(fs', At(req, n), raw);
    }
  }

  lemma OutsiderSameParts(w: World, d: ClientId, op: Op, fault: Fault, req: Request, raw: Content)
    requires Outsider(w, d, op) && d != req.client && Candidate(req, raw)
    requires req.op in w.issued && w.issued[req.op].client == req.client
    ensures SameParts(w.fs, Exec(w.fs, op, fault).0, req, raw)
  {
  }

  lemma OtherAct(w: World, req: Request, raw: Content, d: ClientId, fault: Fault)
    requires Tracking(w, req, raw) && Enabled(w, Act(d, fault)) && d != req.client
    ensures var w' := AfterAct(w, d, fault);
            && Resumable(w'.fs, w'.clients[req.client].mem, req, raw)
            && TaskFits(w'.fs, w'.clients[req.client].task, req, raw)
  {
    var w' := AfterAct(w, d, fault);
    if NextAction(w.clients[d]).Remote? {
      OthersAreOutside(w, req, d);
      OutsiderSameParts(w, d, NextAction(w.clients[d]).op, fault, req, raw);
      ExecKeepsWellFormed(w.fs, NextAction(w.clients[d]).op, fault);
      SamePartsResumes(w.fs, w'.fs, w.clients[req.client].mem, w.clients[req.client].task, req, raw);
    }
  }

  lemma CleanResumes(w: World, req: Request, raw: Content, p: Path)
    requires Tracking(w, req, raw) && Temporary(p)
    ensures var w' := Next(w, CleanTemporary(p));
            && Resumable(w'.fs, w'.clients[req.client].mem, req, raw)
            && TaskFits(w'.fs, w'.clients[req.client].task, req, raw)
  {
    CleanKeeps(w, p);
    var w' := Next(w, CleanTemporary(p));
    SamePartsResumes(w.fs, w'.fs, w.clients[req.client].mem, w.clients[req.client].task, req, raw);
  }

  lemma TrackingKept(w: World, e: Event, req: Request, raw: Content)
    requires Tracking(w, req, raw) && Enabled(w, e) && OnlyReruns(req, e) && !Removes(w, req, e)
    ensures Tracking(Next(w, e), req, raw)
  {
    EventKeepsInv(w, e);
    EventKeepsExclusive(w, e);
    EventResumes(w, e, req, raw);
  }

  lemma EventResumes(w: World, e: Event, req: Request, raw: Content)
    requires Tracking(w, req, raw) && Enabled(w, e) && OnlyReruns(req, e) && !Removes(w, req, e)
    ensures var w' := Next(w, e);
            && req.client in w'.clients
            && Resumable(w'.fs, w'.clients[req.client].mem, req, raw)
            && TaskFits(w'.fs, w'.clients[req.client].task, req, raw)
            && req.op in w'.issued && w'.issued[req.op] == IssueOf(req)
  {
    match e
    case Act(c, fault) =>
      if c == req.client { OwnAct(w, req, raw, fault); } else { OtherAct(w, req, raw, c, fault); }
    case CleanTemporary(p) => CleanResumes(w, req, raw, p);
    case _ =>
  }

  lemma {:induction false} TrackingAlong(w: World, events: seq<Event>, req: Request, raw: Content)
    requires Tracking(w, req, raw) && CutRun(w, req, events)
    ensures IsRun(w, events) && Tracking(Final(w, events), req, raw)
    decreases |events|
  {
    if events != [] {
      TrackingKept(w, events[0], req, raw);
      TrackingAlong(Next(w, events[0]), events[1..], req, raw);
    }
  }

  // ----- the theorem -----

  /** The same manifest except for the time of acceptance. */
  predicate SameButTime(a: Manifest, b: Manifest) {
    && a.save.Some? && b.save.Some?
    && a.(save := Some(a.save.value.(acceptedAt := b.save.value.acceptedAt))) == b
  }

  predicate SameTurn(fs: Fs, fs': Fs) {
    && ManifestJson in fs.files && ManifestJson in fs'.files
    && ParseManifest(fs.files[ManifestJson]).Some? && ParseManifest(fs'.files[ManifestJson]).Some?
    && SameButTime(ParseManifest(fs.files[ManifestJson]).value,
                   ParseManifest(fs'.files[ManifestJson]).value)
  }

  /** The call has taken the lock and written its journal entry: it is about to read the
      manifest, or has returned because the response to the document write was lost. */
  predicate LockTaken(t: Task, req: Request) {
    && ValidRequest(req)
    && (t == Handing(req, ReadManifest) || t == Handing(req, Returned(Fail(req, TransportFailure, None))))
  }

  /** The call has taken the lock; left alone from here it would commit. */
  ghost predicate WouldCommit(w: World, req: Request) {
    && Held(w, req) && LockTaken(w.clients[req.client].task, req)
    && Finally(req, Run(w.fs, w.clients[req.client].mem, ReadManifest)).step.result.outcome == Committed
  }

  predicate AtLeastTwoPlayers(fs: Fs) {
    ManifestJson in fs.files && ParseManifest(fs.files[ManifestJson]).Some?
    && |ParseManifest(fs.files[ManifestJson]).value.players| >= 2
  }

  lemma LandedIsSameTurn(fs: Fs, fs': Fs, req: Request, raw: Content)
    requires Candidate(req, raw) && Installed1(fs, req, raw) && Landed(fs', req, raw)
    ensures SameTurn(fs, fs')
  {
    var n: Timestamp :| Installed1(fs', At(req, n), raw);
  }

  lemma TrackingStarts(w: World, req: Request)
    requires Inv(w) && Exclusive(w) && WouldCommit(w, req) && AtLeastTwoPlayers(w.fs)
    ensures Candidate(req, w.fs.files[ManifestJson]) && Tracking(w, req, w.fs.files[ManifestJson])
  {
    var cl := w.clients[req.client];
    assert ClientOk(w, req.client, cl);
    CommitsFromRead(req, w.fs, cl.mem);
    assert At(req, req.now) == req;
  }

  /** A handoff that would commit may be cut at any operation, by crashes and by lost
      requests and responses, any number of times, while others keep working: until it
      begins to release the lock, the lock and its journal entry are there, and submitting
      it again acknowledges the turn and leaves the manifest the uninterrupted call would
      have left, up to the time. */
  lemma CrashAnywhere(game: GameId, before: seq<Event>, w: World, req: Request, events: seq<Event>, n: Timestamp)
    requires IsRun(Start(game), before) && Repairless(before) && Final(Start(game), before) == w
    requires WouldCommit(w, req) && AtLeastTwoPlayers(w.fs) && CutRun(w, req, events)
    ensures IsRun(w, events) && Held(Final(w, events), req)
    ensures var alone := Finally(req, Run(w.fs, w.clients[req.client].mem, ReadManifest));
            var cut := Final(w, events);
            var rerun := Finally(At(req, n), Run(cut.fs, cut.clients[req.client].mem, AcqMkdir));
            && (rerun.step.result.outcome == Committed || rerun.step.result.outcome == IdempotentAck)
            && SameTurn(alone.fs, rerun.fs) && Clean(rerun)
  {
    RunKeepsExclusive(Start(game), before);
    TrackingStarts(w, req);
    AloneInstalls(w.fs, w.clients[req.client].mem, req);
    CutAnswers(w, req, w.fs.files[ManifestJson], events, n,
               Finally(req, Run(w.fs, w.clients[req.client].mem, ReadManifest)).fs);
  }

  lemma AloneInstalls(fs: Fs, mem: Memory, req: Request)
    requires WellFormed(fs) && Holds(fs, req) && ManifestJson in fs.files
    requires Candidate(req, fs.files[ManifestJson])
    requires Finally(req, Run(fs, mem, ReadManifest)).step.result.outcome == Committed
    ensures Installed1(Finally(req, Run(fs, mem, ReadManifest)).fs, req, fs.files[ManifestJson])
  {
    LockTree(fs);
    CommitsExactlyOnTrack(req, Run(fs, mem, ReadManifest), fs.files[ManifestJson]);
  }

  lemma CutAnswers(w: World, req: Request, raw: Content, events: seq<Event>, n: Timestamp, alone: Fs)
    requires Tracking(w, req, raw) && CutRun(w, req, events) && Installed1(alone, req, raw)
    ensures IsRun(w, events) && Held(Final(w, events), req)
    ensures var cut := Final(w, events);
            var rerun := Finally(At(req, n), Run(cut.fs, cut.clients[req.client].mem, AcqMkdir));
            Won(rerun.step.result) && Clean(rerun) && SameTurn(alone, rerun.fs)
  {
    TrackingAlong(w, events, req, raw);
    var cut := Final(w, events);
    RerunAnswers(cut.fs, cut.clients[req.client].mem, req, n, raw, alone);
  }

  lemma RerunAnswers(fs: Fs, mem: Memory, req: Request, n: Timestamp, raw: Content, alone: Fs)
    requires Resumable(fs, mem, req, raw) && Installed1(alone, req, raw)
    ensures var rerun := Finally(At(req, n), Run(fs, mem, AcqMkdir));
            Won(rerun.step.result) && Clean(rerun) && SameTurn(alone, rerun.fs)
  {
    ResumableAt(fs, mem, req, n, raw);
    RerunEnds(fs, mem, At(req, n), raw);
    var rerun := Finally(At(req, n), Run(fs, mem, AcqMkdir));
    ResumableAt(rerun.fs, rerun.mem, req, n, raw);
    LandedIsSameTurn(alone, rerun.fs, req, raw);
  }

  /** Where a call that takes the lock reads its manifest. */
  function Acquired(req: Request, fs: Fs, mem: Memory): Run
    requires ValidRequest(req)
  {
    if LockDir in fs.dirs then Run(fs, mem, ReadManifest)
    else Run(Fs(fs.dirs + {LockDir}, fs.files[LockJson := LockBytes(LockDoc(req))]),
             OnLocal(req, mem, AcqBegin(true)).0, ReadManifest)
  }

  /** Every committing call passes through that state, so the theorem covers every cut
      after the lock is taken and the journal written. */
  lemma CommitPassesThroughRead(req: Request, fs: Fs, mem: Memory)
    requires WellFormed(fs) && ValidRequest(req)
    requires mem.inProgress.Some? ==> mem.inProgress.value.sha256 in mem.attempted
    requires Finally(req, Run(fs, mem, AcqMkdir)).step.result.outcome == Committed
    ensures var a := Acquired(req, fs, mem);
            && Finally(req, a) == Finally(req, Run(fs, mem, AcqMkdir))
            && Holds(a.fs, req) && Journalled(a.mem, req)
  {
    if LockDir in fs.dirs || LockDir in fs.files {
      ResumePassesThroughRead(req, fs, mem);
    } else {
      TakingPassesThroughRead(req, fs, mem);
    }
  }

  lemma TakingPassesThroughRead(req: Request, fs: Fs, mem: Memory)
    requires WellFormed(fs) && ValidRequest(req) && LockDir !in fs.dirs && LockDir !in fs.files
    requires Finally(req, Run(fs, mem, AcqMkdir)).step.result.outcome == Committed
    ensures Finally(req, Acquired(req, fs, mem)) == Finally(req, Run(fs, mem, AcqMkdir))
  {
    assert LockJson in fs.dirs + fs.files.Keys ==> LockDir in fs.dirs;
    var r0 := Run(fs, mem, AcqMkdir);
    var r1 := StepAlone(req, r0);
    if r1.step == AcqWrite {
      var r2 := StepAlone(req, r1);
      assert r2.step == AcqBegin(true);
      assert StepAlone(req, r2) == Acquired(req, fs, mem);
      assert Finally(req, r0) == Finally(req, r1) == Finally(req, r2) == Finally(req, StepAlone(req, r2));
    }
  }

  lemma ResumePassesThroughRead(req: Request, fs: Fs, mem: Memory)
    requires WellFormed(fs) && ValidRequest(req) && (LockDir in fs.dirs || LockDir in fs.files)
    requires mem.inProgress.Some? ==> mem.inProgress.value.sha256 in mem.attempted
    requires Finally(req, Run(fs, mem, AcqMkdir)).step.result.outcome == Committed
    ensures Finally(req, Acquired(req, fs, mem)) == Finally(req, Run(fs, mem, AcqMkdir))
    ensures LockDir in fs.dirs && Holds(fs, req) && Journalled(mem, req)
  {
    assert LockDir in fs.dirs + fs.files.Keys ==> LocksDir in fs.dirs;
    var r0 := Run(fs, mem, AcqMkdir);
    var r1 := StepAlone(req, r0);
    if r1.step == ResList {
      var r2 := StepAlone(req, r1);
      assert r2 == Run(fs, mem, ResRead);
      var r3 := StepAlone(req, r2);
      assert Finally(req, r0) == Finally(req, r1) == Finally(req, r2) == Finally(req, r3);
      if r3.step.ResKind? {
        assert Finally(req, r3) == StepAlone(req, r3);
        assert false;
      }
      assert r3 == Run(fs, mem, ReadManifest);
    }
  }

  /** A call that would commit starts the theorem once its journal entry is written, also
      when the response to the document write was lost. */
  lemma JournalStartsTheCut(w: World, req: Request, fault: Fault)
    requires Inv(w) && Exclusive(w) && req.client in w.clients
    requires w.clients[req.client].task == Handing(req, AcqWrite) && (fault == NoFault || fault == After)
    requires Finally(req, Run(w.fs, w.clients[req.client].mem, AcqWrite)).step.result.outcome == Committed
    ensures Enabled(w, Act(req.client, fault))
    ensures var w1 := AfterAct(w, req.client, fault);
            Enabled(w1, Act(req.client, NoFault)) && WouldCommit(AfterAct(w1, req.client, NoFault), req)
  {
    assert ClientOk(w, req.client, w.clients[req.client]) && TaskClaim(w.fs, w.clients[req.client].task);
    WriteTakesLock(req, Run(w.fs, w.clients[req.client].mem, AcqWrite));
    WriteAndBegin(w, req, fault);
  }

  /** The two steps in the world, the response to the first received or lost. */
  lemma WriteAndBegin(w: World, req: Request, fault: Fault)
    requires req.client in w.clients && ValidRequest(req) && (fault == NoFault || fault == After)
    requires w.clients[req.client].task == Handing(req, AcqWrite)
    requires OpError(w.fs, ActionOf(req, AcqWrite).op).None?
    requires var a := JournalWritten(req, Run(w.fs, w.clients[req.client].mem, AcqWrite));
             Holds(a.fs, req) && Journalled(a.mem, req) && Finally(req, a).step.result.outcome == Committed
    ensures Enabled(w, Act(req.client, fault))
    ensures var w1 := AfterAct(w, req.client, fault);
            Enabled(w1, Act(req.client, NoFault)) && WouldCommit(AfterAct(w1, req.client, NoFault), req)
  {
  }

  /** The document written and the journal entry with it. */
  function JournalWritten(req: Request, run: Run): Run
    requires ValidRequest(req)
  {
    Run(run.fs.(files := run.fs.files[LockJson := LockBytes(LockDoc(req))]),
        OnLocal(req, run.mem, AcqBegin(true)).0, ReadManifest)
  }

  lemma WriteTakesLock(req: Request, r0: Run)
    requires WellFormed(r0.fs) && ValidRequest(req) && LockDir in r0.fs.dirs && LockJson !in r0.fs.files
    requires r0.step == AcqWrite && Finally(req, r0).step.result.outcome == Committed
    ensures OpError(r0.fs, ActionOf(req, AcqWrite).op).None?
    ensures var a := JournalWritten(req, r0);
            Holds(a.fs, req) && Journalled(a.mem, req) && Finally(req, a) == Finally(req, r0)
  {
    LockTree(r0.fs);
    if StepAlone(req, r0).step == AcqBegin(false) { FailedWriteFails(req, r0); }
    var r1 := StepAlone(req, r0);
    assert Finally(req, r0) == Finally(req, r1) == Finally(req, StepAlone(req, r1));
  }

  lemma FailedWriteFails(req: Request, r0: Run)
    requires ValidRequest(req) && r0.step == AcqWrite && StepAlone(req, r0).step == AcqBegin(false)
    ensures Finally(req, r0).step.result.outcome == TransportFailure
  {
    var r1 := StepAlone(req, r0);
    var r2 := StepAlone(req, r1);
    assert Finally(req, r0) == Finally(req, r1) == Finally(req, r2) == r2;
  }

  /** A document without its journal entry is held against everybody, its writer included:
      the entry has to be written before a cut can be resumed. */
  lemma LockWithoutJournalIsHeld(fs: Fs, mem: Memory, req: Request)
    requires WellFormed(fs) && ValidRequest(req) && DocIn(fs).Some?
    requires mem.inProgress != Some(ProgressOf(req))
    ensures var last := Finally(req, Run(fs, mem, AcqMkdir));
            last.fs == fs && last.mem == mem && last.step.result.outcome == LockHeld
  {
    LockTree(fs);
    assert LockDir in fs.dirs + fs.files.Keys;
    var r0 := Run(fs, mem, AcqMkdir);
    var r1 := StepAlone(req, r0);
    assert r1 == Run(fs, mem, ResList);
    var r2 := StepAlone(req, r1);
    assert r2 == Run(fs, mem, ResRead);
    assert Finally(req, r0) == Finally(req, r1) == Finally(req, r2);
    assert Finally(req, r2) == StepAlone(req, r2);
  }

  /** A lock whose document was never written cannot be resumed by anybody: every attempt
      reports it unreadable, and changes nothing. */
  lemma LockWithoutDocumentIsStuck(fs: Fs, mem: Memory, req: Request)
    requires WellFormed(fs) && ValidRequest(req) && LockDir in fs.dirs && LockJson !in fs.files
    requires LockJson !in fs.dirs
    ensures var last := Finally(req, Run(fs, mem, AcqMkdir));
            last.fs == fs && last.mem == mem && last.step.result.outcome == LockUnreadable
  {
    assert LockDir in fs.dirs + fs.files.Keys;
    var r0 := Run(fs, mem, AcqMkdir);
    var r1 := StepAlone(req, r0);
    assert r1 == Run(fs, mem, ResList);
    var r2 := StepAlone(req, r1);
    assert r2 == Run(fs, mem, ResRead);
    assert Finally(req, r0) == Finally(req, r1) == Finally(req, r2);
    assert Finally(req, r2) == StepAlone(req, r2);
  }
}
