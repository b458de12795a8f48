/** `commit_handoff` and its helpers, step by step over the storage and the journal, each
    proved to do what the machine does from the same place. */
module HandoffCall {
  import opened Domain
  import opened Storage
  import opened HashClassify
  import opened Handoff
  import opened Faults
  import FS = FakeStorage
  import opened Journal
  import opened RemoteReads

  datatype Sys = Sys(remote: FS.Remote, mem: Memory)

  predicate Usable(sys: Sys) {
    Counted(sys.remote.schedule.counts)
  }

  /** One step of the machine over a storage with scheduled faults. */
  function StepOn(req: Request, sys: Sys, s: Step): (r: (Sys, Step))
    requires WellFormedStep(req, s) && ActionOf(req, s) != Halt && Usable(sys)
    ensures WellFormedStep(req, r.1) && Rank(r.1) < Rank(s) && Usable(r.0)
  {
    match ActionOf(req, s)
    case Remote(op) =>
      var (remote, reply) := FS.Serve(sys.remote, op);
      EveryReplyMakesProgress(req, sys.mem, s, reply);
      (sys.(remote := remote), OnReply(req, sys.mem, s, reply))
    case Local =>
      EveryLocalStepMakesProgress(req, sys.mem, s);
      var (mem, s') := OnLocal(req, sys.mem, s);
      (sys.(mem := mem), s')
  }

  /** The rest of the call: where it leaves storage and journal, and what it returns. */
  function RunOn(req: Request, sys: Sys, s: Step): (r: (Sys, HandoffResult))
    requires WellFormedStep(req, s) && Usable(sys)
    ensures Usable(r.0)
    decreases Rank(s)
  {
    if s.Returned? then (sys, s.result)
    else var (sys', s') := StepOn(req, sys, s); RunOn(req, sys', s')
  }

  lemma Onward(req: Request, sys: Sys, s: Step, sys': Sys, r: Reply)
    requires WellFormedStep(req, s) && ActionOf(req, s).Remote? && Usable(sys)
    requires (sys'.remote, r) == FS.Serve(sys.remote, ActionOf(req, s).op) && sys'.mem == sys.mem
    ensures RunOn(req, sys, s) == RunOn(req, sys', OnReply(req, sys.mem, s, r))
  {
  }

  ghost function State(storage: FS.FakeStorage, journal: DurableHandoffJournal): Sys
    reads storage, storage.faults, journal
  {
    Sys(storage.Value(), journal.Memory())
  }

  ghost predicate Ready(storage: FS.FakeStorage, journal: DurableHandoffJournal)
    reads storage, storage.faults, journal
  {
    storage.Valid() && journal.Valid() && FS.Full(storage.capabilities)
  }

  /** The rest of the call from here. */
  ghost function Rest(storage: FS.FakeStorage, journal: DurableHandoffJournal, req: Request, s: Step)
    : (Sys, HandoffResult)
    reads storage, storage.faults, journal
    requires Ready(storage, journal) && WellFormedStep(req, s)
  {
    RunOn(req, State(storage, journal), s)
  }

  /** Where a failed attempt goes on: retain the lock, or release it. */
  function After(r: HandoffResult): Step {
    if r.outcome == TransportFailure then Returned(r) else RelList(r)
  }

  /** The error branches around a write or a publish. */
  function WriteFailure(req: Request, e: Failure, m: Option<Manifest>): HandoffResult {
    match e
    case WrongKind => Fail(req, HardIntegrityFailure, m)
    case NoCapability => Fail(req, CapabilityFailure, m)
    case _ => Fail(req, TransportFailure, m)
  }

  /** The branches after a read-back. */
  function CheckFailure(req: Request, c: Comparison, m: Option<Manifest>): Option<HandoffResult> {
    match c
    case ExactMatch => None
    case Mismatch => Some(Fail(req, HardIntegrityFailure, m))
    case Raised(e) =>
      Some(Fail(req, if e == WrongKind then HardIntegrityFailure else TransportFailure, m))
  }

  // ----- where each reply leads -----

  function Continue(failure: Option<HandoffResult>, next: Step): Step {
    if failure.None? then next else After(failure.value)
  }

  function CompareNext(req: Request, c: Comparison, m: Option<Manifest>,
                       next: Step, absent: Step, differs: Step): Step {
    match c
    case ExactMatch => next
    case Mismatch => differs
    case Raised(e) => if e == NotFound then absent else After(WriteFailure(req, e, m))
  }

  lemma ComparesTo(req: Request, r: Reply, expected: Fingerprint, m: Option<Manifest>,
                   next: Step, absent: Step, differs: Step)
    requires r.Data? || r.Failed?
    ensures OnCompare(req, r, expected, m, next, absent, differs) ==
            CompareNext(req, Compared(r, expected), m, next, absent, differs)
  {
  }

  lemma ChecksTo(req: Request, r: Reply, expected: Fingerprint, m: Option<Manifest>, next: Step)
    requires r.Data? || r.Failed?
    ensures OnCheck(req, r, expected, m, next) == Continue(CheckFailure(req, Compared(r, expected), m), next)
  {
  }

  /** A write or publish that is not raced. */
  function MutationFailure(req: Request, r: Reply, m: Option<Manifest>): Option<HandoffResult> {
    if r.Failed? then Some(WriteFailure(req, r.error, m)) else None
  }

  lemma MutatesTo(req: Request, r: Reply, m: Option<Manifest>, next: Step)
    ensures OnMutation(req, r, m, next, None) == Continue(MutationFailure(req, r, m), next)
  {
  }

  lemma MutatesOrRaces(req: Request, r: Reply, m: Option<Manifest>, next: Step, race: Step)
    ensures OnMutation(req, r, m, next, Some(race)) ==
            if r == Failed(AlreadyExists) then race else Continue(MutationFailure(req, r, m), next)
  {
  }

  // ----- staging the save -----

  method WriteAbsentUpload(storage: FS.FakeStorage, journal: DurableHandoffJournal, req: Request, raw: Content)
    returns (failure: Option<HandoffResult>)
    requires Ready(storage, journal) && Candidate(req, raw)
    modifies storage, storage.faults
    ensures Ready(storage, journal)
    ensures old(Rest(storage, journal, req, Work(UpWrite(false), raw))) ==
            Rest(storage, journal, req, Continue(failure, Work(UpVerify, raw)))
  {
    ghost var s0 := State(storage, journal);
    var w := storage.WriteFile(TmpUpload(req.op, req.ext), req.bytes, false);
    Onward(req, s0, Work(UpWrite(false), raw), State(storage, journal), w);
    MutatesTo(req, w, None, Work(UpVerify, raw));
    failure := MutationFailure(req, w, None);
  }

  method OverwriteUpload(storage: FS.FakeStorage, journal: DurableHandoffJournal, req: Request, raw: Content)
    returns (failure: Option<HandoffResult>)
    requires Ready(storage, journal) && Candidate(req, raw)
    modifies storage, storage.faults
    ensures Ready(storage, journal)
    ensures old(Rest(storage, journal, req, Work(UpWrite(true), raw))) ==
            Rest(storage, journal, req, Continue(failure, Work(UpVerify, raw)))
  {
    ghost var s0 := State(storage, journal);
    var w := storage.WriteFile(TmpUpload(req.op, req.ext), req.bytes, true);
    Onward(req, s0, Work(UpWrite(true), raw), State(storage, journal), w);
    if w == Failed(NotFound) {
      failure := WriteAbsentUpload(storage, journal, req, raw);
    } else {
      MutatesTo(req, w, None, Work(UpVerify, raw));
      failure := MutationFailure(req, w, None);
    }
  }

  method VerifyUpload(storage: FS.FakeStorage, journal: DurableHandoffJournal, req: Request, raw: Content)
    returns (failure: Option<HandoffResult>)
    requires Ready(storage, journal) && Candidate(req, raw)
    modifies storage, storage.faults
    ensures Ready(storage, journal)
    ensures old(Rest(storage, journal, req, Work(UpVerify, raw))) ==
            Rest(storage, journal, req, Continue(failure, Work(PubMove, raw)))
  {
    ghost var s0 := State(storage, journal);
    var check, r := CompareStoredObject(storage, TmpUpload(req.op, req.ext), FINGERPRINT(req.bytes));
    Onward(req, s0, Work(UpVerify, raw), State(storage, journal), r);
    ChecksTo(req, r, FINGERPRINT(req.bytes), None, Work(PubMove, raw));
    failure := CheckFailure(req, check, None);
  }

  method StageAndVerifyUpload(storage: FS.FakeStorage, journal: DurableHandoffJournal, req: Request, raw: Content)
    returns (failure: Option<HandoffResult>)
    requires Ready(storage, journal) && Candidate(req, raw)
    modifies storage, storage.faults
    ensures Ready(storage, journal)
    ensures old(Rest(storage, journal, req, Work(UpCompare, raw))) ==
            Rest(storage, journal, req, Continue(failure, Work(PubMove, raw)))
  {
    ghost var s0 := State(storage, journal);
    var existing, r := CompareStoredObject(storage, TmpUpload(req.op, req.ext), FINGERPRINT(req.bytes));
    Onward(req, s0, Work(UpCompare, raw), State(storage, journal), r);
    ComparesTo(req, r, FINGERPRINT(req.bytes), None, Work(PubMove, raw), Work(UpWrite(false), raw),
               Work(UpWrite(true), raw));
    if existing == ExactMatch { return None; }
    if existing == Mismatch {
      failure := OverwriteUpload(storage, journal, req, raw);
    } else if existing.error == NotFound {
      failure := WriteAbsentUpload(storage, journal, req, raw);
    } else {
      return Some(WriteFailure(req, existing.error, None));
    }
    if failure.None? {
      failure := VerifyUpload(storage, journal, req, raw);
    }
  }

  // ----- publishing the save -----

  method CheckPublishedSave(storage: FS.FakeStorage, journal: DurableHandoffJournal, req: Request, raw: Content,
    stage: Stage)
    returns (failure: Option<HandoffResult>)
    requires Ready(storage, journal) && Candidate(req, raw) && (stage == PubReuse || stage == PubCheck)
    modifies storage, storage.faults
    ensures Ready(storage, journal)
    ensures old(Rest(storage, journal, req, Work(stage, raw))) ==
            Rest(storage, journal, req, Continue(failure, Work(FinalCheck, raw)))
  {
    ghost var s0 := State(storage, journal);
    var check, r := CompareStoredObject(storage, FinalPath(req, raw), FINGERPRINT(req.bytes));
    Onward(req, s0, Work(stage, raw), State(storage, journal), r);
    ChecksTo(req, r, FINGERPRINT(req.bytes), None, Work(FinalCheck, raw));
    failure := CheckFailure(req, check, None);
  }

  method PublishOrReuseFinal(storage: FS.FakeStorage, journal: DurableHandoffJournal, req: Request, raw: Content)
    returns (failure: Option<HandoffResult>)
    requires Ready(storage, journal) && Candidate(req, raw)
    modifies storage, storage.faults
    ensures Ready(storage, journal)
    ensures old(Rest(storage, journal, req, Work(PubMove, raw))) ==
            Rest(storage, journal, req, Continue(failure, Work(FinalCheck, raw)))
  {
    ghost var s0 := State(storage, journal);
    var r := storage.PublishNoReplace(TmpUpload(req.op, req.ext), FinalPath(req, raw));
    Onward(req, s0, Work(PubMove, raw), State(storage, journal), r);
    MutatesOrRaces(req, r, None, Work(PubCheck, raw), Work(PubReuse, raw));
    if r == Failed(AlreadyExists) {
      failure := CheckPublishedSave(storage, journal, req, raw, PubReuse);
    } else if r.Failed? {
      return Some(WriteFailure(req, r.error, None));
    } else {
      failure := CheckPublishedSave(storage, journal, req, raw, PubCheck);
    }
  }

  method CheckFinalSave(storage: FS.FakeStorage, journal: DurableHandoffJournal, req: Request, raw: Content)
    returns (failure: Option<HandoffResult>)
    requires Ready(storage, journal) && Candidate(req, raw)
    modifies storage, storage.faults
    ensures Ready(storage, journal)
    ensures old(Rest(storage, journal, req, Work(FinalCheck, raw))) ==
            Rest(storage, journal, req, Continue(failure, Work(HistCompare, raw)))
  {
    ghost var s0 := State(storage, journal);
    var check, r := CompareStoredObject(storage, FinalPath(req, raw), FINGERPRINT(req.bytes));
    Onward(req, s0, Work(FinalCheck, raw), State(storage, journal), r);
    ChecksTo(req, r, FINGERPRINT(req.bytes), Some(SourceOf(raw)), Work(HistCompare, raw));
    failure := CheckFailure(req, check, Some(SourceOf(raw)));
  }

  // ----- archiving the manifest being replaced -----

  method CheckRacedHistory(storage: FS.FakeStorage, journal: DurableHandoffJournal, req: Request, raw: Content)
    returns (failure: Option<HandoffResult>)
    requires Ready(storage, journal) && Candidate(req, raw)
    modifies storage, storage.faults
    ensures Ready(storage, journal)
    ensures old(Rest(storage, journal, req, Work(HistRace, raw))) ==
            Rest(storage, journal, req, Continue(failure, Work(HistVerify, raw)))
  {
    ghost var s0 := State(storage, journal);
    var check, r := CompareStoredObject(storage, TmpHistory(req.op), FINGERPRINT(raw));
    Onward(req, s0, Work(HistRace, raw), State(storage, journal), r);
    ChecksTo(req, r, FINGERPRINT(raw), Some(SourceOf(raw)), Work(HistVerify, raw));
    failure := CheckFailure(req, check, Some(SourceOf(raw)));
  }

  method WriteAbsentHistory(storage: FS.FakeStorage, journal: DurableHandoffJournal, req: Request, raw: Content)
    returns (failure: Option<HandoffResult>)
    requires Ready(storage, journal) && Candidate(req, raw)
    modifies storage, storage.faults
    ensures Ready(storage, journal)
    ensures old(Rest(storage, journal, req, Work(HistWrite, raw))) ==
            Rest(storage, journal, req, Continue(failure, Work(HistVerify, raw)))
  {
    ghost var s0 := State(storage, journal);
    var w := storage.WriteFile(TmpHistory(req.op), raw, false);
    Onward(req, s0, Work(HistWrite, raw), State(storage, journal), w);
    MutatesOrRaces(req, w, Some(SourceOf(raw)), Work(HistVerify, raw), Work(HistRace, raw));
    if w == Failed(AlreadyExists) {
      failure := CheckRacedHistory(storage, journal, req, raw);
    } else {
      failure := MutationFailure(req, w, Some(SourceOf(raw)));
    }
  }

  method StageHistory(storage: FS.FakeStorage, journal: DurableHandoffJournal, req: Request, raw: Content)
    returns (failure: Option<HandoffResult>)
    requires Ready(storage, journal) && Candidate(req, raw)
    modifies storage, storage.faults
    ensures Ready(storage, journal)
    ensures old(Rest(storage, journal, req, Work(HistCompare, raw))) ==
            Rest(storage, journal, req, Continue(failure, Work(HistVerify, raw)))
  {
    ghost var s0 := State(storage, journal);
    var existing, r := CompareStoredObject(storage, TmpHistory(req.op), FINGERPRINT(raw));
    Onward(req, s0, Work(HistCompare, raw), State(storage, journal), r);
    HistoryComparesTo(req, s0.mem, raw, r);
    if existing == Raised(NotFound) {
      failure := WriteAbsentHistory(storage, journal, req, raw);
    } else {
      failure := HistoryFailure(req, existing, Some(SourceOf(raw)));
    }
  }

  /** Same operation path with different bytes is never silently overwritten. */
  function HistoryFailure(req: Request, c: Comparison, m: Option<Manifest>): Option<HandoffResult> {
    match c
    case ExactMatch => None
    case Mismatch => Some(Fail(req, HardIntegrityFailure, m))
    case Raised(e) => Some(WriteFailure(req, e, m))
  }

  lemma HistoryComparesTo(req: Request, mem: Memory, raw: Content, r: Reply)
    requires Candidate(req, raw) && (r.Data? || r.Failed?)
    ensures var c := Compared(r, FINGERPRINT(raw));
            OnReply(req, mem, Work(HistCompare, raw), r) ==
              if c == Raised(NotFound) then Work(HistWrite, raw)
              else Continue(HistoryFailure(req, c, Some(SourceOf(raw))), Work(HistVerify, raw))
  {
  }

  method VerifyHistory(storage: FS.FakeStorage, journal: DurableHandoffJournal, req: Request, raw: Content)
    returns (failure: Option<HandoffResult>)
    requires Ready(storage, journal) && Candidate(req, raw)
    modifies storage, storage.faults
    ensures Ready(storage, journal)
    ensures old(Rest(storage, journal, req, Work(HistVerify, raw))) ==
            Rest(storage, journal, req, Continue(failure, Work(HistMove, raw)))
  {
    ghost var s0 := State(storage, journal);
    var check, r := CompareStoredObject(storage, TmpHistory(req.op), FINGERPRINT(raw));
    Onward(req, s0, Work(HistVerify, raw), State(storage, journal), r);
    ChecksTo(req, r, FINGERPRINT(raw), Some(SourceOf(raw)), Work(HistMove, raw));
    failure := CheckFailure(req, check, Some(SourceOf(raw)));
  }

  method CheckArchived(storage: FS.FakeStorage, journal: DurableHandoffJournal, req: Request, raw: Content,
    stage: Stage)
    returns (failure: Option<HandoffResult>)
    requires Ready(storage, journal) && Candidate(req, raw) && (stage == HistReuse || stage == HistCheck)
    modifies storage, storage.faults
    ensures Ready(storage, journal)
    ensures old(Rest(storage, journal, req, Work(stage, raw))) ==
            Rest(storage, journal, req, Continue(failure, Work(StageManifest, raw)))
  {
    ghost var s0 := State(storage, journal);
    var check, r := CompareStoredObject(storage, ArchivePath(raw), FINGERPRINT(raw));
    Onward(req, s0, Work(stage, raw), State(storage, journal), r);
    ChecksTo(req, r, FINGERPRINT(raw), Some(SourceOf(raw)), Work(StageManifest, raw));
    failure := CheckFailure(req, check, Some(SourceOf(raw)));
  }

  method PublishHistory(storage: FS.FakeStorage, journal: DurableHandoffJournal, req: Request, raw: Content)
    returns (failure: Option<HandoffResult>)
    requires Ready(storage, journal) && Candidate(req, raw)
    modifies storage, storage.faults
    ensures Ready(storage, journal)
    ensures old(Rest(storage, journal, req, Work(HistMove, raw))) ==
            Rest(storage, journal, req, Continue(failure, Work(StageManifest, raw)))
  {
    ghost var s0 := State(storage, journal);
    var r := storage.PublishNoReplace(TmpHistory(req.op), ArchivePath(raw));
    Onward(req, s0, Work(HistMove, raw), State(storage, journal), r);
    MutatesOrRaces(req, r, Some(SourceOf(raw)), Work(HistCheck, raw), Work(HistReuse, raw));
    if r == Failed(AlreadyExists) {
      failure := CheckArchived(storage, journal, req, raw, HistReuse);
    } else if r.Failed? {
      return Some(WriteFailure(req, r.error, Some(SourceOf(raw))));
    } else {
      failure := CheckArchived(storage, journal, req, raw, HistCheck);
    }
  }

  method ArchiveOrReuseHistory(storage: FS.FakeStorage, journal: DurableHandoffJournal, req: Request, raw: Content)
    returns (failure: Option<HandoffResult>)
    requires Ready(storage, journal) && Candidate(req, raw)
    modifies storage, storage.faults
    ensures Ready(storage, journal)
    ensures old(Rest(storage, journal, req, Work(HistCompare, raw))) ==
            Rest(storage, journal, req, Continue(failure, Work(StageManifest, raw)))
  {
    failure := StageHistory(storage, journal, req, raw);
    if failure.None? { failure := VerifyHistory(storage, journal, req, raw); }
    if failure.None? { failure := PublishHistory(storage, journal, req, raw); }
  }

  // ----- the lock -----

  /** The steps of the machine that inspect the lock, and where the inspection leads. */
  datatype Looks = Looks(first: Step, second: Step, file: Step, directory: Step)

  ghost predicate Inspects(req: Request, mem: Memory, l: Looks) {
    && WellFormedStep(req, l.first) && WellFormedStep(req, l.second)
    && WellFormedStep(req, l.file) && WellFormedStep(req, l.directory)
    && ActionOf(req, l.first) == Remote(List(LockDir))
    && ActionOf(req, l.second) == Remote(Read(LockJson))
    && ActionOf(req, l.file) == Remote(KindOp(LockFile))
    && ActionOf(req, l.directory) == Remote(KindOp(DocumentDirectory))
    && (forall r: Reply | !r.Failed? :: OnReply(req, mem, l.first, r) == l.second)
    && OnReply(req, mem, l.first, Failed(WrongKind)) == l.file
    && OnReply(req, mem, l.second, Failed(WrongKind)) == l.directory
  }

  ghost function LedTo(req: Request, mem: Memory, l: Looks, seen: Seen): Step
    requires Inspects(req, mem, l)
  {
    match LookedAgain(seen)
    case Some(LockFile) => OnReply(req, mem, l.file, seen.again)
    case Some(DocumentDirectory) => OnReply(req, mem, l.directory, seen.again)
    case None =>
      if seen.listed.Failed? then OnReply(req, mem, l.first, seen.listed)
      else OnReply(req, mem, l.second, seen.read)
  }

  lemma InspectOn(caps: FS.Capabilities, req: Request, sys: Sys, l: Looks, seen: Seen, sys': Sys)
    requires Inspects(req, sys.mem, l) && sys'.mem == sys.mem
    requires FS.Full(caps) && Saw(caps, sys.remote, sys'.remote, seen)
    ensures Usable(sys') && RunOn(req, sys, l.first) == RunOn(req, sys', LedTo(req, sys.mem, l, seen))
  {
    var mid, late := Sys(seen.mid, sys.mem), Sys(seen.late, sys.mem);
    Onward(req, sys, l.first, mid, seen.listed);
    if !seen.listed.Failed? { Onward(req, mid, l.second, late, seen.read); }
    match LookedAgain(seen)
    case Some(LockFile) => Onward(req, late, l.file, sys', seen.again);
    case Some(DocumentDirectory) => Onward(req, late, l.directory, sys', seen.again);
    case None =>
  }

  datatype LockAcquireOutcome =
    | Acquired | Resumed | ForeignHeld | Unreadable | CapabilityMissing | TransportLost

  /** Where the call goes on after the attempt to take the lock. */
  function AcquireNext(req: Request, o: LockAcquireOutcome): (s: Step)
    requires ValidRequest(req)
    ensures WellFormedStep(req, s)
  {
    match o
    case Acquired | Resumed => ReadManifest
    case ForeignHeld => Returned(Fail(req, LockHeld, None))
    case Unreadable => Returned(Fail(req, LockUnreadable, None))
    case CapabilityMissing => Returned(Fail(req, CapabilityFailure, None))
    case TransportLost => Returned(Fail(req, TransportFailure, None))
  }

  function ResumeOutcome(req: Request, progress: Option<InProgress>, i: Inspection): LockAcquireOutcome {
    match i
    case Unanswered => TransportLost
    case Readable(d, _) =>
      if OwnedBy(d, req) && progress == Some(ProgressOf(req)) then Resumed else ForeignHeld
    case Absent | NoDocument | Malformed(_) | LockIsFile(_) | DocumentIsDirectory(_) => Unreadable
  }

  const RESUMING := Looks(ResList, ResRead, ResKind(LockFile), ResKind(DocumentDirectory))

  lemma ResumesTo(req: Request, mem: Memory, seen: Seen)
    requires ValidRequest(req) && Sensible(seen)
    ensures Inspects(req, mem, RESUMING)
    ensures LedTo(req, mem, RESUMING, seen) ==
            AcquireNext(req, ResumeOutcome(req, mem.inProgress, InspectionOf(seen)))
  {
  }

  method ResumeExistingLock(storage: FS.FakeStorage, journal: DurableHandoffJournal, req: Request)
    returns (o: LockAcquireOutcome)
    requires Ready(storage, journal) && ValidRequest(req)
    modifies storage, storage.faults
    ensures Ready(storage, journal)
    ensures old(Rest(storage, journal, req, ResList)) ==
            Rest(storage, journal, req, AcquireNext(req, o))
  {
    ghost var s0 := State(storage, journal);
    var inspection, seen := InspectUploadLock(storage);
    ResumesTo(req, s0.mem, seen);
    InspectOn(storage.capabilities, req, s0, RESUMING, seen, State(storage, journal));
    match inspection {
      case Unanswered => o := TransportLost;
      case Readable(document, _) =>
        var progress := journal.stored.inProgress;
        if progress.Some? && OwnedBy(document, req) && progress.value == ProgressOf(req) {
          o := Resumed;
        } else {
          o := ForeignHeld;
        }
      case _ => o := Unreadable;
    }
  }

  method AcquireOrResumeUploadLock(storage: FS.FakeStorage, journal: DurableHandoffJournal, req: Request)
    returns (o: LockAcquireOutcome)
    requires Ready(storage, journal) && ValidRequest(req)
    modifies storage, storage.faults, journal
    ensures Ready(storage, journal)
    ensures old(Rest(storage, journal, req, AcqMkdir)) ==
            Rest(storage, journal, req, AcquireNext(req, o))
  {
    ghost var s0 := State(storage, journal);
    var made := storage.MakeDirectory(LockDir);
    Onward(req, s0, AcqMkdir, State(storage, journal), made);
    if made.Failed? {
      match made.error {
        case NoCapability => return CapabilityMissing;
        case AlreadyExists => o := ResumeExistingLock(storage, journal, req); return;
        case WrongKind => return Unreadable;
        case _ => return TransportLost;
      }
    }
    o := WriteLockDocument(storage, journal, req);
  }

  /** A lost response still leaves a journal entry that can resume the lock. */
  method WriteLockDocument(storage: FS.FakeStorage, journal: DurableHandoffJournal, req: Request)
    returns (o: LockAcquireOutcome)
    requires Ready(storage, journal) && ValidRequest(req)
    modifies storage, storage.faults, journal
    ensures Ready(storage, journal)
    ensures old(Rest(storage, journal, req, AcqWrite)) ==
            Rest(storage, journal, req, AcquireNext(req, o))
  {
    ghost var s0 := State(storage, journal);
    var w := storage.WriteFile(LockJson, LockBytes(LockDoc(req)), false);
    ghost var s1 := State(storage, journal);
    Onward(req, s0, AcqWrite, s1, w);
    journal.BeginHandoff(ProgressOf(req));
    o := if w.Failed? then TransportLost else Acquired;
    assert RunOn(req, s1, AcqBegin(!w.Failed?)) == Rest(storage, journal, req, AcquireNext(req, o));
  }

  datatype LockReleaseOutcome = Released | WasAbsent | NotOwned | CannotRead | ReleaseLost

  function ReleaseEnd(result: HandoffResult, o: LockReleaseOutcome): Step {
    if o == CannotRead || o == ReleaseLost then Returned(Ambiguous(result)) else RelClear(result)
  }

  function ReleaseNext(req: Request, result: HandoffResult, i: Inspection): Step {
    match i
    case Absent => RelClear(result)
    case Readable(d, _) => if OwnedBy(d, req) then RelJson(result) else RelClear(result)
    case Unanswered | NoDocument | Malformed(_) | LockIsFile(_) | DocumentIsDirectory(_) =>
      Returned(Ambiguous(result))
  }

  function Releasing(result: HandoffResult): Looks {
    Looks(RelList(result), RelRead(result), RelKind(result, LockFile), RelKind(result, DocumentDirectory))
  }

  lemma ReleasesTo(req: Request, mem: Memory, result: HandoffResult, seen: Seen)
    requires ValidRequest(req) && Sensible(seen)
    ensures Inspects(req, mem, Releasing(result))
    ensures LedTo(req, mem, Releasing(result), seen) == ReleaseNext(req, result, InspectionOf(seen))
  {
  }

  /** Release only after ownership is positively verified. */
  method ReleaseOwnedUploadLock(storage: FS.FakeStorage, journal: DurableHandoffJournal, req: Request,
                                ghost result: HandoffResult)
    returns (o: LockReleaseOutcome)
    requires Ready(storage, journal) && ValidRequest(req)
    modifies storage, storage.faults
    ensures Ready(storage, journal)
    ensures old(Rest(storage, journal, req, RelList(result))) ==
            Rest(storage, journal, req, ReleaseEnd(result, o))
  {
    ghost var s0 := State(storage, journal);
    var inspection, seen := InspectUploadLock(storage);
    ReleasesTo(req, s0.mem, result, seen);
    InspectOn(storage.capabilities, req, s0, Releasing(result), seen, State(storage, journal));
    o := ReleaseInspected(storage, journal, req, result, inspection);
  }

  method ReleaseInspected(storage: FS.FakeStorage, journal: DurableHandoffJournal, req: Request,
                          ghost result: HandoffResult, inspection: Inspection)
    returns (o: LockReleaseOutcome)
    requires Ready(storage, journal) && ValidRequest(req)
    modifies storage, storage.faults
    ensures Ready(storage, journal)
    ensures old(Rest(storage, journal, req, ReleaseNext(req, result, inspection))) ==
            Rest(storage, journal, req, ReleaseEnd(result, o))
  {
    match inspection {
      case Absent => o := WasAbsent;
      case Unanswered => o := ReleaseLost;
      case Readable(document, _) =>
        if !OwnedBy(document, req) { return NotOwned; }
        o := RemoveOwnedLock(storage, journal, req, result);
      case _ => o := CannotRead;
    }
  }

  method RemoveOwnedLock(storage: FS.FakeStorage, journal: DurableHandoffJournal, req: Request,
                         ghost result: HandoffResult)
    returns (o: LockReleaseOutcome)
    requires Ready(storage, journal) && ValidRequest(req)
    modifies storage, storage.faults
    ensures Ready(storage, journal)
    ensures old(Rest(storage, journal, req, RelJson(result))) ==
            Rest(storage, journal, req, ReleaseEnd(result, o))
  {
    ghost var s1 := State(storage, journal);
    var removed := storage.DeleteFile(LockJson);
    ghost var s2 := State(storage, journal);
    Onward(req, s1, RelJson(result), s2, removed);
    if removed.Failed? && removed.error != NotFound { return ReleaseLost; }
    o := RemoveLockDirectory(storage, journal, req, result);
  }

  method RemoveLockDirectory(storage: FS.FakeStorage, journal: DurableHandoffJournal, req: Request,
                             ghost result: HandoffResult)
    returns (o: LockReleaseOutcome)
    requires Ready(storage, journal) && ValidRequest(req)
    modifies storage, storage.faults
    ensures Ready(storage, journal)
    ensures old(Rest(storage, journal, req, RelDir(result))) ==
            Rest(storage, journal, req, ReleaseEnd(result, o))
  {
    ghost var s0 := State(storage, journal);
    var gone := storage.DeleteDirectory(LockDir);
    Onward(req, s0, RelDir(result), State(storage, journal), gone);
    if gone.Failed? { return if gone.error == NotFound then WasAbsent else ReleaseLost; }
    return Released;
  }

  // ----- under the lock -----

  datatype CleanupAction = Retain | SuccessRelease | TerminalRelease

  function CleanupStep(result: HandoffResult, cleanup: CleanupAction): Step {
    if cleanup == Retain then Returned(result) else RelList(result)
  }

  /** What the manifest read decides: stop with a result, or do the work on `raw`. */
  datatype Decision = Stop(result: HandoffResult, cleanup: CleanupAction) | Proceed(raw: Content)

  function DecisionStep(d: Decision): Step {
    match d
    case Stop(result, cleanup) => CleanupStep(result, cleanup)
    case Proceed(raw) => Work(UpCompare, raw)
  }

  /** Acceptance is recorded before the lock is released. */
  method RecordAccepted(storage: FS.FakeStorage, journal: DurableHandoffJournal, req: Request,
                        ghost result: HandoffResult)
    requires Ready(storage, journal) && ValidRequest(req)
    modifies journal
    ensures Ready(storage, journal)
    ensures old(Rest(storage, journal, req, Record(result))) ==
            Rest(storage, journal, req, CleanupStep(result, SuccessRelease))
  {
    journal.RecordHistoricalAcceptance(DigestOf(req));
    RecordOn(req, old(State(storage, journal)), result, State(storage, journal));
  }

  method Decide(storage: FS.FakeStorage, journal: DurableHandoffJournal, req: Request)
    returns (d: Decision)
    requires Ready(storage, journal) && ValidRequest(req)
    modifies storage, storage.faults, journal
    ensures Ready(storage, journal)
    ensures d.Proceed? ==> Candidate(req, d.raw)
    ensures old(Rest(storage, journal, req, ReadManifest)) ==
            Rest(storage, journal, req, DecisionStep(d))
  {
    ghost var s0 := State(storage, journal);
    var read, r := ReadAuthoritativeManifest(storage, req.game);
    Onward(req, s0, ReadManifest, State(storage, journal), r);
    match read {
      case Missing => return Stop(Fail(req, MissingManifest, None), TerminalRelease);
      case Invalid => return Stop(Fail(req, InvalidManifest, None), TerminalRelease);
      case GameMismatch => return Stop(Fail(req, InvalidManifest, None), TerminalRelease);
      case Unreachable => return Stop(Fail(req, TransportFailure, None), Retain);
      case ReadOk(m, raw) => d := ClassifyCandidate(storage, journal, req, m, raw);
    }
  }

  method ClassifyCandidate(storage: FS.FakeStorage, journal: DurableHandoffJournal, req: Request,
                           m: Manifest, raw: Content)
    returns (d: Decision)
    requires Ready(storage, journal) && ValidRequest(req)
    requires ParseManifest(raw) == Some(m) && m.gameId == req.game
    modifies journal
    ensures Ready(storage, journal)
    ensures d.Proceed? ==> Candidate(req, d.raw)
    ensures old(Rest(storage, journal, req, OnReadOk(req, journal.Memory(), m, raw))) ==
            Rest(storage, journal, req, DecisionStep(d))
  {
    var evidence := journal.EvidenceForHash(DigestOf(req));
    NewIffUnknown(DigestOf(req), m, req.player, evidence);
    match Classify(DigestOf(req), m, req.player, evidence) {
      case Incoming => return Stop(Fail(req, RejectIncoming, Some(m)), TerminalRelease);
      case JournalOnly => return Stop(Fail(req, JournalOnlyAck, Some(m)), TerminalRelease);
      case Stale => return Stop(Fail(req, StaleReplay, Some(m)), TerminalRelease);
      case Idempotent =>
        var result := HandoffResult(IdempotentAck, false, DigestOf(req), Some(m));
        RecordAccepted(storage, journal, req, result);
        return Stop(result, SuccessRelease);
      case NewCandidate =>
        if m.current != req.player {
          return Stop(Fail(req, NotCurrentOwner, Some(m)), TerminalRelease);
        }
        return Proceed(raw);
    }
  }

  lemma RecordOn(req: Request, sys: Sys, result: HandoffResult, sys': Sys)
    requires ValidRequest(req) && Usable(sys) && sys'.remote == sys.remote
    requires sys'.mem == sys.mem.(accepted := sys.mem.accepted + {DigestOf(req)})
    ensures RunOn(req, sys, Record(result)) == RunOn(req, sys', RelList(result))
  {
  }

  datatype Ownership = Owned | Lost | Unknown

  function OwnershipOf(req: Request, i: Inspection): Ownership {
    match i
    case Unanswered => Unknown
    case Readable(d, _) => if OwnedBy(d, req) then Owned else Lost
    case Absent | NoDocument | Malformed(_) | LockIsFile(_) | DocumentIsDirectory(_) => Lost
  }

  function OwnershipStep(req: Request, o: Ownership, raw: Content): Step
    requires Candidate(req, raw)
  {
    match o
    case Owned => Work(Replace, raw)
    case Lost => RelList(Fail(req, LockOwnershipLost, Some(SourceOf(raw))))
    case Unknown => Returned(Fail(req, TransportFailure, Some(SourceOf(raw))))
  }

  function Owning(raw: Content): Looks {
    Looks(Work(OwnList, raw), Work(OwnRead, raw), Work(OwnKind(LockFile), raw),
          Work(OwnKind(DocumentDirectory), raw))
  }

  lemma OwningInspects(req: Request, mem: Memory, raw: Content)
    requires Candidate(req, raw)
    ensures Inspects(req, mem, Owning(raw))
  {
  }

  lemma OwnershipGoesTo(req: Request, mem: Memory, raw: Content, seen: Seen)
    requires Candidate(req, raw) && Sensible(seen) && Inspects(req, mem, Owning(raw))
    ensures LedTo(req, mem, Owning(raw), seen) == OwnershipStep(req, OwnershipOf(req, InspectionOf(seen)), raw)
  {
  }

  /** The pre-commit re-check of the lock. */
  method CheckLockOwnership(storage: FS.FakeStorage, journal: DurableHandoffJournal, req: Request,
                            ghost raw: Content)
    returns (o: Ownership)
    requires Ready(storage, journal) && Candidate(req, raw)
    modifies storage, storage.faults
    ensures Ready(storage, journal)
    ensures old(Rest(storage, journal, req, Work(OwnList, raw))) ==
            Rest(storage, journal, req, OwnershipStep(req, o, raw))
  {
    ghost var s0 := State(storage, journal);
    var inspection, seen := InspectUploadLock(storage);
    OwningInspects(req, s0.mem, raw);
    OwnershipGoesTo(req, s0.mem, raw, seen);
    InspectOn(storage.capabilities, req, s0, Owning(raw), seen, State(storage, journal));
    o := OwnershipOf(req, inspection);
  }

  /** Attribute success only when the remote bytes are exactly the intended ones. */
  method ReconcileUncertainCommit(storage: FS.FakeStorage, journal: DurableHandoffJournal, req: Request, raw: Content)
    returns (result: HandoffResult, cleanup: CleanupAction)
    requires Ready(storage, journal) && Candidate(req, raw)
    modifies storage, storage.faults, journal
    ensures Ready(storage, journal)
    ensures old(Rest(storage, journal, req, Uncertain(raw))) ==
            Rest(storage, journal, req, CleanupStep(result, cleanup))
  {
    ghost var s0 := State(storage, journal);
    var recovered, r := ReadAuthoritativeManifest(storage, req.game);
    Onward(req, s0, Uncertain(raw), State(storage, journal), r);
    if recovered.ReadOk? {
      if recovered.raw == Payload(req, raw) {
        result := HandoffResult(IdempotentAck, false, DigestOf(req), Some(recovered.manifest));
        RecordAccepted(storage, journal, req, result);
        return result, SuccessRelease;
      }
      return Fail(req, TransportFailure, Some(recovered.manifest)), Retain;
    }
    return Fail(req, TransportFailure, None), Retain;
  }

  method StageNewManifest(storage: FS.FakeStorage, journal: DurableHandoffJournal, req: Request, raw: Content)
    returns (failure: Option<HandoffResult>)
    requires Ready(storage, journal) && Candidate(req, raw)
    modifies storage, storage.faults
    ensures Ready(storage, journal)
    ensures old(Rest(storage, journal, req, Work(StageManifest, raw))) ==
            Rest(storage, journal, req, Continue(failure, Work(OwnList, raw)))
  {
    ghost var s0 := State(storage, journal);
    var w := storage.WriteFile(TmpManifest(req.op), Payload(req, raw), true);
    Onward(req, s0, Work(StageManifest, raw), State(storage, journal), w);
    MutatesTo(req, w, Some(SourceOf(raw)), Work(OwnList, raw));
    failure := MutationFailure(req, w, Some(SourceOf(raw)));
  }

  /** The commit point. */
  method ReplaceManifest(storage: FS.FakeStorage, journal: DurableHandoffJournal, req: Request, raw: Content)
    returns (result: HandoffResult, cleanup: CleanupAction)
    requires Ready(storage, journal) && Candidate(req, raw)
    modifies storage, storage.faults, journal
    ensures Ready(storage, journal)
    ensures old(Rest(storage, journal, req, Work(Replace, raw))) ==
            Rest(storage, journal, req, CleanupStep(result, cleanup))
  {
    ghost var s0 := State(storage, journal);
    var replaced := storage.ReplaceAtomically(TmpManifest(req.op), ManifestJson);
    Onward(req, s0, Work(Replace, raw), State(storage, journal), replaced);
    ReplacesTo(req, s0.mem, raw, replaced);
    result, cleanup := AfterReplace(storage, journal, req, raw, replaced);
  }

  method AfterReplace(storage: FS.FakeStorage, journal: DurableHandoffJournal, req: Request, raw: Content,
                      replaced: Reply)
    returns (result: HandoffResult, cleanup: CleanupAction)
    requires Ready(storage, journal) && Candidate(req, raw)
    modifies storage, storage.faults, journal
    ensures Ready(storage, journal)
    ensures old(Rest(storage, journal, req, OnReplace(req, Some(SourceOf(raw)), replaced, raw))) ==
            Rest(storage, journal, req, CleanupStep(result, cleanup))
  {
    var m := Some(SourceOf(raw));
    if replaced.Failed? {
      match replaced.error {
        case NoCapability => return Fail(req, CapabilityFailure, m), TerminalRelease;
        case Transport => result, cleanup := ReconcileUncertainCommit(storage, journal, req, raw); return;
        case _ => return Fail(req, TransportFailure, m), Retain;
      }
    }
    result := HandoffResult(Committed, true, DigestOf(req), Some(NextManifest(req, raw)));
    RecordAccepted(storage, journal, req, result);
    return result, SuccessRelease;
  }

  lemma ReplacesTo(req: Request, mem: Memory, raw: Content, r: Reply)
    requires Candidate(req, raw)
    ensures OnReply(req, mem, Work(Replace, raw), r) == OnReplace(req, Some(SourceOf(raw)), r, raw)
  {
  }

  method RunOwnedHandoff(storage: FS.FakeStorage, journal: DurableHandoffJournal, req: Request)
    returns (result: HandoffResult, cleanup: CleanupAction)
    requires Ready(storage, journal) && ValidRequest(req)
    modifies storage, storage.faults, journal
    ensures Ready(storage, journal)
    ensures old(Rest(storage, journal, req, ReadManifest)) ==
            Rest(storage, journal, req, CleanupStep(result, cleanup))
  {
    var decision := Decide(storage, journal, req);
    if decision.Stop? { return decision.result, decision.cleanup; }
    var raw := decision.raw;
    var failure := PrepareCommit(storage, journal, req, raw);
    if failure.Some? {
      cleanup := if failure.value.outcome == TransportFailure then Retain else TerminalRelease;
      return failure.value, cleanup;
    }
    result, cleanup := CommitIfOwned(storage, journal, req, raw);
  }

  /** Publish the save, archive the old manifest, stage the new one. */
  method PrepareCommit(storage: FS.FakeStorage, journal: DurableHandoffJournal, req: Request, raw: Content)
    returns (failure: Option<HandoffResult>)
    requires Ready(storage, journal) && Candidate(req, raw)
    modifies storage, storage.faults
    ensures Ready(storage, journal)
    ensures old(Rest(storage, journal, req, Work(UpCompare, raw))) ==
            Rest(storage, journal, req, Continue(failure, Work(OwnList, raw)))
  {
    failure := StageAndVerifyUpload(storage, journal, req, raw);
    if failure.Some? { return; }
    failure := PublishOrReuseFinal(storage, journal, req, raw);
    if failure.Some? { return; }
    failure := CheckFinalSave(storage, journal, req, raw);
    if failure.Some? { return; }
    failure := ArchiveOrReuseHistory(storage, journal, req, raw);
    if failure.Some? { return; }
    failure := StageNewManifest(storage, journal, req, raw);
  }

  method CommitIfOwned(storage: FS.FakeStorage, journal: DurableHandoffJournal, req: Request, raw: Content)
    returns (result: HandoffResult, cleanup: CleanupAction)
    requires Ready(storage, journal) && Candidate(req, raw)
    modifies storage, storage.faults, journal
    ensures Ready(storage, journal)
    ensures old(Rest(storage, journal, req, Work(OwnList, raw))) ==
            Rest(storage, journal, req, CleanupStep(result, cleanup))
  {
    var ownership := CheckLockOwnership(storage, journal, req, raw);
    match ownership {
      case Unknown => return Fail(req, TransportFailure, Some(SourceOf(raw))), Retain;
      case Lost => return Fail(req, LockOwnershipLost, Some(SourceOf(raw))), TerminalRelease;
      case Owned => result, cleanup := ReplaceManifest(storage, journal, req, raw);
    }
  }

  method ApplyCleanup(storage: FS.FakeStorage, journal: DurableHandoffJournal, req: Request,
                      result: HandoffResult, cleanup: CleanupAction)
    returns (last: HandoffResult)
    requires Ready(storage, journal) && ValidRequest(req)
    modifies storage, storage.faults, journal
    ensures Ready(storage, journal)
    ensures old(Rest(storage, journal, req, CleanupStep(result, cleanup))) ==
            (State(storage, journal), last)
  {
    if cleanup == Retain { return result; }
    var release := ReleaseOwnedUploadLock(storage, journal, req, result);
    if release == CannotRead || release == ReleaseLost { return Ambiguous(result); }
    ghost var s0 := State(storage, journal);
    journal.ClearInProgress();
    ClearOn(req, s0, result, State(storage, journal));
    return result;
  }

  lemma ClearOn(req: Request, sys: Sys, result: HandoffResult, sys': Sys)
    requires ValidRequest(req) && Usable(sys) && sys'.remote == sys.remote
    requires sys'.mem == sys.mem.(inProgress := None)
    ensures RunOn(req, sys, RelClear(result)) == (sys', result)
  {
    assert StepOn(req, sys, RelClear(result)) == (sys', Returned(result));
    assert RunOn(req, sys', Returned(result)) == (sys', result);
  }

  /** The whole call is exactly the machine's run from its first step, whatever faults are
      scheduled; a storage that lacks a capability is not touched at all. */
  method CommitHandoff(storage: FS.FakeStorage, journal: DurableHandoffJournal, req: Request)
    returns (result: HandoffResult)
    requires storage.Valid() && journal.Valid() && ValidRequest(req)
    modifies storage, storage.faults, journal
    ensures storage.Valid() && journal.Valid()
    ensures FS.Full(storage.capabilities) ==>
              (State(storage, journal), result) == old(Rest(storage, journal, req, AcqMkdir))
    ensures !FS.Full(storage.capabilities) ==>
              State(storage, journal) == old(State(storage, journal))
              && result == Fail(req, CapabilityFailure, None)
  {
    if !FS.Full(storage.capabilities) { return Fail(req, CapabilityFailure, None); }
    var lock := AcquireOrResumeUploadLock(storage, journal, req);
    match lock {
      case ForeignHeld => return Fail(req, LockHeld, None);
      case Unreadable => return Fail(req, LockUnreadable, None);
      case CapabilityMissing => return Fail(req, CapabilityFailure, None);
      case TransportLost => return Fail(req, TransportFailure, None);
      case Acquired =>
      case Resumed =>
    }
    var outcome, cleanup := RunOwnedHandoff(storage, journal, req);
    result := ApplyCleanup(storage, journal, req, outcome, cleanup);
  }
}
