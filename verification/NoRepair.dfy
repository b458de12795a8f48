/** Runs without operator repair: the lock excludes, and ownership is never lost. */
module NoRepair {
  import opened Domain
  import opened Storage
  import opened HashClassify
  import opened Handoff
  import opened World
  import opened Invariant
  import opened Commit
  import opened Runs

  predicate Repairless(events: seq<Event>) {
    forall e | e in events :: !e.RepairLock?
  }

  /** Steps taken while the lock document is this request's. */
  predicate Owning(s: Step) {
    s == AcqBegin(true) || s.ReadManifest? || s.Work? || s.Uncertain? || s.Record?
    || s.RelList? || s.RelRead? || s.RelJson?
  }

  /** The lock directory is this client's: to fill, to use, or to remove. */
  predicate Inside(t: Task) {
    t.Handing? && (Owning(t.step) || t.step.AcqWrite? || t.step.RelDir?)
  }

  predicate HasResult(s: Step) {
    s.Record? || s.RelList? || s.RelRead? || s.RelKind? || s.RelJson? || s.RelDir? || s.RelClear?
    || s.Returned?
  }

  /** The lock is not lost, and not found to be of the wrong kind. */
  predicate NotLost(s: Step) {
    && !(s.Work? && s.stage.OwnKind?)
    && (HasResult(s) ==> s.result.outcome != LockOwnershipLost)
  }

  predicate Claim(fs: Fs, req: Request, s: Step) {
    && NotLost(s)
    && (Owning(s) ==> Holds(fs, req))
    && (s.AcqWrite? || s.RelDir? ==> LockJson !in fs.files)
    && (Inside(Handing(req, s)) ==> LockDir in fs.dirs)
  }

  predicate TaskClaim(fs: Fs, t: Task) {
    t.Handing? ==> Claim(fs, t.req, t.step)
  }

  ghost predicate Exclusive(w: World) {
    && (forall c | c in w.clients :: TaskClaim(w.fs, w.clients[c].task))
    && (forall c, d | c in w.clients && d in w.clients
                      && Inside(w.clients[c].task) && Inside(w.clients[d].task) :: c == d)
  }

  /** The lock's directory and document are what they were. */
  predicate SameLock(fs: Fs, fs': Fs) {
    && (LockDir in fs.dirs <==> LockDir in fs'.dirs)
    && (LockJson in fs.files <==> LockJson in fs'.files)
    && DocIn(fs') == DocIn(fs)
  }

  lemma SameClaim(fs: Fs, fs': Fs, t: Task)
    requires SameLock(fs, fs') && TaskClaim(fs, t)
    ensures TaskClaim(fs', t)
  {
  }

  // ----- the step of one client -----

  lemma LockTree(fs: Fs)
    requires WellFormed(fs)
    ensures LockJson in fs.files ==> LockDir in fs.dirs && LockJson !in fs.dirs && LockDir !in fs.files
  {
    if LockJson in fs.files { assert LockJson in fs.dirs + fs.files.Keys; }
  }

  /** The operation leaves the lock's directory and document alone. */
  predicate Elsewhere(op: Op) {
    match op
    case Read(_) | List(_) => true
    case Mkdir(p) => p != LockDir
    case Write(p, _, _) => p != LockJson
    case RemoveFile(p) => p != LockJson
    case RemoveDir(p) => p != LockDir
    case Publish(s, p) => s != LockJson && p != LockJson
    case AtomicReplace(s, p) => s != LockJson && p != LockJson
  }

  lemma ElsewhereKeepsLock(fs: Fs, op: Op, fault: Fault)
    requires Elsewhere(op)
    ensures SameLock(fs, Exec(fs, op, fault).0)
  {
  }

  /** Only taking and releasing the lock touch it. */
  lemma OnlyLockSteps(req: Request, s: Step)
    requires WellFormedStep(req, s) && ActionOf(req, s).Remote?
    ensures s.AcqMkdir? || s.AcqWrite? || s.RelJson? || s.RelDir? || Elsewhere(ActionOf(req, s).op)
  {
  }

  lemma InitElsewhere(cl: Client)
    requires WellFormedTask(cl) && cl.task.Creating? && NextAction(cl).Remote?
    ensures Elsewhere(NextAction(cl).op)
  {
  }

  lemma OwnershipConfirmed(fs: Fs, req: Request, stage: Stage, raw: Content, fault: Fault)
    requires WellFormed(fs) && Holds(fs, req) && Candidate(req, raw) && fault != Corrupt
    requires !stage.OwnKind?
    ensures var s := OnWork(req, stage, raw, Exec(fs, WorkOp(req, stage, raw), fault).1);
            NotLost(s)
  {
    var r := Exec(fs, WorkOp(req, stage, raw), fault).1;
    if Uploading(stage) { UploadNotLost(req, stage, raw, r); }
    else if Archiving(stage) { ArchiveNotLost(req, stage, raw, r); }
    else { CommitNotLost(fs, req, stage, raw, fault); }
  }

  lemma CommitNotLost(fs: Fs, req: Request, stage: Stage, raw: Content, fault: Fault)
    requires WellFormed(fs) && Holds(fs, req) && Candidate(req, raw) && fault != Corrupt
    requires !Uploading(stage) && !Archiving(stage) && !stage.OwnKind?
    ensures NotLost(OnCommit(req, stage, raw, Exec(fs, WorkOp(req, stage, raw), fault).1))
  {
    LockTree(fs);
  }

  lemma UploadNotLost(req: Request, stage: Stage, raw: Content, r: Reply)
    requires Candidate(req, raw) && Uploading(stage)
    ensures NotLost(OnUpload(req, stage, raw, r))
  {
  }

  lemma ArchiveNotLost(req: Request, stage: Stage, raw: Content, r: Reply)
    requires Candidate(req, raw) && Archiving(stage)
    ensures NotLost(OnArchive(req, stage, raw, r))
  {
  }

  lemma WorkStaysOwning(req: Request, stage: Stage, raw: Content, r: Reply)
    requires Candidate(req, raw)
    ensures var s := OnWork(req, stage, raw, r); Owning(s) || s.Returned?
  {
  }

  lemma WorkClaims(fs: Fs, fs': Fs, req: Request, stage: Stage, raw: Content, fault: Fault)
    requires WellFormed(fs) && Candidate(req, raw) && fault != Corrupt && SameLock(fs, fs')
    requires Claim(fs, req, Work(stage, raw))
    ensures var s := OnWork(req, stage, raw, Exec(fs, WorkOp(req, stage, raw), fault).1);
            Claim(fs', req, s) && (Inside(Handing(req, s)) ==> Owning(s))
  {
    OwnershipConfirmed(fs, req, stage, raw, fault);
    WorkStaysOwning(req, stage, raw, Exec(fs, WorkOp(req, stage, raw), fault).1);
  }

  /** A step that leaves the lock alone keeps the claim; it may enter only by resuming a
      lock that names this request. */
  lemma QuietStepClaims(fs: Fs, fs': Fs, req: Request, mem: Memory, s: Step, fault: Fault)
    requires WellFormedStep(req, s) && ActionOf(req, s).Remote? && fault != Corrupt
    requires WellFormed(fs) && Claim(fs, req, s) && SameLock(fs, fs')
    requires !(s.AcqMkdir? || s.AcqWrite? || s.RelJson? || s.RelDir?)
    ensures var s' := OnReply(req, mem, s, Exec(fs, ActionOf(req, s).op, fault).1);
            Claim(fs', req, s') && (Inside(Handing(req, s')) ==> Owning(s'))
  {
    if s.Work? {
      WorkClaims(fs, fs', req, s.stage, s.raw, fault);
    } else {
      EdgeClaims(fs, fs', req, mem, s, fault);
    }
  }

  lemma EdgeClaims(fs: Fs, fs': Fs, req: Request, mem: Memory, s: Step, fault: Fault)
    requires WellFormedStep(req, s) && ActionOf(req, s).Remote? && fault != Corrupt
    requires WellFormed(fs) && Claim(fs, req, s) && SameLock(fs, fs')
    requires !(s.AcqMkdir? || s.AcqWrite? || s.RelJson? || s.RelDir? || s.Work?)
    ensures var s' := OnReply(req, mem, s, Exec(fs, ActionOf(req, s).op, fault).1);
            Claim(fs', req, s') && (Inside(Handing(req, s')) ==> Owning(s'))
  {
    LockTree(fs);
    if s.ReadManifest? { ReadClaims(fs, fs', req, mem, fault); }
  }

  lemma ReadClaims(fs: Fs, fs': Fs, req: Request, mem: Memory, fault: Fault)
    requires ValidRequest(req) && Claim(fs, req, ReadManifest) && SameLock(fs, fs')
    ensures var s' := OnManifest(req, mem, Exec(fs, Read(ManifestJson), fault).1);
            Claim(fs', req, s') && (Inside(Handing(req, s')) ==> Owning(s'))
  {
  }

  /** Taking and releasing: the only steps that change the lock. */
  lemma LockStepClaims(fs: Fs, fs': Fs, req: Request, mem: Memory, s: Step, fault: Fault)
    requires s.AcqMkdir? || s.AcqWrite? || s.RelJson? || s.RelDir?
    requires WellFormedStep(req, s) && fault != Corrupt
    requires WellFormed(fs) && Claim(fs, req, s) && fs' == Exec(fs, ActionOf(req, s).op, fault).0
    ensures var s' := OnReply(req, mem, s, Exec(fs, ActionOf(req, s).op, fault).1);
            && Claim(fs', req, s')
            && (s.AcqMkdir? && LockDir in fs.dirs ==> !Inside(Handing(req, s')) && fs' == fs)
  {
    LockTree(fs);
  }

  /** The acting client: its own claim, and everybody else's. */
  ghost predicate ClaimStep(w: World, w': World, c: ClientId)
    requires c in w.clients && c in w'.clients
  {
    && TaskClaim(w'.fs, w'.clients[c].task)
    && (Inside(w.clients[c].task) || SameLock(w.fs, w'.fs)
        || LockDir !in w.fs.dirs)
    && (Inside(w'.clients[c].task) && !Inside(w.clients[c].task) ==>
          LockDir !in w.fs.dirs
          || (w'.clients[c].task.Handing? && Holds(w.fs, w'.clients[c].task.req)))
  }

  lemma HandingClaims(w: World, c: ClientId, fault: Fault)
    requires Inv(w) && Exclusive(w) && Enabled(w, Act(c, fault)) && c in w.clients
    requires w.clients[c].task.Handing? && WellFormed(AfterAct(w, c, fault).fs)
    ensures ClaimStep(w, AfterAct(w, c, fault), c)
  {
    var cl, w' := w.clients[c], AfterAct(w, c, fault);
    var req, s := cl.task.req, cl.task.step;
    if ActionOf(req, s).Remote? {
      OnlyLockSteps(req, s);
      if s.AcqMkdir? || s.AcqWrite? || s.RelJson? || s.RelDir? {
        LockStepClaims(w.fs, w'.fs, req, cl.mem, s, fault);
      } else {
        ElsewhereKeepsLock(w.fs, ActionOf(req, s).op, fault);
        QuietStepClaims(w.fs, w'.fs, req, cl.mem, s, fault);
      }
    }
  }

  lemma OtherTasksClaim(w: World, c: ClientId, fault: Fault)
    requires Inv(w) && Enabled(w, Act(c, fault)) && c in w.clients
    requires !w.clients[c].task.Handing?
    ensures ClaimStep(w, AfterAct(w, c, fault), c)
  {
    var cl := w.clients[c];
    if NextAction(cl).Remote? {
      if cl.task.Creating? { InitElsewhere(cl); }
      ElsewhereKeepsLock(w.fs, NextAction(cl).op, fault);
    }
  }

  /** Nobody else is inside when a client enters, and nobody else's claim is touched. */
  lemma ClaimStepExclusive(w: World, w': World, c: ClientId)
    requires Inv(w) && Exclusive(w) && c in w.clients && c in w'.clients && ClaimStep(w, w', c)
    requires w'.clients == w.clients[c := w'.clients[c]]
    requires w'.clients[c].task.Handing? ==>
               w.clients[c].task.Handing? && w'.clients[c].task.req == w.clients[c].task.req
    ensures Exclusive(w')
  {
    forall d | d in w.clients && d != c
      ensures TaskClaim(w'.fs, w.clients[d].task)
      ensures !(Inside(w'.clients[c].task) && Inside(w.clients[d].task))
    {
      assert ClientOk(w, d, w.clients[d]) && ClientOk(w, c, w.clients[c]);
      assert TaskClaim(w.fs, w.clients[d].task);
      if Inside(w.clients[d].task) {
        assert !Inside(w.clients[c].task);
        SameClaim(w.fs, w'.fs, w.clients[d].task);
      }
    }
  }

  lemma ActKeepsExclusive(w: World, c: ClientId, fault: Fault)
    requires Inv(w) && Exclusive(w) && Enabled(w, Act(c, fault))
    ensures Exclusive(AfterAct(w, c, fault))
  {
    ActTree(w, c, fault);
    if w.clients[c].task.Handing? { HandingClaims(w, c, fault); } else { OtherTasksClaim(w, c, fault); }
    ClaimStepExclusive(w, AfterAct(w, c, fault), c);
  }

  /** A client that starts or drops a call is outside. */
  lemma OutsideKeepsExclusive(w: World, w': World, c: ClientId, cl: Client)
    requires Exclusive(w) && w'.fs == w.fs && w'.clients == w.clients[c := cl]
    requires TaskClaim(w.fs, cl.task) && (Inside(cl.task) ==> c in w.clients && cl.task == w.clients[c].task)
    ensures Exclusive(w')
  {
  }

  lemma EventKeepsExclusive(w: World, e: Event)
    requires Inv(w) && Exclusive(w) && Enabled(w, e) && !e.RepairLock?
    ensures Exclusive(Next(w, e))
  {
    var w' := Next(w, e);
    match e
    case Act(c, fault) => ActKeepsExclusive(w, c, fault);
    case CleanTemporary(p) =>
      forall c | c in w.clients ensures TaskClaim(w'.fs, w.clients[c].task) {
        SameClaim(w.fs, w'.fs, w.clients[c].task);
      }
    case RepairLock =>
    case Crash(c) => OutsideKeepsExclusive(w, w', c, w'.clients[c]);
    case BeginHandoff(c, _) => OutsideKeepsExclusive(w, w', c, w'.clients[c]);
    case BeginInit(c, _, _) => OutsideKeepsExclusive(w, w', c, w'.clients[c]);
    case BeginReconcile(c, _) => OutsideKeepsExclusive(w, w', c, w'.clients[c]);
    case Associate(c, _) => OutsideKeepsExclusive(w, w', c, w'.clients[c]);
    case MarkClose(c) => OutsideKeepsExclusive(w, w', c, w'.clients[c]);
  }

  lemma {:induction false} RunKeepsExclusive(w: World, events: seq<Event>)
    requires Inv(w) && Exclusive(w) && IsRun(w, events) && Repairless(events)
    ensures Inv(Final(w, events)) && Exclusive(Final(w, events))
    decreases |events|
  {
    if events != [] {
      assert events[0] in events;
      assert forall e | e in events[1..] :: e in events;
      EventKeepsInv(w, events[0]);
      EventKeepsExclusive(w, events[0]);
      RunKeepsExclusive(Next(w, events[0]), events[1..]);
    }
  }

  /** Without repair no call ever reports that it lost the lock. */
  lemma OwnershipIsNeverLost(game: GameId, events: seq<Event>, c: ClientId)
    requires IsRun(Start(game), events) && Repairless(events)
    ensures var w := Final(Start(game), events);
            c in w.clients && w.clients[c].task.Handing? && w.clients[c].task.step.Returned? ==>
              w.clients[c].task.step.result.outcome != LockOwnershipLost
  {
    RunKeepsExclusive(Start(game), events);
    var w := Final(Start(game), events);
    if c in w.clients { assert TaskClaim(w.fs, w.clients[c].task); }
  }

  /** Without repair at most one client at a time is anywhere between taking the lock and
      releasing it. */
  lemma MutualExclusion(game: GameId, events: seq<Event>, c: ClientId, d: ClientId)
    requires IsRun(Start(game), events) && Repairless(events)
    requires var w := Final(Start(game), events);
             && c in w.clients && d in w.clients
             && Inside(w.clients[c].task) && Inside(w.clients[d].task)
    ensures c == d
  {
    RunKeepsExclusive(Start(game), events);
  }
}
