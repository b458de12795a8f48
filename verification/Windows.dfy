/** Why operator repair must keep out of the two windows between a holder's ownership check
    and what the check licenses: the replacement, and the removal of the lock.  For every
    match of two players or more, runs are given that reach the window, and lose an update
    after a repair in it. */
module Windows {
  import opened Domain
  import opened Storage
  import opened HashClassify
  import opened Handoff
  import opened Initialize
  import opened World
  import opened Invariant
  import opened Runs
  import opened NoRepair
  import opened Alone
  import opened CrashAnywhere
  import opened InitCall
  import opened Possible

  predicate SameStaged(fs: Fs, fs': Fs, op: OperationId) {
    && (TmpManifest(op) in fs.files <==> TmpManifest(op) in fs'.files)
    && (TmpManifest(op) in fs.files ==> fs'.files[TmpManifest(op)] == fs.files[TmpManifest(op)])
  }

  /** The operation neither writes nor moves this staged manifest. */
  predicate Spares(op: Op, id: OperationId) {
    match op
    case Read(_) | List(_) | Mkdir(_) | RemoveDir(_) => true
    case Write(p, _, _) => p != TmpManifest(id)
    case RemoveFile(p) => p != TmpManifest(id)
    case Publish(s, p) => s != TmpManifest(id) && p != TmpManifest(id)
    case AtomicReplace(s, p) => s != TmpManifest(id) && p != TmpManifest(id)
  }

  lemma StepSpares(req: Request, s: Step, id: OperationId)
    requires WellFormedStep(req, s) && ActionOf(req, s).Remote? && id != req.op
    ensures Spares(ActionOf(req, s).op, id)
  {
  }

  lemma StepKeepsOthersStaged(req: Request, run: Run, op: OperationId)
    requires WellFormedStep(req, run.step) && ActionOf(req, run.step) != Halt && op != req.op
    ensures SameStaged(run.fs, StepAlone(req, run).fs, op)
    ensures WellFormed(run.fs) ==> WellFormed(StepAlone(req, run).fs)
  {
    if ActionOf(req, run.step).Remote? {
      StepSpares(req, run.step, op);
      SparedStays(run.fs, ActionOf(req, run.step).op, op);
      if WellFormed(run.fs) { ExecKeepsWellFormed(run.fs, ActionOf(req, run.step).op, NoFault); }
    }
  }

  lemma SparedStays(fs: Fs, op: Op, id: OperationId)
    requires Spares(op, id)
    ensures SameStaged(fs, Exec(fs, op, NoFault).0, id)
  {
  }

  /** A call never touches the manifest another operation has staged. */
  lemma {:induction false} CallKeepsOthersStaged(req: Request, run: Run, op: OperationId)
    requires WellFormedStep(req, run.step) && op != req.op
    ensures SameStaged(run.fs, Finally(req, run).fs, op)
    ensures WellFormed(run.fs) ==> WellFormed(Finally(req, run).fs)
    decreases Rank(run.step)
  {
    if !run.step.Returned? {
      StepKeepsOthersStaged(req, run, op);
      CallKeepsOthersStaged(req, StepAlone(req, run), op);
    }
  }

  /** The tree after a repair lets another call of the same turn through. */
  predicate LetsThrough(fs: Fs, mem: Memory, b: Request, raw: Content) {
    && LocksDir in fs.dirs && LockDir !in fs.dirs && LockDir !in fs.files
    && Candidate(b, raw) && DigestOf(b) !in mem.accepted && WorkLeft(fs, b, UpCompare, raw)
  }

  lemma RoomUnderLock(fs: Fs, mem: Memory, b: Request, raw: Content)
    requires WellFormed(fs) && LetsThrough(fs, mem, b, raw)
    ensures var a := Acquired(b, fs, mem);
            WellFormed(a.fs) && Holds(a.fs, b) && WorkLeft(a.fs, b, UpCompare, raw)
  {
    var a := Acquired(b, fs, mem);
    forall p | p in a.fs.dirs + a.fs.files.Keys && Parent(p).Some? ensures Parent(p).value in a.fs.dirs {
      if p != LockDir && p != LockJson { assert p in fs.dirs + fs.files.Keys; }
    }
    assert LockJson in fs.dirs + fs.files.Keys ==> LockDir in fs.dirs;
  }

  /** Then that call commits, and the other one's staged manifest is still there. */
  lemma OtherCommits(fs: Fs, mem: Memory, b: Request, raw: Content, op: OperationId)
    requires WellFormed(fs) && LetsThrough(fs, mem, b, raw) && op != b.op
    requires ManifestJson in fs.files && fs.files[ManifestJson] == raw
    ensures var done := Finally(b, Run(fs, mem, AcqMkdir));
            && done.step.result.outcome == Committed && Installed1(done.fs, b, raw)
            && WellFormed(done.fs) && SameStaged(fs, done.fs, op)
  {
    var held := Acquired(b, fs, mem);
    FirstStepsLead(fs, mem, b);
    RoomUnderLock(fs, mem, b, raw);
    CommitsFromRead(b, held.fs, held.mem);
    CommitsExactlyOnTrack(b, held, raw);
    CallKeepsOthersStaged(b, held, op);
  }

  lemma FirstStepsLead(fs: Fs, mem: Memory, b: Request)
    requires WellFormed(fs) && ValidRequest(b) && LocksDir in fs.dirs
    requires LockDir !in fs.dirs && LockDir !in fs.files
    ensures Finally(b, Run(fs, mem, AcqMkdir)) == Finally(b, Acquired(b, fs, mem))
  {
    LockIsTaken(fs, mem, b);
    var r0 := Run(fs, mem, AcqMkdir);
    var r1 := StepAlone(b, r0);
    var r2 := StepAlone(b, r1);
    assert Finally(b, r0) == Finally(b, r1) == Finally(b, r2) == Finally(b, StepAlone(b, r2));
  }

  /** The replacement looks at nothing but its own staged file. */
  lemma ReplaceIsBlind(fs: Fs, a: Request, raw: Content)
    requires WellFormed(fs) && Candidate(a, raw) && ManifestJson in fs.files
    requires TmpManifest(a.op) in fs.files && fs.files[TmpManifest(a.op)] == Payload(a, raw)
    ensures var (fs', r) := Exec(fs, WorkOp(a, Replace, raw), NoFault); r == Ok && Installed1(fs', a, raw)
  {
    assert ManifestJson in fs.dirs + fs.files.Keys;
  }

  lemma DifferentTurns(a: Request, b: Request, raw: Content)
    requires Candidate(a, raw) && Candidate(b, raw) && a.op != b.op
    ensures Payload(a, raw) != Payload(b, raw)
    ensures NextManifest(a, raw).sequence == NextManifest(b, raw).sequence
  {
    assert NextManifest(a, raw).lastOp == Some(a.op) && NextManifest(b, raw).lastOp == Some(b.op);
  }

  // ----- a turn left alone, as far as its replacement -----

  /** The objects a call may leave on the tree. */
  function Own(req: Request, raw: Content): set<Path>
    requires Candidate(req, raw)
  {
    {LockJson, FinalPath(req, raw), ArchivePath(raw), TmpUpload(req.op, req.ext), TmpHistory(req.op),
     TmpManifest(req.op)}
  }

  /** The tree while the call works: nothing else was added to `base`. */
  ghost predicate Footprint(fs: Fs, req: Request, raw: Content, base: set<Path>)
    requires Candidate(req, raw)
  {
    && fs.dirs == SKELETON + {LockDir} && fs.files.Keys <= base + Own(req, raw)
    && Matches(fs, ArchivePath(raw), FINGERPRINT(raw)) && Matches(fs, TmpHistory(req.op), FINGERPRINT(raw))
  }

  lemma FootprintKept(fs: Fs, req: Request, stage: Stage, raw: Content, base: set<Path>)
    requires Candidate(req, raw) && Footprint(fs, req, raw, base) && stage != Replace
    ensures Footprint(Exec(fs, WorkOp(req, stage, raw), NoFault).0, req, raw, base)
  {
  }

  lemma OnlyReplaceRecords(req: Request, stage: Stage, raw: Content, r: Reply)
    requires Candidate(req, raw) && stage != Replace
    ensures !OnWork(req, stage, raw, r).Record?
  {
  }

  /** Before the replacement: the call works on, on its own footprint. */
  ghost predicate Working(req: Request, run: Run, raw: Content, base: set<Path>) {
    && Steady(req, run, raw) && OnTrack(req, run) && run.step.Work?
    && Footprint(run.fs, req, raw, base)
  }

  lemma WorkingOn(req: Request, run: Run, raw: Content, base: set<Path>)
    requires Working(req, run, raw, base) && run.step.stage != Replace
    ensures Working(req, StepAlone(req, run), raw, base)
  {
    SteadyStep(req, run, raw);
    CommitLeads(req, run, raw);
    OnlyReplaceRecords(req, run.step.stage, raw, Exec(run.fs, WorkOp(req, run.step.stage, raw), NoFault).1);
    FootprintKept(run.fs, req, run.step.stage, raw, base);
  }

  lemma ReachesNext(req: Request, run: Run, next: Run, k: nat, r: Run)
    requires WellFormedStep(req, run.step) && !run.step.Returned? && next == StepAlone(req, run)
    requires r == Reach(req, next, k)
    ensures r == Reach(req, run, k + 1)
  {
  }

  lemma {:induction false} ReachesReplace(req: Request, run: Run, raw: Content, base: set<Path>)
    returns (n: nat, r: Run)
    requires Working(req, run, raw, base)
    ensures r == Reach(req, run, n) && Working(req, r, raw, base) && r.step.stage == Replace
    decreases Rank(run.step)
  {
    if run.step.stage == Replace {
      n, r := 0, run;
    } else {
      var next := StepAlone(req, run);
      WorkingOn(req, run, raw, base);
      n, r := ReachesReplace(req, next, raw, base);
      ReachesNext(req, run, next, n, r);
      n := n + 1;
    }
  }

  /** A tree that is ready for a new turn: nothing of the call is there. */
  ghost predicate ReadyFor(fs: Fs, mem: Memory, req: Request, raw: Content, base: set<Path>) {
    && WellFormed(fs) && fs.dirs == SKELETON && fs.files.Keys <= base
    && LockJson !in base && LockDir !in base
    && ManifestJson in fs.files && fs.files[ManifestJson] == raw
    && Candidate(req, raw) && DigestOf(req) !in mem.accepted && base !! Own(req, raw)
  }

  lemma ReadyLetsThrough(fs: Fs, mem: Memory, req: Request, raw: Content, base: set<Path>)
    requires ReadyFor(fs, mem, req, raw, base)
    ensures LetsThrough(fs, mem, req, raw)
  {
  }

  /** The fourth step reads the manifest and starts the work. */
  lemma WorkStarts(fs: Fs, mem: Memory, req: Request, raw: Content, base: set<Path>)
    requires ReadyFor(fs, mem, req, raw, base)
    ensures var run := Acquired(req, fs, mem);
            run.step == ReadManifest && Working(req, StepAlone(req, run), raw, base)
  {
    ReadyLetsThrough(fs, mem, req, raw, base);
    RoomUnderLock(fs, mem, req, raw);
    var run := Acquired(req, fs, mem);
    LockTree(run.fs);
    assert Steady(req, run, raw) && OnTrack(req, run);
    ReadTrack(req, run, raw);
    SteadyStep(req, run, raw);
  }

  /** In the world the call is about to replace `raw`; the others are where they were. */
  ghost predicate AtReplace(w: World, w': World, req: Request, raw: Content, base: set<Path>) {
    && req.client in w'.clients && w'.clients[req.client].task == Handing(req, Work(Replace, raw))
    && Working(req, Run(w'.fs, w'.clients[req.client].mem, Work(Replace, raw)), raw, base)
    && w'.game == w.game && w'.issued.Keys <= w.issued.Keys + {req.op}
    && (forall c | c != req.client :: ClientOf(w', c) == ClientOf(w, c))
  }

  lemma WorkReachesReplace(fs: Fs, mem: Memory, req: Request, raw: Content, base: set<Path>)
    returns (n: nat, r: Run)
    requires ReadyFor(fs, mem, req, raw, base)
    ensures Acquired(req, fs, mem).step == ReadManifest && r == Reach(req, Acquired(req, fs, mem), n)
    ensures Working(req, r, raw, base) && r.step == Work(Replace, raw)
  {
    WorkStarts(fs, mem, req, raw, base);
    var run := Acquired(req, fs, mem);
    var next := StepAlone(req, run);
    n, r := ReachesReplace(req, next, raw, base);
    ReachesNext(req, run, next, n, r);
    n := n + 1;
  }

  lemma TurnReachesReplace(w: World, req: Request, raw: Content, base: set<Path>) returns (events: seq<Event>)
    requires ReadyFor(w.fs, ClientOf(w, req.client).mem, req, raw, base)
    requires req.game == w.game && req.op !in w.issued && Free(ClientOf(w, req.client).task)
    ensures IsRun(w, events) && Repairless(events) && AtReplace(w, Final(w, events), req, raw, base)
  {
    var mem := ClientOf(w, req.client).mem;
    var first := TakesLock(w, req);
    var w1 := Final(w, first);
    var n, r := WorkReachesReplace(w.fs, mem, req, raw, base);
    var second := CallGoes(w1, req, ReadManifest, n);
    NowAtReplace(w, w1, Final(w1, second), req, raw, base, Acquired(req, w.fs, mem), r);
    RunsJoin(w, first, second);
    events := first + second;
  }

  lemma NowAtReplace(w: World, w1: World, w2: World, req: Request, raw: Content, base: set<Path>, r1: Run, r2: Run)
    requires Gone(w, w1, req, r1) && Gone(w1, w2, req, r2)
    requires Working(req, r2, raw, base) && r2.step == Work(Replace, raw)
    ensures AtReplace(w, w2, req, raw, base)
  {
    assert r2 == Run(w2.fs, w2.clients[req.client].mem, Work(Replace, raw));
  }

  // ----- overtaken at the replacement -----

  /** This call has committed `raw`'s successor, and its manifest is the one installed. */
  ghost predicate HasCommitted(w: World, req: Request, raw: Content)
    requires Candidate(req, raw)
  {
    && req.client in w.clients && w.clients[req.client].task.Handing?
    && w.clients[req.client].task.req == req && HasResult(w.clients[req.client].task.step)
    && w.clients[req.client].task.step.result.outcome == Committed
    && Installed1(w.fs, req, raw)
  }

  /** From `w`, in an ordinary run, `d` commits a turn; then one step of `b` commits another
      in its place, with the same sequence number. */
  ghost predicate LosesAnUpdate(w: World, events: seq<Event>, b: Request, d: Request, raw: Content) {
    && Candidate(b, raw) && Candidate(d, raw) && IsRun(w, events) && Repairless(events)
    && Payload(b, raw) != Payload(d, raw)
    && NextManifest(b, raw).sequence == NextManifest(d, raw).sequence
    && var mid := Final(w, events);
       && HasCommitted(mid, d, raw) && Enabled(mid, Act(b.client, NoFault))
       && HasCommitted(Next(mid, Act(b.client, NoFault)), b, raw)
  }

  /** The lock is gone, but this call still stands at its replacement. */
  ghost predicate Unguarded(w: World, b: Request, raw: Content) {
    && WellFormed(w.fs) && Candidate(b, raw)
    && b.client in w.clients && w.clients[b.client].task == Handing(b, Work(Replace, raw))
    && ManifestJson in w.fs.files && w.fs.files[ManifestJson] == raw
    && TmpManifest(b.op) in w.fs.files && w.fs.files[TmpManifest(b.op)] == Payload(b, raw)
  }

  lemma UnguardedIsOvertaken(w: World, b: Request, d: Request, raw: Content) returns (events: seq<Event>)
    requires Unguarded(w, b, raw) && LetsThrough(w.fs, ClientOf(w, d.client).mem, d, raw)
    requires b.client != d.client && b.op != d.op
    requires d.game == w.game && d.op !in w.issued && Free(ClientOf(w, d.client).task)
    ensures LosesAnUpdate(w, events, b, d, raw)
  {
    var run := Run(w.fs, ClientOf(w, d.client).mem, AcqMkdir);
    var n := FinallyIsReached(d, run);
    events := CallStarts(w, d, n);
    OtherCommits(w.fs, run.mem, d, raw, b.op);
    DifferentTurns(b, d, raw);
    var mid := Final(w, events);
    assert ClientOf(mid, b.client) == ClientOf(w, b.client);
    BlindReplacement(mid, b, raw);
  }

  lemma BlindReplacement(w: World, b: Request, raw: Content)
    requires WellFormed(w.fs) && Candidate(b, raw) && ManifestJson in w.fs.files
    requires ClientOf(w, b.client).task == Handing(b, Work(Replace, raw))
    requires TmpManifest(b.op) in w.fs.files && w.fs.files[TmpManifest(b.op)] == Payload(b, raw)
    ensures Enabled(w, Act(b.client, NoFault)) && HasCommitted(Next(w, Act(b.client, NoFault)), b, raw)
  {
    ReplaceIsBlind(w.fs, b, raw);
  }

  /** Without the lock, the tree a working call leaves lets another call of the turn through. */
  lemma LeavesRoom(fs: Fs, b: Request, d: Request, mem: Memory, raw: Content, base: set<Path>)
    requires Candidate(b, raw) && Footprint(fs, b, raw, base) && Candidate(d, raw)
    requires DigestOf(d) !in mem.accepted && b.op != d.op && FinalPath(d, raw) != FinalPath(b, raw)
    requires base !! Own(d, raw) && LockDir !in base
    ensures LetsThrough(Fs(fs.dirs - {LockDir}, fs.files - {LockJson}), mem, d, raw)
  {
  }

  lemma UnlockedIsUnguarded(w: World, w': World, b: Request, raw: Content, base: set<Path>)
    requires AtReplace(w, w', b, raw, base) && Staged(w'.fs, b, raw)
    ensures Unguarded(Repaired(w'), b, raw)
  {
    RepairTree(w'.fs);
  }

  predicate Staged(fs: Fs, b: Request, raw: Content)
    requires Candidate(b, raw)
  {
    && ManifestJson in fs.files && fs.files[ManifestJson] == raw
    && TmpManifest(b.op) in fs.files && fs.files[TmpManifest(b.op)] == Payload(b, raw)
  }

  lemma WorkingIsStaged(req: Request, run: Run, raw: Content, base: set<Path>)
    requires Working(req, run, raw, base) && run.step == Work(Replace, raw)
    ensures Staged(run.fs, req, raw)
  {
  }

  // ----- the first window: between the check and the replacement -----

  /** A fresh match with its two first players. */
  predicate FreshMatch(cfg: Config, op: OperationId, a: Request) {
    && ValidConfig(cfg) && |cfg.players| >= 2 && ValidRequest(a) && a.game == cfg.game
    && a.player == cfg.players[0] && a.op != op
  }

  lemma CreatedIsReady(w: World, cfg: Config, op: OperationId, a: Request)
    requires FreshMatch(cfg, op, a) && JustCreated(w, a.client, cfg, op)
    ensures ReadyFor(w.fs, ClientOf(w, a.client).mem, a, ZeroPayload(cfg), {ManifestJson})
  {
    SkeletonIsWellFormed(w.fs, cfg);
    assert ParseManifest(ZeroPayload(cfg)) == Some(ZeroManifest(cfg));
  }

  /** A run to the state where the first player's call is about to replace the manifest. */
  lemma FirstTurnReachesReplace(cfg: Config, op: OperationId, a: Request) returns (events: seq<Event>, w: World)
    requires FreshMatch(cfg, op, a)
    ensures IsRun(Start(cfg.game), events) && Repairless(events)
    ensures JustCreated(w, a.client, cfg, op)
    ensures AtReplace(w, Final(Start(cfg.game), events), a, ZeroPayload(cfg), {ManifestJson})
  {
    var creation := CreationIsPossible(a.client, cfg, op);
    w := Final(Start(cfg.game), creation);
    CreatedIsReady(w, cfg, op, a);
    var turn := TurnReachesReplace(w, a, ZeroPayload(cfg), {ManifestJson});
    RunsJoin(Start(cfg.game), creation, turn);
    events := creation + turn;
  }

  /** The first window.  In every match, after an ordinary run `a` has checked its ownership
      and is about to replace the manifest; a repair then removes its lock; another instance
      of the same player takes the turn and commits; `a` goes on, its replacement succeeds,
      and the turn of `b`, the same sequence number, is lost. */
  lemma RepairInWindowLosesAnUpdate(cfg: Config, op: OperationId, a: Request, b: Request)
    returns (before: seq<Event>, after: seq<Event>)
    requires FreshMatch(cfg, op, a) && FreshMatch(cfg, op, b)
    requires a.client != b.client && a.op != b.op && (DigestOf(a).head != DigestOf(b).head || a.ext != b.ext)
    ensures IsRun(Start(cfg.game), before) && Repairless(before)
    ensures var w := Final(Start(cfg.game), before);
            && a.client in w.clients && w.clients[a.client].task == Handing(a, Work(Replace, ZeroPayload(cfg)))
            && LosesAnUpdate(Repaired(w), after, a, b, ZeroPayload(cfg))
  {
    var raw, base := ZeroPayload(cfg), {ManifestJson};
    var w0;
    before, w0 := FirstTurnReachesReplace(cfg, op, a);
    var w := Final(Start(cfg.game), before);
    WorkingIsStaged(a, Run(w.fs, w.clients[a.client].mem, Work(Replace, raw)), raw, base);
    UnlockedIsUnguarded(w0, w, a, raw, base);
    assert ParseManifest(raw) == Some(ZeroManifest(cfg));
    LeavesRoom(w.fs, a, b, EMPTY_MEMORY, raw, base);
    assert ClientOf(w, b.client) == ClientOf(w0, b.client);
    after := UnguardedIsOvertaken(Repaired(w), a, b, raw);
  }

  // ----- the second window: between the check and the removal of the lock -----

  lemma CommitStep(req: Request, run: Run, raw: Content)
    requires WellFormed(run.fs) && Candidate(req, raw) && run.step == Work(Replace, raw)
    requires Staged(run.fs, req, raw) && Holds(run.fs, req)
    ensures var r := StepAlone(req, run);
            && r.step.Record? && WellFormed(r.fs) && Holds(r.fs, req) && r.fs.dirs == run.fs.dirs
            && r.fs.files.Keys <= run.fs.files.Keys && Installed1(r.fs, req, raw)
  {
    ReplaceTrack(run.fs, req, raw);
    ExecKeepsWellFormed(run.fs, WorkOp(req, Replace, raw), NoFault);
    ReplaceMoves(run.fs, req, raw);
  }

  lemma ReplaceMoves(fs: Fs, req: Request, raw: Content)
    requires Candidate(req, raw) && ManifestJson in fs.files
    ensures var fs' := Exec(fs, WorkOp(req, Replace, raw), NoFault).0;
            fs'.dirs == fs.dirs && fs'.files.Keys <= fs.files.Keys && DocIn(fs') == DocIn(fs)
  {
  }

  lemma RecordStep(req: Request, run: Run) returns (r: Run)
    requires ValidRequest(req) && run.step.Record?
    ensures r == StepAlone(req, run) && r.fs == run.fs && r.step == RelList(run.step.result)
  {
    r := StepAlone(req, run);
  }

  /** The replacement, the record, and the release check: four steps to the removal. */
  lemma ReachesRelease(req: Request, run: Run, raw: Content) returns (r: Run)
    requires WellFormed(run.fs) && Candidate(req, raw) && run.step == Work(Replace, raw)
    requires Staged(run.fs, req, raw) && Holds(run.fs, req)
    ensures r == Reach(req, run, 4) && r.step.RelJson? && WellFormed(r.fs)
    ensures r.fs.dirs == run.fs.dirs && r.fs.files.Keys <= run.fs.files.Keys && Installed1(r.fs, req, raw)
  {
    CommitStep(req, run, raw);
    var r1 := StepAlone(req, run);
    var r2 := RecordStep(req, r1);
    r := ReleaseReached(req, r2);
    ReachesNext(req, r1, r2, 2, r);
    ReachesNext(req, run, r1, 3, r);
  }

  lemma ReleaseReached(req: Request, run: Run) returns (r: Run)
    requires WellFormed(run.fs) && ValidRequest(req) && Holds(run.fs, req) && run.step.RelList?
    ensures r == Reach(req, run, 2) && r.fs == run.fs && r.step.RelJson?
  {
    ReleaseGoes(req, run);
    var next := StepAlone(req, run);
    ReleaseGoes(req, next);
    r := StepAlone(req, next);
    ReachesNext(req, next, r, 0, r);
    ReachesNext(req, run, next, 1, r);
  }

  /** The release check finds the lock its own. */
  lemma ReleaseGoes(req: Request, run: Run)
    requires WellFormed(run.fs) && ValidRequest(req) && Holds(run.fs, req)
    requires run.step.RelList? || run.step.RelRead?
    ensures StepAlone(req, run) ==
              Run(run.fs, run.mem, if run.step.RelList? then RelRead(run.step.result) else RelJson(run.step.result))
  {
    LockTree(run.fs);
  }

  /** The removal takes whatever lock is there. */
  lemma RemovesAnyLock(req: Request, run: Run) returns (r: Run)
    requires WellFormed(run.fs) && ValidRequest(req) && run.step.RelJson?
    requires LockJson in run.fs.files && run.fs.dirs == SKELETON + {LockDir}
    ensures r == Reach(req, run, 2) && r.fs == Fs(run.fs.dirs - {LockDir}, run.fs.files - {LockJson})
  {
    LockTree(run.fs);
    var r1 := StepAlone(req, run);
    assert r1 == Run(run.fs.(files := run.fs.files - {LockJson}), run.mem, RelDir(run.step.result));
    forall q | q in r1.fs.dirs + r1.fs.files.Keys ensures Parent(q) != Some(LockDir) {
    }
    assert Children(r1.fs, LockDir) == {};
    r := StepAlone(req, r1);
    ReachesNext(req, r1, r, 0, r);
    ReachesNext(req, run, r1, 1, r);
  }

  /** A run to the state where the first player's call has checked the lock and is about to
      remove it. */
  lemma FirstTurnReachesRelease(cfg: Config, op: OperationId, a: Request)
    returns (events: seq<Event>, w0: World, result: HandoffResult)
    requires FreshMatch(cfg, op, a)
    ensures IsRun(Start(cfg.game), events) && Repairless(events) && JustCreated(w0, a.client, cfg, op)
    ensures var w := Final(Start(cfg.game), events);
            && AtRelease(w0, w, a, result) && Candidate(a, ZeroPayload(cfg))
            && WellFormed(w.fs) && w.fs.dirs == SKELETON + {LockDir}
            && w.fs.files.Keys <= {ManifestJson} + Own(a, ZeroPayload(cfg))
            && Installed1(w.fs, a, ZeroPayload(cfg))
  {
    var raw, base := ZeroPayload(cfg), {ManifestJson};
    var first;
    first, w0 := FirstTurnReachesReplace(cfg, op, a);
    var w1 := Final(Start(cfg.game), first);
    var run := Run(w1.fs, w1.clients[a.client].mem, Work(Replace, raw));
    WorkingIsStaged(a, run, raw, base);
    var r := ReachesRelease(a, run, raw);
    var second := CallGoes(w1, a, Work(Replace, raw), 4);
    RunsJoin(Start(cfg.game), first, second);
    events, result := first + second, r.step.result;
  }

  ghost predicate AtRelease(w0: World, w: World, a: Request, result: HandoffResult) {
    && a.client in w.clients && w.clients[a.client].task == Handing(a, RelJson(result))
    && w.game == w0.game && w.issued.Keys <= w0.issued.Keys + {a.op}
    && (forall c | c != a.client :: ClientOf(w, c) == ClientOf(w0, c))
  }

  /** The second player's request, after the first player's turn. */
  predicate SecondTurn(cfg: Config, op: OperationId, a: Request, b: Request) {
    && FreshMatch(cfg, op, a) && ValidRequest(b) && b.game == cfg.game && b.player == cfg.players[1]
    && b.op != op && b.op != a.op && b.client != a.client && DigestOf(b) != DigestOf(a)
  }

  lemma SecondIsCandidate(cfg: Config, op: OperationId, a: Request, b: Request)
    requires SecondTurn(cfg, op, a, b) && Candidate(a, ZeroPayload(cfg))
    ensures Candidate(b, Payload(a, ZeroPayload(cfg)))
    ensures SourceOf(Payload(a, ZeroPayload(cfg))).sequence == 1
  {
    assert ParseManifest(ZeroPayload(cfg)) == Some(ZeroManifest(cfg));
    FirstIndex(cfg.players);
  }

  lemma FirstIndex(players: seq<PlayerId>)
    requires |players| >= 2
    ensures NextPlayer(players, players[0]) == players[1]
  {
  }

  /** What the first turn leaves lets the second begin. */
  lemma SecondIsReady(fs: Fs, cfg: Config, op: OperationId, a: Request, b: Request)
    requires SecondTurn(cfg, op, a, b) && Candidate(a, ZeroPayload(cfg))
    requires WellFormed(fs) && fs.dirs == SKELETON && Installed1(fs, a, ZeroPayload(cfg))
    requires fs.files.Keys <= Left(a, ZeroPayload(cfg))
    ensures ReadyFor(fs, EMPTY_MEMORY, b, Payload(a, ZeroPayload(cfg)), Left(a, ZeroPayload(cfg)))
  {
    SecondIsCandidate(cfg, op, a, b);
    assert ParseManifest(ZeroPayload(cfg)) == Some(ZeroManifest(cfg));
  }

  function Left(req: Request, raw: Content): set<Path>
    requires Candidate(req, raw)
  {
    {ManifestJson} + Own(req, raw) - {LockJson}
  }

  /** The interrupted release takes the lock of the call that stands at its replacement. */
  lemma ReleaseUnguards(w0: World, w: World, a: Request, result: HandoffResult, b: Request, raw: Content,
                        base: set<Path>)
    returns (events: seq<Event>)
    requires AtReplace(w0, w, b, raw, base) && a.client != b.client && ValidRequest(a)
    requires ClientOf(w0, a.client).task == Handing(a, RelJson(result))
    ensures IsRun(w, events) && Repairless(events)
    ensures var w' := Final(w, events);
            && Unguarded(w', b, raw) && w'.fs == Repaired(w).fs
            && w'.game == w.game && w'.issued.Keys <= w.issued.Keys + {a.op}
            && (forall c | c != a.client :: ClientOf(w', c) == ClientOf(w, c))
  {
    assert ClientOf(w, a.client) == ClientOf(w0, a.client);
    WorkingIsStaged(b, Run(w.fs, w.clients[b.client].mem, Work(Replace, raw)), raw, base);
    UnlockedIsUnguarded(w0, w, b, raw, base);
    var r := RemovesAnyLock(a, Run(w.fs, w.clients[a.client].mem, RelJson(result)));
    events := CallGoes(w, a, RelJson(result), 2);
    var w' := Final(w, events);
    assert ClientOf(w', b.client) == ClientOf(w, b.client);
  }

  /** The second window.  In every match, after an ordinary run `a` has found the lock its
      own and is about to remove it; a repair then removes it; `b`, the next player, takes
      the lock; `a` goes on and removes that lock; another instance `d` of the next player
      commits; and the replacement of `b` loses that turn. */
  lemma RepairInReleaseLosesAnUpdate(cfg: Config, op: OperationId, a: Request, b: Request, d: Request)
    returns (before: seq<Event>, after: seq<Event>)
    requires SecondTurn(cfg, op, a, b) && SecondTurn(cfg, op, a, d)
    requires b.client != d.client && b.op != d.op && (DigestOf(b).head != DigestOf(d).head || b.ext != d.ext)
    ensures IsRun(Start(cfg.game), before) && Repairless(before) && Candidate(a, ZeroPayload(cfg))
    ensures var w := Final(Start(cfg.game), before);
            && a.client in w.clients && w.clients[a.client].task.Handing?
            && w.clients[a.client].task.req == a && w.clients[a.client].task.step.RelJson?
            && LosesAnUpdate(Repaired(w), after, b, d, Payload(a, ZeroPayload(cfg)))
  {
    var w0, result;
    before, w0, result := FirstTurnReachesRelease(cfg, op, a);
    after := OvertakenAfterRelease(cfg, op, w0, Final(Start(cfg.game), before), a, result, b, d);
  }

  lemma OvertakenAfterRelease(cfg: Config, op: OperationId, w0: World, w: World, a: Request,
                              result: HandoffResult, b: Request, d: Request)
    returns (events: seq<Event>)
    requires SecondTurn(cfg, op, a, b) && SecondTurn(cfg, op, a, d) && Candidate(a, ZeroPayload(cfg))
    requires b.client != d.client && b.op != d.op && (DigestOf(b).head != DigestOf(d).head || b.ext != d.ext)
    requires JustCreated(w0, a.client, cfg, op) && AtRelease(w0, w, a, result)
    requires WellFormed(w.fs) && w.fs.dirs == SKELETON + {LockDir} && Installed1(w.fs, a, ZeroPayload(cfg))
    requires w.fs.files.Keys <= {ManifestJson} + Own(a, ZeroPayload(cfg))
    ensures LosesAnUpdate(Repaired(w), events, b, d, Payload(a, ZeroPayload(cfg)))
  {
    var raw, base := Payload(a, ZeroPayload(cfg)), Left(a, ZeroPayload(cfg));
    var w1 := Repaired(w);
    RepairTree(w.fs);
    SecondIsReady(w1.fs, cfg, op, a, b);
    SecondIsReady(w1.fs, cfg, op, a, d);
    assert ClientOf(w1, b.client) == ClientOf(w0, b.client) && ClientOf(w1, d.client) == ClientOf(w0, d.client);
    events := OvertakenAfterRemoval(w1, a, result, b, d, raw, base);
  }

  lemma OvertakenAfterRemoval(w: World, a: Request, result: HandoffResult, b: Request, d: Request, raw: Content,
                              base: set<Path>)
    returns (events: seq<Event>)
    requires ReadyFor(w.fs, ClientOf(w, b.client).mem, b, raw, base)
    requires ReadyFor(w.fs, ClientOf(w, d.client).mem, d, raw, base)
    requires ClientOf(w, a.client).task == Handing(a, RelJson(result)) && ValidRequest(a)
    requires a.client != b.client && a.client != d.client && b.client != d.client
    requires b.op != d.op && a.op != d.op && b.op !in w.issued && d.op !in w.issued
    requires b.game == w.game == d.game && FinalPath(d, raw) != FinalPath(b, raw)
    requires Free(ClientOf(w, b.client).task) && Free(ClientOf(w, d.client).task)
    ensures LosesAnUpdate(w, events, b, d, raw)
  {
    var first := TurnReachesReplace(w, b, raw, base);
    var w2 := Final(w, first);
    var second := ReleaseUnguards(w, w2, a, result, b, raw, base);
    var w3 := Final(w2, second);
    LeavesRoom(w2.fs, b, d, ClientOf(w, d.client).mem, raw, base);
    assert ClientOf(w3, d.client) == ClientOf(w2, d.client) == ClientOf(w, d.client);
    var third := UnguardedIsOvertaken(w3, b, d, raw);
    LossStays(w2, second, third, b, d, raw);
    LossStays(w, first, second + third, b, d, raw);
    events := first + (second + third);
  }

  lemma LossStays(w: World, before: seq<Event>, events: seq<Event>, b: Request, d: Request, raw: Content)
    requires IsRun(w, before) && Repairless(before) && LosesAnUpdate(Final(w, before), events, b, d, raw)
    ensures LosesAnUpdate(w, before + events, b, d, raw)
  {
    RunsJoin(w, before, events);
  }
}
