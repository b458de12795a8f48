/** Committing calls exist: a fresh match, created and then handed off by its first player,
    reaches the state the crash theorem starts from. */
module Possible {
  import opened Domain
  import opened Storage
  import opened Handoff
  import opened Initialize
  import opened World
  import opened Invariant
  import opened NoRepair
  import opened Alone
  import opened Resume
  import opened CrashAnywhere
  import opened Faults
  import FS = FakeStorage
  import opened InitCall
  import opened CallSafety

  lemma {:induction false} RunsJoin(w: World, first: seq<Event>, second: seq<Event>)
    requires IsRun(w, first) && IsRun(Final(w, first), second)
    ensures IsRun(w, first + second) && Final(w, first + second) == Final(Final(w, first), second)
    decreases |first|
  {
    if first == [] {
      assert first + second == second;
    } else {
      assert (first + second)[1..] == first[1..] + second;
      RunsJoin(Next(w, first[0]), first[1..], second);
    }
  }

  lemma {:induction false} InitActsRepairNothing(c: ClientId, cfg: Config, op: OperationId,
                                                 caps: FS.Capabilities, remote: FS.Remote, s: InitStep)
    requires ValidConfig(cfg) && WellFormedInit(s) && Counted(remote.schedule.counts)
    ensures Repairless(InitActs(c, cfg, op, caps, remote, s))
    decreases InitRank(s)
  {
    if !s.Finished? {
      var (remote', r) := FS.Respond(caps, remote, InitOp(cfg, op, s));
      InitProgress(cfg, s, r);
      InitActsRepairNothing(c, cfg, op, caps, remote', OnInitReply(cfg, s, r));
    }
  }

  /** The world right after the match was created, by its only client so far. */
  ghost predicate JustCreated(w: World, c: ClientId, cfg: Config, op: OperationId) {
    && ValidConfig(cfg) && w.game == cfg.game && w.clients.Keys == {c} && w.clients[c].mem == EMPTY_MEMORY
    && Free(w.clients[c].task) && w.issued == map[op := ForInit(c)]
    && w.fs == Fs(SKELETON, map[ManifestJson := ZeroPayload(cfg)])
  }

  lemma {:induction false} RunsKeepMemory(w: World, c: ClientId, events: seq<Event>)
    requires IsRun(w, events) && c in w.clients && w.clients[c].task.Creating?
    requires forall e | e in events :: e.Act? && e.who == c
    ensures var last := Final(w, events);
            && last.clients.Keys == w.clients.Keys && last.clients[c].mem == w.clients[c].mem
            && last.issued == w.issued && last.game == w.game
    decreases |events|
  {
    if events != [] {
      assert events[0] in events;
      assert forall e | e in events[1..] :: e in events;
      RunsKeepMemory(Next(w, events[0]), c, events[1..]);
    }
  }

  lemma {:induction false} InitActsAreOwn(c: ClientId, cfg: Config, op: OperationId,
                                          caps: FS.Capabilities, remote: FS.Remote, s: InitStep)
    requires ValidConfig(cfg) && WellFormedInit(s) && Counted(remote.schedule.counts)
    ensures forall e | e in InitActs(c, cfg, op, caps, remote, s) :: e.Act? && e.who == c
    decreases InitRank(s)
  {
    if !s.Finished? {
      var (remote', r) := FS.Respond(caps, remote, InitOp(cfg, op, s));
      InitProgress(cfg, s, r);
      InitActsAreOwn(c, cfg, op, caps, remote', OnInitReply(cfg, s, r));
    }
  }

  lemma CreationIsPossible(c: ClientId, cfg: Config, op: OperationId) returns (events: seq<Event>)
    requires ValidConfig(cfg)
    ensures IsRun(Start(cfg.game), events) && Repairless(events)
    ensures JustCreated(Final(Start(cfg.game), events), c, cfg, op)
  {
    var w0, begin := Start(cfg.game), BeginInit(c, cfg, op);
    var w1 := Next(w0, begin);
    var caps := FS.Capabilities(true, true, true, true);
    var remote := FS.Remote(Fs({}, map[]), Schedule([], [], NO_CALLS));
    NoCallsAreCounted();
    var acts := InitActs(c, cfg, op, caps, remote, MakeRoot);
    InitializationIsARun(w1, c, cfg, op, caps, remote, MakeRoot);
    InitActsRepairNothing(c, cfg, op, caps, remote, MakeRoot);
    InitActsAreOwn(c, cfg, op, caps, remote, MakeRoot);
    RunsKeepMemory(w1, c, acts);
    FreshTreeIsInitialized(cfg, op, caps, remote);
    events := [begin] + acts;
    assert events[1..] == acts;
  }

  // ----- a call, step by step, in the world -----

  /** The call after `n` undisturbed steps, or where it returned. */
  function Reach(req: Request, run: Run, n: nat): (r: Run)
    requires WellFormedStep(req, run.step)
    ensures WellFormedStep(req, r.step)
    decreases n
  {
    if n == 0 || run.step.Returned? then run else Reach(req, StepAlone(req, run), n - 1)
  }

  lemma {:induction false} FinallyIsReached(req: Request, run: Run) returns (n: nat)
    requires WellFormedStep(req, run.step)
    ensures Reach(req, run, n) == Finally(req, run)
    decreases Rank(run.step)
  {
    if run.step.Returned? {
      n := 0;
    } else {
      var k := FinallyIsReached(req, StepAlone(req, run));
      n := k + 1;
    }
  }

  /** In the world the call stands at `r`, and nobody else has moved. */
  ghost predicate Gone(w: World, w': World, req: Request, r: Run) {
    && req.client in w'.clients && w'.clients[req.client].task == Handing(req, r.step)
    && w'.clients[req.client].mem == r.mem && w'.fs == r.fs && w'.game == w.game
    && (forall c | c != req.client :: ClientOf(w', c) == ClientOf(w, c))
    && w'.issued.Keys <= w.issued.Keys + {req.op}
  }

  /** One undisturbed step of a handoff, as an event of the world. */
  lemma OneAct(w: World, req: Request, s: Step)
    requires req.client in w.clients && w.clients[req.client].task == Handing(req, s)
    requires WellFormedStep(req, s) && !s.Returned?
    ensures Enabled(w, Act(req.client, NoFault))
    ensures Gone(w, Next(w, Act(req.client, NoFault)), req, StepAlone(req, Run(w.fs, w.clients[req.client].mem, s)))
  {
  }

  lemma {:induction false} CallGoes(w: World, req: Request, s: Step, n: nat) returns (events: seq<Event>)
    requires req.client in w.clients && w.clients[req.client].task == Handing(req, s) && WellFormedStep(req, s)
    ensures IsRun(w, events) && Repairless(events)
    ensures Gone(w, Final(w, events), req, Reach(req, Run(w.fs, w.clients[req.client].mem, s), n))
    decreases n
  {
    events := [];
    if n > 0 && !s.Returned? {
      var e := Act(req.client, NoFault);
      OneAct(w, req, s);
      var next := StepAlone(req, Run(w.fs, w.clients[req.client].mem, s));
      var rest := CallGoes(Next(w, e), req, next.step, n - 1);
      events := [e] + rest;
      assert events[1..] == rest;
    }
  }

  lemma CallStarts(w: World, req: Request, n: nat) returns (events: seq<Event>)
    requires ValidRequest(req) && req.game == w.game && req.op !in w.issued
    requires Free(ClientOf(w, req.client).task)
    ensures IsRun(w, events) && Repairless(events)
    ensures Gone(w, Final(w, events), req, Reach(req, Run(w.fs, ClientOf(w, req.client).mem, AcqMkdir), n))
  {
    var begin := BeginHandoff(req.client, req);
    var w1 := Next(w, begin);
    var rest := CallGoes(w1, req, AcqMkdir, n);
    events := [begin] + rest;
    assert events[1..] == rest;
  }

  // ----- a turn on a free lock -----

  /** The first three steps take a free lock. */
  lemma LockIsTaken(fs: Fs, mem: Memory, req: Request)
    requires WellFormed(fs) && ValidRequest(req) && LocksDir in fs.dirs
    requires LockDir !in fs.dirs && LockDir !in fs.files
    ensures var r1 := StepAlone(req, Run(fs, mem, AcqMkdir));
            && r1 == Run(fs.(dirs := fs.dirs + {LockDir}), mem, AcqWrite)
            && var r2 := StepAlone(req, r1);
               && r2 == Run(Acquired(req, fs, mem).fs, mem, AcqBegin(true))
               && StepAlone(req, r2) == Acquired(req, fs, mem)
  {
    assert LocksDir in fs.dirs + fs.files.Keys;
    assert LockJson in fs.dirs + fs.files.Keys ==> LockDir in fs.dirs;
  }

  lemma ReachesLock(fs: Fs, mem: Memory, req: Request)
    requires WellFormed(fs) && ValidRequest(req) && LocksDir in fs.dirs
    requires LockDir !in fs.dirs && LockDir !in fs.files
    ensures Reach(req, Run(fs, mem, AcqMkdir), 3) == Acquired(req, fs, mem)
  {
    LockIsTaken(fs, mem, req);
    var r1 := StepAlone(req, Run(fs, mem, AcqMkdir));
    var r2 := StepAlone(req, r1);
    assert Reach(req, StepAlone(req, r2), 0) == Acquired(req, fs, mem);
    assert Reach(req, r2, 1) == Acquired(req, fs, mem) && Reach(req, r1, 2) == Acquired(req, fs, mem);
  }

  lemma TakesLock(w: World, req: Request) returns (events: seq<Event>)
    requires WellFormed(w.fs) && LocksDir in w.fs.dirs && LockDir !in w.fs.dirs && LockDir !in w.fs.files
    requires ValidRequest(req) && req.game == w.game && req.op !in w.issued
    requires Free(ClientOf(w, req.client).task)
    ensures IsRun(w, events) && Repairless(events)
    ensures Gone(w, Final(w, events), req, Acquired(req, w.fs, ClientOf(w, req.client).mem))
  {
    ReachesLock(w.fs, ClientOf(w, req.client).mem, req);
    events := CallStarts(w, req, 3);
  }

  lemma SkeletonIsWellFormed(fs: Fs, cfg: Config)
    requires ValidConfig(cfg) && fs == Fs(SKELETON, map[ManifestJson := ZeroPayload(cfg)])
    ensures WellFormed(fs)
  {
  }

  /** For every match of two players or more and every first save, a run without repair
      reaches a call that has taken the lock and will commit if left alone. */
  lemma CommitIsPossible(cfg: Config, op: OperationId, req: Request) returns (events: seq<Event>)
    requires ValidConfig(cfg) && |cfg.players| >= 2 && op != req.op
    requires ValidRequest(req) && req.game == cfg.game && req.player == cfg.players[0]
    ensures IsRun(Start(cfg.game), events) && Repairless(events)
    ensures var w := Final(Start(cfg.game), events);
            WouldCommit(w, req) && AtLeastTwoPlayers(w.fs)
  {
    var creation := CreationIsPossible(req.client, cfg, op);
    var w0 := Final(Start(cfg.game), creation);
    SkeletonIsWellFormed(w0.fs, cfg);
    var turn := TakesLock(w0, req);
    RunsJoin(Start(cfg.game), creation, turn);
    events := creation + turn;
    TurnWouldCommit(w0.fs, cfg, req);
  }

  lemma TurnWouldCommit(fs: Fs, cfg: Config, req: Request)
    requires ValidConfig(cfg) && ValidRequest(req) && req.game == cfg.game && req.player == cfg.players[0]
    requires fs == Fs(SKELETON, map[ManifestJson := ZeroPayload(cfg)])
    ensures var a := Acquired(req, fs, EMPTY_MEMORY);
            && Holds(a.fs, req) && Journalled(a.mem, req) && a.step == ReadManifest
            && a.fs.files[ManifestJson] == ZeroPayload(cfg)
            && Finally(req, a).step.result.outcome == Committed
  {
    var a := Acquired(req, fs, EMPTY_MEMORY);
    LockedSkeletonIsWellFormed(a.fs, cfg, req);
    LockedSkeletonHasRoom(a.fs, cfg, req);
    assert a.mem.accepted == {};
    CommitsFromRead(req, a.fs, a.mem);
  }

  lemma LockedSkeletonIsWellFormed(fs: Fs, cfg: Config, req: Request)
    requires ValidConfig(cfg)
    requires fs.dirs == SKELETON + {LockDir}
    requires fs.files == map[ManifestJson := ZeroPayload(cfg)][LockJson := LockBytes(LockDoc(req))]
    ensures WellFormed(fs) && Holds(fs, req) && ManifestJson in fs.files
  {
  }

  lemma LockedSkeletonHasRoom(fs: Fs, cfg: Config, req: Request)
    requires ValidConfig(cfg) && ValidRequest(req) && req.game == cfg.game && req.player == cfg.players[0]
    requires fs.dirs == SKELETON + {LockDir}
    requires fs.files == map[ManifestJson := ZeroPayload(cfg)][LockJson := LockBytes(LockDoc(req))]
    ensures Candidate(req, ZeroPayload(cfg)) && WorkLeft(fs, req, UpCompare, ZeroPayload(cfg))
  {
    assert ParseManifest(ZeroPayload(cfg)) == Some(ZeroManifest(cfg));
  }
}
