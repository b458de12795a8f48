/** Every run keeps the invariant, and what that means for the players. */
module Runs {
  import opened Domain
  import opened Storage
  import opened HashClassify
  import opened Handoff
  import opened Initialize
  import opened Evidence
  import opened World
  import opened Invariant
  import opened Stability
  import opened Commit
  import opened HandoffSafety
  import opened Safety

  // ----- the invariant over one event -----

  lemma OthersKept(w: World, w': World, c: ClientId)
    requires Inv(w) && Guarantee(w, w', c) && ChainOk(w')
    requires forall d | d in w.clients && d != c && Building(w.clients[d].task) && |w.chain| == 0 ::
               w'.chain == w.chain
    ensures forall d | d in w.clients && d != c :: ClientOk(w', d, w.clients[d])
  {
    forall d | d in w.clients && d != c ensures ClientOk(w', d, w.clients[d]) {
      ClientKept(w, w', c, d, w.clients[d]);
    }
  }

  lemma ActKeeps(w: World, c: ClientId, fault: Fault)
    requires Inv(w) && Enabled(w, Act(c, fault))
    ensures c in w.clients && ActOk(w, AfterAct(w, c, fault), c)
  {
    var cl := w.clients[c];
    match cl.task
    case Handing(req, s) =>
      if NextAction(cl).Local? { HandingLocal(w, c, fault); }
      else if s.Work? && s.stage == Replace { HandingReplace(w, c, fault); }
      else { HandingTouched(w, c, fault); }
    case Creating(cfg, op, s) =>
      if s == Install { CreatingInstall(w, c, fault); } else { CreatingTouched(w, c, fault); }
    case Reconciling(pass, s) =>
      if NextAction(cl).Local? { ReconcilingLocal(w, c, fault); } else { ReconcilingRemote(w, c, fault); }
  }

  lemma ActTree(w: World, c: ClientId, fault: Fault)
    requires Inv(w) && Enabled(w, Act(c, fault))
    ensures WellFormed(AfterAct(w, c, fault).fs)
  {
    if NextAction(ClientOf(w, c)).Remote? {
      ExecKeepsWellFormed(w.fs, NextAction(ClientOf(w, c)).op, fault);
    }
  }

  lemma ActBuilders(w: World, c: ClientId, fault: Fault)
    requires Inv(w) && Enabled(w, Act(c, fault)) && c in w.clients
    ensures OneBuilder(AfterAct(w, c, fault))
  {
    var w' := AfterAct(w, c, fault);
    if Building(w'.clients[c].task) && !Building(w.clients[c].task) {
      BuildingStarts(w, c, fault);
      forall d | d in w.clients ensures !Building(w.clients[d].task) {
        assert ClientOk(w, d, w.clients[d]);
      }
    }
  }

  lemma ActKeepsInv(w: World, c: ClientId, fault: Fault)
    requires Inv(w) && Enabled(w, Act(c, fault))
    ensures Inv(AfterAct(w, c, fault))
  {
    var w' := AfterAct(w, c, fault);
    ActKeeps(w, c, fault);
    ActTree(w, c, fault);
    ActBuilders(w, c, fault);
    OthersKept(w, w', c);
  }

  /** The start of a call: only the caller's task and the issued operations change. */
  lemma BeginKeeps(w: World, w': World, c: ClientId, cl: Client)
    requires Inv(w) && w' == Put(w, c, cl).(issued := w'.issued) && IssuedKept(w, w')
    requires w'.clients == w.clients[c := cl] && !Building(cl.task) && ClientOk(w', c, cl)
    ensures Inv(w')
  {
    assert w'.chain[..|w.chain|] == w.chain;
    assert Guarantee(w, w', c);
    ChainKept(w, w', c);
    OthersKept(w, w', c);
  }

  lemma MemoryGrown(w: World, w': World, c: ClientId, mem: Memory)
    requires w'.chain == w.chain && IssuedKept(w, w') && MemoryOk(w, c, mem)
    ensures MemoryOk(w', c, mem)
  {
  }

  lemma BeginMemory(w: World, c: ClientId)
    requires Inv(w)
    ensures MemoryOk(w, c, ClientOf(w, c).mem) && ClientOf(w, c).began <= |w.chain|
  {
    if c in w.clients { assert ClientOk(w, c, w.clients[c]); }
  }

  /** Evidence handed over by a returned call names a committed turn of this client. */
  lemma GivenEvidence(w: World, c: ClientId, pass: Pass)
    requires Inv(w) && Enabled(w, BeginReconcile(c, pass)) && pass.given.Some?
    ensures EvidenceOk(w, c, pass.given.value)
  {
    var t := ClientOf(w, c).task;
    assert ClientOk(w, c, w.clients[c]);
    var m := t.step.result.manifest.value;
    assert InChain(w.chain, m);
    NamedCommit(w, c, t.req.op, m);
  }

  lemma BeginHandoffKeeps(w: World, c: ClientId, req: Request)
    requires Inv(w) && Enabled(w, BeginHandoff(c, req))
    ensures Inv(Next(w, BeginHandoff(c, req)))
  {
    var w' := Next(w, BeginHandoff(c, req));
    BeginMemory(w, c);
    MemoryGrown(w, w', c, ClientOf(w, c).mem);
    assert Quiet(w', c, |w.chain|);
    BeginKeeps(w, w', c, w'.clients[c]);
  }

  lemma BeginInitKeeps(w: World, c: ClientId, cfg: Config, op: OperationId)
    requires Inv(w) && Enabled(w, BeginInit(c, cfg, op))
    ensures Inv(Next(w, BeginInit(c, cfg, op)))
  {
    var w' := Next(w, BeginInit(c, cfg, op));
    BeginMemory(w, c);
    MemoryGrown(w, w', c, ClientOf(w, c).mem);
    BeginKeeps(w, w', c, w'.clients[c]);
  }

  lemma BeginReconcileKeeps(w: World, c: ClientId, pass: Pass)
    requires Inv(w) && Enabled(w, BeginReconcile(c, pass))
    ensures Inv(Next(w, BeginReconcile(c, pass)))
  {
    var w' := Next(w, BeginReconcile(c, pass));
    BeginMemory(w, c);
    MemoryGrown(w, w', c, ClientOf(w, c).mem);
    if pass.given.Some? { GivenEvidence(w, c, pass); }
    BeginKeeps(w, w', c, w'.clients[c]);
  }

  lemma CrashKeeps(w: World, c: ClientId)
    requires Inv(w)
    ensures Inv(Next(w, Crash(c)))
  {
    var w' := Next(w, Crash(c));
    BeginMemory(w, c);
    MemoryGrown(w, w', c, ClientOf(w, c).mem);
    BeginKeeps(w, w', c, w'.clients[c]);
  }

  /** A change of the records between calls. */
  lemma RecordsKeep(w: World, e: Event)
    requires Inv(w) && Enabled(w, e) && (e.Associate? || e.MarkClose?)
    ensures Inv(Next(w, e))
  {
    var c, w' := e.who, Next(w, e);
    BeginMemory(w, c);
    MemoryGrown(w, w', c, ClientOf(w, c).mem);
    if c in w.clients { FreeTaskKept(w, w', c); }
    BeginKeeps(w, w', c, w'.clients[c]);
  }

  lemma FreeTaskKept(w: World, w': World, c: ClientId)
    requires Inv(w) && c in w.clients && Free(w.clients[c].task)
    requires w'.chain == w.chain && w'.issued == w.issued && w'.game == w.game && w'.fs == w.fs
    requires c in w'.clients && w'.clients[c].task == w.clients[c].task
    requires w'.clients[c].began == w.clients[c].began
    ensures WellFormedTask(w'.clients[c]) && TaskOk(w', c, w'.clients[c])
    ensures !Building(w'.clients[c].task)
  {
    assert ClientOk(w, c, w.clients[c]);
    if w.clients[c].task.Handing? {
      ResultSame(w, w', c, w.clients[c].began, w.clients[c].task.req, w.clients[c].task.step.result);
    }
  }

  /** A concurrent cleanup only ever removes temporary objects. */
  lemma CleanKeeps(w: World, p: Path)
    requires Inv(w) && Temporary(p)
    ensures Inv(Next(w, CleanTemporary(p)))
  {
    var w' := Next(w, CleanTemporary(p));
    assert w'.chain[..|w.chain|] == w.chain;
    CleanGuarantee(w, p, 0);
    ChainKept(w, w', 0);
    forall d | d in w.clients ensures ClientOk(w', d, w.clients[d]) {
      CleanGuarantee(w, p, d + 1);
      ClientKept(w, w', d + 1, d, w.clients[d]);
    }
  }

  /** Whoever is charged with it, a cleanup keeps what the others rely on. */
  lemma CleanGuarantee(w: World, p: Path, c: ClientId)
    requires Temporary(p)
    ensures Guarantee(w, Next(w, CleanTemporary(p)), c)
  {
    var w' := Next(w, CleanTemporary(p));
    assert w'.chain[..|w.chain|] == w.chain;
  }

  lemma RepairKept(w: World, c: ClientId)
    requires Inv(w) && Enabled(w, RepairLock) && c in w.clients
    ensures ClientOk(Next(w, RepairLock), c, w.clients[c])
  {
    var w' := Next(w, RepairLock);
    var cl := w.clients[c];
    assert ClientOk(w, c, cl) && !InWindow(cl.task);
    assert DocIn(w'.fs).None?;
    MemorySame(w, w', c, cl.mem);
    match cl.task
    case Handing(req, s) => RepairStepKept(w, w', c, cl.began, req, s);
    case Reconciling(_, s) => PhaseSame(w, w', c, s);
    case _ =>
  }

  lemma RepairStepKept(w: World, w': World, c: ClientId, began: nat, req: Request, s: Step)
    requires StepOk(w, c, began, req, s) && WellFormedStep(req, s) && !InWindow(Handing(req, s))
    requires w' == w.(fs := w'.fs) && DocIn(w'.fs).None?
    requires w'.fs.files == w.fs.files - {LockJson}
    ensures StepOk(w', c, began, req, s)
  {
    match s
    case Work(stage, raw) =>
      assert Quiet(w', c, began);
      assert WorkOk(w', req, stage, raw);
    case Uncertain(_) =>
    case Record(r) => ResultSame(w, w', c, began, req, r);
    case RelList(r) => ResultSame(w, w', c, began, req, r);
    case RelRead(r) => ResultSame(w, w', c, began, req, r);
    case RelKind(r, _) => ResultSame(w, w', c, began, req, r);
    case RelDir(r) => ResultSame(w, w', c, began, req, r);
    case RelClear(r) => ResultSame(w, w', c, began, req, r);
    case Returned(r) => ResultSame(w, w', c, began, req, r);
    case RelJson(_) =>
    case _ => assert Quiet(w', c, began);
  }

  lemma RepairTree(fs: Fs)
    requires WellFormed(fs) && LockJson !in fs.dirs
    ensures WellFormed(Fs(fs.dirs - {LockDir}, fs.files - {LockJson}))
  {
    forall p | p in fs.dirs + fs.files.Keys && Parent(p) == Some(LockDir) ensures p == LockJson {
    }
  }

  lemma RepairChain(w: World)
    requires ChainOk(w)
    ensures ChainOk(w.(fs := Fs(w.fs.dirs - {LockDir}, w.fs.files - {LockJson})))
  {
    var w' := w.(fs := Fs(w.fs.dirs - {LockDir}, w.fs.files - {LockJson}));
    forall i: nat | i < |w'.chain| ensures BlockOk(w', i) {
      assert BlockOk(w, i);
    }
    forall i: nat | 0 < i < |w'.chain| ensures ArchiveOk(w', i) {
      assert BlockOk(w, i) && ArchiveOk(w, i);
    }
  }

  lemma RepairKeeps(w: World)
    requires Inv(w) && Enabled(w, RepairLock)
    ensures Inv(Next(w, RepairLock))
  {
    var w' := Next(w, RepairLock);
    forall c | c in w.clients ensures ClientOk(w', c, w.clients[c]) {
      RepairKept(w, c);
    }
    RepairTree(w.fs);
    RepairChain(w);
  }

  lemma EventKeepsInv(w: World, e: Event)
    requires Inv(w) && Enabled(w, e)
    ensures Inv(Next(w, e))
  {
    match e
    case Act(c, fault) => ActKeepsInv(w, c, fault);
    case CleanTemporary(p) => CleanKeeps(w, p);
    case RepairLock => RepairKeeps(w);
    case BeginHandoff(c, req) => BeginHandoffKeeps(w, c, req);
    case BeginInit(c, cfg, op) => BeginInitKeeps(w, c, cfg, op);
    case BeginReconcile(c, pass) => BeginReconcileKeeps(w, c, pass);
    case Crash(c) => CrashKeeps(w, c);
    case Associate(c, a) => RecordsKeep(w, e);
    case MarkClose(c) => RecordsKeep(w, e);
  }

  // ----- every run -----

  lemma {:induction false} RunKeepsInv(w: World, events: seq<Event>)
    requires Inv(w) && IsRun(w, events)
    ensures Inv(Final(w, events))
    decreases |events|
  {
    if events != [] {
      EventKeepsInv(w, events[0]);
      RunKeepsInv(Next(w, events[0]), events[1..]);
    }
  }

  lemma ReachableInv(w: World)
    requires Reachable(w)
    ensures Inv(w)
  {
    var game, events :| IsRun(Start(game), events) && Final(Start(game), events) == w;
    RunKeepsInv(Start(game), events);
  }
}
