/** The invariant holds in every reachable world. */
module Safety {
  import opened Domain
  import opened Storage
  import opened HashClassify
  import opened Handoff
  import opened Initialize
  import opened Evidence
  import opened World
  import opened Invariant
  import opened Stability
  import opened Commit
  import opened HandoffSafety

  /** What the acting client's step has to establish. */
  ghost predicate ActOk(w: World, w': World, c: ClientId) {
    && Guarantee(w, w', c) && ChainOk(w')
    && (w'.chain != w.chain && |w.chain| == 0 ==>
          Root in w.fs.dirs && Building(ClientOf(w, c).task))
    && c in w'.clients && ClientOk(w', c, w'.clients[c])
  }

  lemma TouchedKeeps(w: World, w': World, c: ClientId, op: Op, fault: Fault)
    requires ChainOk(w) && Harmless(w, c, op) && Touched(w, w', op, fault)
    ensures Guarantee(w, w', c) && ChainOk(w')
  {
    HarmlessGuarantee(w, w', c, op, fault);
    ChainKept(w, w', c);
  }

  lemma MemorySame(w: World, w': World, c: ClientId, mem: Memory)
    requires w'.chain == w.chain && w'.issued == w.issued && MemoryOk(w, c, mem)
    ensures MemoryOk(w', c, mem)
  {
  }

  // ----- handoff steps -----

  lemma EdgeIsHarmless(w: World, c: ClientId, began: nat, req: Request, s: Step)
    requires WellFormedStep(req, s) && StepOk(w, c, began, req, s) && req.client == c
    requires ActionOf(req, s).Remote? && !s.Work?
    ensures Harmless(w, c, ActionOf(req, s).op)
  {
  }

  lemma AcquireStep(w: World, w': World, c: ClientId, began: nat, req: Request, mem: Memory, s: Step, r: Reply)
    requires s.AcqMkdir? || s.AcqWrite? || s.ResList? || s.ResRead? || s.ResKind?
    requires WellFormedStep(req, s) && StepOk(w, c, began, req, s) && w'.chain == w.chain
    ensures StepOk(w', c, began, req, OnReply(req, mem, s, r))
  {
    assert Quiet(w', c, began);
  }

  lemma ReleaseStep(w: World, w': World, c: ClientId, began: nat, req: Request, mem: Memory, s: Step, fault: Fault)
    requires s.RelList? || s.RelRead? || s.RelKind? || s.RelJson? || s.RelDir?
    requires WellFormedStep(req, s) && StepOk(w, c, began, req, s) && fault != Corrupt
    requires Touched(w, w', ActionOf(req, s).op, fault)
    ensures StepOk(w', c, began, req, OnReply(req, mem, s, Exec(w.fs, ActionOf(req, s).op, fault).1))
  {
    ResultSame(w, w', c, began, req, s.result);
    var s' := OnReply(req, mem, s, Exec(w.fs, ActionOf(req, s).op, fault).1);
    if s.RelRead? && s'.RelJson? {
      assert Holds(w'.fs, req);
    } else {
      assert s'.Returned? || s'.RelRead? || s'.RelKind? || s'.RelDir? || s'.RelClear?;
      assert s'.result == s.result || s'.result == Ambiguous(s.result);
    }
  }

  /** Steps outside the work stages: acquiring, reading, releasing. */
  lemma EdgeStep(w: World, w': World, c: ClientId, began: nat, req: Request, mem: Memory, s: Step, fault: Fault)
    requires WellFormedStep(req, s) && StepOk(w, c, began, req, s) && ChainOk(w)
    requires req.client == c && req.game == w.game
    requires ActionOf(req, s).Remote? && !s.Work? && fault != Corrupt
    requires Touched(w, w', ActionOf(req, s).op, fault)
    ensures StepOk(w', c, began, req, OnReply(req, mem, s, Exec(w.fs, ActionOf(req, s).op, fault).1))
  {
    if s.ReadManifest? {
      OnManifestOk(w, w', c, began, req, mem, fault);
    } else if s.Uncertain? {
      OnUncertainOk(w, w', c, began, req, s.raw, fault);
    } else if s.RelList? || s.RelRead? || s.RelKind? || s.RelJson? || s.RelDir? {
      ReleaseStep(w, w', c, began, req, mem, s, fault);
    } else {
      AcquireStep(w, w', c, began, req, mem, s, Exec(w.fs, ActionOf(req, s).op, fault).1);
    }
  }

  lemma WorkStep(w: World, w': World, req: Request, stage: Stage, raw: Content, fault: Fault)
    requires WorkOk(w, req, stage, raw) && stage != Replace && fault != Corrupt
    requires req.op in w.issued && w.issued[req.op].client == req.client
    requires Touched(w, w', WorkOp(req, stage, raw), fault)
    ensures var s := OnWork(req, stage, raw, Exec(w.fs, WorkOp(req, stage, raw), fault).1);
            Gave(req, s) || (s.Work? && s.raw == raw && WorkOk(w', req, s.stage, raw))
  {
    var r := Exec(w.fs, WorkOp(req, stage, raw), fault).1;
    if Uploading(stage) {
      UploadStep(w, w', req, stage, raw, fault);
    } else if Archiving(stage) {
      ArchiveNext(req, stage, raw, r);
      ArchiveStep(w, w', req, stage, raw, fault, OnArchive(req, stage, raw, r));
    } else {
      CommitStep(w, w', req, stage, raw, fault);
    }
  }

  lemma WorkTouched(w: World, w': World, c: ClientId, began: nat, req: Request, stage: Stage, raw: Content,
                    fault: Fault)
    requires StepOk(w, c, began, req, Work(stage, raw)) && req.client == c && stage != Replace && fault != Corrupt
    requires Candidate(req, raw) && req.op in w.issued && w.issued[req.op].client == c
    requires Touched(w, w', WorkOp(req, stage, raw), fault)
    ensures Harmless(w, c, WorkOp(req, stage, raw))
    ensures StepOk(w', c, began, req, OnWork(req, stage, raw, Exec(w.fs, WorkOp(req, stage, raw), fault).1))
  {
    WorkIsHarmless(w, req, stage, raw);
    WorkStep(w, w', req, stage, raw, fault);
    var s' := OnWork(req, stage, raw, Exec(w.fs, WorkOp(req, stage, raw), fault).1);
    assert Quiet(w', c, began);
    if Gave(req, s') { GaveOk(w', c, began, req, s'); }
  }

  lemma HandingTouched(w: World, c: ClientId, fault: Fault)
    requires Inv(w) && c in w.clients && Enabled(w, Act(c, fault))
    requires w.clients[c].task.Handing? && NextAction(w.clients[c]).Remote?
    requires !(w.clients[c].task.step.Work? && w.clients[c].task.step.stage == Replace)
    ensures ActOk(w, AfterAct(w, c, fault), c)
  {
    var req, s := w.clients[c].task.req, w.clients[c].task.step;
    assert ClientOk(w, c, w.clients[c]);
    OnlyReplaceReplaces(req, s);
    RemoteTouches(w, c, req, s, fault);
    TouchedActs(w, AfterAct(w, c, fault), c, req, s, fault);
  }

  lemma OnlyReplaceReplaces(req: Request, s: Step)
    requires WellFormedStep(req, s) && ActionOf(req, s).Remote? && !(s.Work? && s.stage == Replace)
    ensures !ActionOf(req, s).op.AtomicReplace?
  {
  }

  lemma RemoteTouches(w: World, c: ClientId, req: Request, s: Step, fault: Fault)
    requires c in w.clients && w.clients[c].task == Handing(req, s) && Enabled(w, Act(c, fault))
    requires ActionOf(req, s).Remote? && !ActionOf(req, s).op.AtomicReplace?
    ensures var w' := AfterAct(w, c, fault);
            && Touched(w, w', ActionOf(req, s).op, fault) && c in w'.clients
            && w'.clients[c] == Reply1(w.clients[c], Exec(w.fs, ActionOf(req, s).op, fault).1)
  {
  }

  lemma TouchedActs(w: World, w': World, c: ClientId, req: Request, s: Step, fault: Fault)
    requires ChainOk(w) && c in w.clients && ClientOk(w, c, w.clients[c]) && fault != Corrupt
    requires w.clients[c].task == Handing(req, s) && ActionOf(req, s).Remote?
    requires !(s.Work? && s.stage == Replace)
    requires Touched(w, w', ActionOf(req, s).op, fault) && c in w'.clients
    requires w'.clients[c] == Reply1(w.clients[c], Exec(w.fs, ActionOf(req, s).op, fault).1)
    ensures ActOk(w, w', c)
  {
    StepTouched(w, w', c, req, s, fault);
    TouchedKeeps(w, w', c, ActionOf(req, s).op, fault);
  }

  lemma StepTouched(w: World, w': World, c: ClientId, req: Request, s: Step, fault: Fault)
    requires ChainOk(w) && c in w.clients && ClientOk(w, c, w.clients[c]) && fault != Corrupt
    requires w.clients[c].task == Handing(req, s) && ActionOf(req, s).Remote?
    requires !(s.Work? && s.stage == Replace)
    requires Touched(w, w', ActionOf(req, s).op, fault) && c in w'.clients
    requires w'.clients[c] == Reply1(w.clients[c], Exec(w.fs, ActionOf(req, s).op, fault).1)
    ensures Harmless(w, c, ActionOf(req, s).op) && ClientOk(w', c, w'.clients[c])
  {
    var cl := w.clients[c];
    if s.Work? {
      WorkTouched(w, w', c, cl.began, req, s.stage, s.raw, fault);
    } else {
      EdgeIsHarmless(w, c, cl.began, req, s);
      EdgeStep(w, w', c, cl.began, req, cl.mem, s, fault);
    }
    TouchedIsOk(w, w', c, req, s, w'.clients[c].task.step);
  }

  lemma TouchedIsOk(w: World, w': World, c: ClientId, req: Request, s: Step, s': Step)
    requires c in w.clients && ClientOk(w, c, w.clients[c]) && w.clients[c].task == Handing(req, s)
    requires w'.chain == w.chain && w'.issued == w.issued && w'.game == w.game
    requires c in w'.clients && w'.clients[c] == w.clients[c].(task := Handing(req, s'))
    requires WellFormedStep(req, s') && StepOk(w', c, w.clients[c].began, req, s')
    ensures ClientOk(w', c, w'.clients[c])
  {
    MemorySame(w, w', c, w.clients[c].mem);
  }

  /** A step that left the tree and the chain alone. */
  lemma StillKeeps(w: World, w': World, c: ClientId)
    requires ChainOk(w) && w'.fs == w.fs && w'.chain == w.chain && w'.game == w.game && w'.issued == w.issued
    ensures Guarantee(w, w', c) && ChainOk(w')
  {
    assert w'.chain[..|w.chain|] == w.chain;
    assert Guarantee(w, w', c);
    ChainKept(w, w', c);
  }

  lemma ReplaceMissed(w: World, w': World, c: ClientId, began: nat, req: Request, raw: Content, r: Reply)
    requires WorkOk(w, req, Replace, raw) && Quiet(w, c, began) && w'.chain == w.chain && r.Failed?
    ensures StepOk(w', c, began, req, OnWork(req, Replace, raw, r))
  {
    assert Quiet(w', c, began);
    var s' := OnCommit(req, Replace, raw, r);
    if Gave(req, s') { GaveOk(w', c, began, req, s'); }
  }

  lemma ReplaceDone(w: World, w': World, began: nat, req: Request, raw: Content, r: Reply)
    requires ChainOk(w) && WorkOk(w, req, Replace, raw) && Quiet(w, req.client, began) && began <= |w.chain|
    requires req.game == w.game && req.op in w.issued && w.issued[req.op] == IssueOf(req)
    requires Installed(w, w', req, raw) && w.fs.files[ManifestJson] == raw
    requires r == Ok || r == Failed(Transport)
    ensures Guarantee(w, w', req.client) && ChainOk(w')
    ensures StepOk(w', req.client, began, req, OnWork(req, Replace, raw, r))
  {
    InstalledGuarantee(w, w', req, raw);
    InstalledChainOk(w, w', req, raw);
    ReplaceRecorded(w, w', began, req, raw, r);
  }

  lemma ReplaceRecorded(w: World, w': World, began: nat, req: Request, raw: Content, r: Reply)
    requires ChainOk(w) && Candidate(req, raw) && Quiet(w, req.client, began) && began <= |w.chain|
    requires |w.chain| > 0 && w.chain[|w.chain| - 1].content == raw
    requires req.game == w.game && req.op in w.issued && w.issued[req.op] == IssueOf(req)
    requires Installed(w, w', req, raw) && (r == Ok || r == Failed(Transport))
    ensures StepOk(w', req.client, began, req, OnWork(req, Replace, raw, r))
  {
    NewBlock(w, w', req, raw);
    AdvancedHere(w, w', began, req, raw);
  }

  lemma HandingReplace(w: World, c: ClientId, fault: Fault)
    requires Inv(w) && c in w.clients && Enabled(w, Act(c, fault))
    requires w.clients[c].task.Handing? && w.clients[c].task.step.Work?
    requires w.clients[c].task.step.stage == Replace
    ensures ActOk(w, AfterAct(w, c, fault), c)
  {
    var cl := w.clients[c];
    var req, raw, w' := cl.task.req, cl.task.step.raw, AfterAct(w, c, fault);
    assert ClientOk(w, c, cl);
    ReplaceEffect(w, c, req, raw, fault);
    if w'.fs == w.fs {
      ReplaceFailed(w, c, fault);
    } else {
      ReplaceSucceeded(w, c, fault);
    }
  }

  lemma ReplaceSucceeded(w: World, c: ClientId, fault: Fault)
    requires Inv(w) && c in w.clients && Enabled(w, Act(c, fault))
    requires w.clients[c].task.Handing? && w.clients[c].task.step.Work?
    requires w.clients[c].task.step.stage == Replace
    requires var (req, raw) := (w.clients[c].task.req, w.clients[c].task.step.raw);
             && Candidate(req, raw) && Installed(w, AfterAct(w, c, fault), req, raw)
             && w.fs.files[ManifestJson] == raw
    requires var r := Exec(w.fs, NextAction(w.clients[c]).op, fault).1; r == Ok || r == Failed(Transport)
    ensures ActOk(w, AfterAct(w, c, fault), c)
  {
    var cl := w.clients[c];
    var req, raw, w' := cl.task.req, cl.task.step.raw, AfterAct(w, c, fault);
    assert ClientOk(w, c, cl);
    ReplaceDone(w, w', cl.began, req, raw, Exec(w.fs, WorkOp(req, Replace, raw), fault).1);
    MemoryKept(w, w', c, cl.mem);
  }

  lemma ReplaceFailed(w: World, c: ClientId, fault: Fault)
    requires Inv(w) && c in w.clients && Enabled(w, Act(c, fault))
    requires w.clients[c].task.Handing? && w.clients[c].task.step.Work?
    requires w.clients[c].task.step.stage == Replace && AfterAct(w, c, fault).fs == w.fs
    requires Exec(w.fs, NextAction(w.clients[c]).op, fault).1.Failed?
    ensures ActOk(w, AfterAct(w, c, fault), c)
  {
    var cl := w.clients[c];
    var req, raw, w' := cl.task.req, cl.task.step.raw, AfterAct(w, c, fault);
    assert ClientOk(w, c, cl);
    StillKeeps(w, w', c);
    MemorySame(w, w', c, cl.mem);
    ReplaceMissed(w, w', c, cl.began, req, raw, Exec(w.fs, WorkOp(req, Replace, raw), fault).1);
  }

  lemma LocalStep(w: World, w': World, c: ClientId, began: nat, req: Request, mem: Memory, s: Step)
    requires WellFormedStep(req, s) && StepOk(w, c, began, req, s) && MemoryOk(w, c, mem)
    requires ActionOf(req, s).Local? && req.client == c
    requires req.op in w.issued && w.issued[req.op] == IssueOf(req)
    requires w'.chain == w.chain && w'.issued == w.issued
    ensures var (mem', s') := OnLocal(req, mem, s);
            MemoryOk(w', c, mem') && StepOk(w', c, began, req, s')
  {
    match s
    case AcqBegin(_) => assert Quiet(w', c, began);
    case Record(r) => ResultSame(w, w', c, began, req, r);
    case RelClear(r) => ResultSame(w, w', c, began, req, r);
  }

  lemma HandingLocal(w: World, c: ClientId, fault: Fault)
    requires Inv(w) && c in w.clients && Enabled(w, Act(c, fault))
    requires w.clients[c].task.Handing? && NextAction(w.clients[c]).Local?
    ensures ActOk(w, AfterAct(w, c, fault), c)
  {
    var cl := w.clients[c];
    var w' := AfterAct(w, c, fault);
    assert ClientOk(w, c, cl);
    StillKeeps(w, w', c);
    LocalStep(w, w', c, cl.began, cl.task.req, cl.mem, cl.task.step);
  }

  // ----- initialization steps -----

  lemma InitIsHarmless(w: World, c: ClientId, cfg: Config, op: OperationId, s: InitStep)
    requires ValidConfig(cfg) && WellFormedInit(s) && !s.Finished? && s != Install
    requires op in w.issued && w.issued[op] == ForInit(c)
    ensures Harmless(w, c, InitOp(cfg, op, s))
  {
  }

  lemma InitTouched(w: World, w': World, c: ClientId, cfg: Config, op: OperationId, s: InitStep, fault: Fault)
    requires ChainOk(w) && ValidConfig(cfg) && cfg.game == w.game && WellFormedInit(s)
    requires !s.Finished? && s != Install && InitOk(w, c, cfg, op, s) && fault != Corrupt
    requires |w.chain| > 0 ==> Root in w.fs.dirs
    requires Touched(w, w', InitOp(cfg, op, s), fault)
    ensures InitOk(w', c, cfg, op, OnInitReply(cfg, s, Exec(w.fs, InitOp(cfg, op, s), fault).1))
  {
    if s == ClassifyUncertain || s == ClassifyExisting { InitClassified(w, w', c, cfg, op, s, fault); }
  }

  /** What is joined or recovered is the manifest of the chain that was read. */
  lemma InitClassified(w: World, w': World, c: ClientId, cfg: Config, op: OperationId, s: InitStep, fault: Fault)
    requires ChainOk(w) && ValidConfig(cfg) && cfg.game == w.game && fault != Corrupt
    requires (s == ClassifyUncertain || s == ClassifyExisting) && InitOk(w, c, cfg, op, s)
    requires w'.chain == w.chain
    ensures InitOk(w', c, cfg, op, OnInitReply(cfg, s, Exec(w.fs, Read(ManifestJson), fault).1))
  {
    match ReadOutcome(cfg.game, Exec(w.fs, Read(ManifestJson), fault).1)
    case ReadOk(m, raw) => ReadsLast(w, fault, m, raw);
    case _ =>
  }

  lemma InstallEffect(w: World, cfg: Config, op: OperationId, fault: Fault)
    requires ValidConfig(cfg) && fault != Corrupt
    requires TmpManifest(op) in w.fs.files ==> w.fs.files[TmpManifest(op)] == ZeroPayload(cfg)
    ensures var (fs', r) := Exec(w.fs, InitOp(cfg, op, Install), fault);
            || (fs' == w.fs && r.Failed?)
            || (&& fs' == w.fs.(files := (w.fs.files - {TmpManifest(op)})[ManifestJson := ZeroPayload(cfg)])
                && fs' != w.fs
                && (r == Ok || r == Failed(Transport)))
  {
    var fs' := Exec(w.fs, InitOp(cfg, op, Install), fault).0;
    if fault != Before && OpError(w.fs, InitOp(cfg, op, Install)).None? {
      assert TmpManifest(op) in w.fs.files && TmpManifest(op) !in fs'.files;
    }
  }

  lemma CreatingInstall(w: World, c: ClientId, fault: Fault)
    requires Inv(w) && c in w.clients && Enabled(w, Act(c, fault))
    requires w.clients[c].task.Creating? && w.clients[c].task.init == Install
    ensures ActOk(w, AfterAct(w, c, fault), c)
  {
    var cl := w.clients[c];
    var cfg, op, w' := cl.task.cfg, cl.task.op, AfterAct(w, c, fault);
    assert ClientOk(w, c, cl);
    InstallEffect(w, cfg, op, fault);
    if w'.fs == w.fs {
      StillKeeps(w, w', c);
      MemorySame(w, w', c, cl.mem);
    } else {
      assert w'.chain == [Block(ZeroPayload(cfg), c, op)];
      assert Created0(w, w', c, cfg, op);
      CreatedOk(w, w', c, cfg, op);
      MemoryKept(w, w', c, cl.mem);
    }
  }

  lemma CreatingTouched(w: World, c: ClientId, fault: Fault)
    requires Inv(w) && c in w.clients && Enabled(w, Act(c, fault))
    requires w.clients[c].task.Creating? && w.clients[c].task.init != Install
    ensures ActOk(w, AfterAct(w, c, fault), c)
  {
    var cl := w.clients[c];
    var cfg, op, s, w' := cl.task.cfg, cl.task.op, cl.task.init, AfterAct(w, c, fault);
    assert ClientOk(w, c, cl);
    InitIsHarmless(w, c, cfg, op, s);
    TouchedKeeps(w, w', c, InitOp(cfg, op, s), fault);
    InitTouched(w, w', c, cfg, op, s, fault);
    MemorySame(w, w', c, cl.mem);
  }

  /** Building starts only where the game root did not exist. */
  lemma BuildingStarts(w: World, c: ClientId, fault: Fault)
    requires Enabled(w, Act(c, fault)) && c in w.clients && !Building(w.clients[c].task)
    requires Building(AfterAct(w, c, fault).clients[c].task)
    ensures Root !in w.fs.dirs
  {
  }

  // ----- reconciliation steps -----

  /** A committed turn's hash is in every later manifest's list. */
  lemma CommittedAccepted(w: World, c: ClientId, op: OperationId, d: Digest, source: nat)
    requires Blocks(w) && CommittedTurn(w.chain, c, op, d, source)
    ensures Accepted(w.chain, d)
  {
    var i := source + 1;
    assert BlockOk(w, i);
    var m := ManifestOf(w.chain[i]);
    assert m.hashes[m.sequence - 1] == d;
    HashesGrow(w, i, |w.chain| - 1);
  }

  /** A chain manifest naming an operation was installed by that operation's client. */
  lemma NamedCommit(w: World, c: ClientId, op: OperationId, m: Manifest)
    requires Blocks(w) && InChain(w.chain, m) && m.lastOp == Some(op)
    requires op in w.issued && w.issued[op].client == c
    ensures m.sequence > 0 && m.save.Some?
    ensures CommittedTurn(w.chain, c, op, m.save.value.sha256, m.sequence - 1)
  {
    assert BlockOk(w, m.sequence);
  }

  lemma ApplyKeeps(w: World, c: ClientId, recs: Memory, ev: HandoffEvidence, seen: Option<Observation>)
    requires Blocks(w) && MemoryOk(w, c, recs) && EvidenceOk(w, c, ev) && Applies(recs, ev)
    ensures MemoryOk(w, c, ApplyEvidence(recs, ev, seen))
  {
    CommittedAccepted(w, c, ev.op, ev.sha256, ev.source);
  }

  lemma RecoverOk(w: World, c: ClientId, pass: Pass, mem: Memory, fault: Fault)
    requires ChainOk(w) && MemoryOk(w, c, mem) && mem.inProgress.Some? && fault != Corrupt
    requires pass.client == c && pass.game == w.game
    ensures PhaseOk(w, c, OnReconcileReply(pass, mem, Recover, Exec(w.fs, Read(ManifestJson), fault).1))
  {
    match ReadOutcome(pass.game, Exec(w.fs, Read(ManifestJson), fault).1)
    case ReadOk(m, raw) =>
      ReadsLast(w, fault, m, raw);
      var p := mem.inProgress.value;
      if m.lastOp == Some(p.op) { NamedCommit(w, c, p.op, m); }
    case _ =>
  }

  lemma ReadAgainOk(w: World, c: ClientId, pass: Pass, mem: Memory, s: ReconcileStep, r: Reply)
    requires MemoryOk(w, c, mem) && s.ReadAgain? && PhaseOk(w, c, s)
    ensures PhaseOk(w, c, OnReconcileReply(pass, mem, s, r))
  {
  }

  lemma PhaseSame(w: World, w': World, c: ClientId, s: ReconcileStep)
    requires w'.chain == w.chain && w'.issued == w.issued && PhaseOk(w, c, s)
    ensures PhaseOk(w', c, s)
  {
  }

  lemma ReconcilingRemote(w: World, c: ClientId, fault: Fault)
    requires Inv(w) && c in w.clients && Enabled(w, Act(c, fault))
    requires w.clients[c].task.Reconciling? && NextAction(w.clients[c]).Remote?
    ensures ActOk(w, AfterAct(w, c, fault), c)
  {
    var cl := w.clients[c];
    var pass, s, w' := cl.task.pass, cl.task.phase, AfterAct(w, c, fault);
    var r := Exec(w.fs, Read(ManifestJson), fault).1;
    assert ClientOk(w, c, cl);
    StillKeeps(w, w', c);
    MemorySame(w, w', c, cl.mem);
    if s.Recover? { RecoverOk(w, c, pass, cl.mem, fault); }
    else { ReadAgainOk(w, c, pass, cl.mem, s, r); }
    PhaseSame(w, w', c, OnReconcileReply(pass, cl.mem, s, r));
  }

  lemma ReconcileLocalOk(w: World, c: ClientId, pass: Pass, mem: Memory, s: ReconcileStep)
    requires Blocks(w) && MemoryOk(w, c, mem) && PhaseOk(w, c, s)
    requires WellFormedReconcile(mem, s) && ReconcileAction(s).Local?
    ensures var (mem', s') := OnReconcileLocal(pass, mem, s);
            MemoryOk(w, c, mem') && PhaseOk(w, c, s')
  {
    match s
    case ClearRecovered(ev) => ApplyKeeps(w, c, mem, ev, None);
    case ClearApplied(ev, recs) => ApplyKeeps(w, c, recs, ev, pass.seen);
    case Persist(recs) =>
  }

  lemma ReconcilingLocal(w: World, c: ClientId, fault: Fault)
    requires Inv(w) && c in w.clients && Enabled(w, Act(c, fault))
    requires w.clients[c].task.Reconciling? && NextAction(w.clients[c]).Local?
    ensures ActOk(w, AfterAct(w, c, fault), c)
  {
    var cl := w.clients[c];
    var w' := AfterAct(w, c, fault);
    assert ClientOk(w, c, cl);
    StillKeeps(w, w', c);
    ReconcileLocalOk(w, c, cl.task.pass, cl.mem, cl.task.phase);
    MemorySame(w, w', c, w'.clients[c].mem);
    PhaseSame(w, w', c, w'.clients[c].task.phase);
  }
}
