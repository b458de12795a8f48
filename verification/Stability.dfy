/** What one client knows survives everything the other clients may do. */
module Stability {
  import opened Domain
  import opened Storage
  import opened HashClassify
  import opened Handoff
  import opened Initialize
  import opened Evidence
  import opened World
  import opened Invariant

  ghost predicate Blocks(w: World) {
    forall i: nat | i < |w.chain| :: BlockOk(w, i)
  }

  /** `w'.chain` starts with `w.chain`. */
  ghost predicate Longer(w: World, w': World) {
    |w.chain| <= |w'.chain| && w'.chain[..|w.chain|] == w.chain
  }

  lemma Kept(w: World, w': World, i: nat)
    requires Longer(w, w') && i < |w.chain|
    ensures w'.chain[i] == w.chain[i]
  {
    assert w'.chain[i] == w'.chain[..|w.chain|][i];
  }

  /** The accepted hash list only grows, at its end. */
  lemma {:induction false} HashesGrow(w: World, i: nat, j: nat)
    requires Blocks(w) && i <= j < |w.chain|
    ensures Parses(w.chain[i]) && Parses(w.chain[j])
    ensures ManifestOf(w.chain[i]).hashes <= ManifestOf(w.chain[j]).hashes
    decreases j
  {
    assert BlockOk(w, j) && BlockOk(w, i);
    if i < j {
      HashesGrow(w, i, j - 1);
    }
  }

  lemma AcceptedKept(w: World, w': World, d: Digest)
    requires Longer(w, w') && Blocks(w') && Accepted(w.chain, d)
    ensures Accepted(w'.chain, d)
  {
    var i := |w.chain| - 1;
    Kept(w, w', i);
    HashesGrow(w', i, |w'.chain| - 1);
  }

  lemma CommittedKept(w: World, w': World, c: ClientId, op: OperationId, d: Digest, source: nat)
    requires Longer(w, w') && CommittedTurn(w.chain, c, op, d, source)
    ensures CommittedTurn(w'.chain, c, op, d, source)
  {
    Kept(w, w', source + 1);
  }

  lemma InChainKept(w: World, w': World, m: Manifest)
    requires Longer(w, w') && InChain(w.chain, m)
    ensures InChain(w'.chain, m)
  {
    Kept(w, w', m.sequence);
  }

  ghost predicate IssuedKept(w: World, w': World) {
    forall op | op in w.issued :: op in w'.issued && w'.issued[op] == w.issued[op]
  }

  lemma MemoryKept(w: World, w': World, c: ClientId, mem: Memory)
    requires Longer(w, w') && Blocks(w') && IssuedKept(w, w') && MemoryOk(w, c, mem)
    ensures MemoryOk(w', c, mem)
  {
    forall d | d in mem.accepted + mem.processed ensures Accepted(w'.chain, d) {
      AcceptedKept(w, w', d);
    }
    if mem.pending.Some? {
      var r := mem.pending.value;
      CommittedKept(w, w', c, r.op, r.sha256, r.source);
    }
  }

  /** New blocks belong to another client. */
  ghost predicate OthersGrew(w: World, w': World, c: ClientId) {
    Longer(w, w') && forall i: nat | |w.chain| <= i < |w'.chain| :: w'.chain[i].client != c
  }

  lemma QuietKept(w: World, w': World, c: ClientId, began: nat)
    requires OthersGrew(w, w', c) && Quiet(w, c, began)
    ensures Quiet(w', c, began)
  {
    forall i: nat | began <= i < |w'.chain| ensures w'.chain[i].client != c {
      if i < |w.chain| { Kept(w, w', i); }
    }
  }

  lemma AdvancedKept(w: World, w': World, c: ClientId, began: nat, req: Request, m: Manifest)
    requires OthersGrew(w, w', c) && Advanced(w, c, began, req, m)
    ensures Advanced(w', c, began, req, m)
  {
    Kept(w, w', m.sequence);
    forall i: nat | began <= i < |w'.chain| && i != m.sequence ensures w'.chain[i].client != c {
      if i < |w.chain| { Kept(w, w', i); }
    }
  }

  lemma ResultKept(w: World, w': World, c: ClientId, began: nat, req: Request, r: HandoffResult)
    requires OthersGrew(w, w', c) && ResultOk(w, c, began, req, r)
    ensures ResultOk(w', c, began, req, r)
  {
    if r.changed {
      AdvancedKept(w, w', c, began, req, r.manifest.value);
      InChainKept(w, w', r.manifest.value);
    }
    if r.outcome == IdempotentAck {
      InChainKept(w, w', r.manifest.value);
    }
    if !(r.outcome in {Committed, IdempotentAck, TransportFailure, LockCleanupAmbiguous}) {
      QuietKept(w, w', c, began);
    }
  }

  /** Another client's step cannot make the lock name this request, nor stop it. */
  lemma HoldsKept(w: World, w': World, c: ClientId, req: Request)
    requires LockKept(w.fs, w'.fs, c) && req.client != c
    ensures Holds(w'.fs, req) <==> Holds(w.fs, req)
  {
  }

  lemma WorkKept(w: World, w': World, c: ClientId, req: Request, stage: Stage, raw: Content)
    requires Guarantee(w, w', c) && req.client != c && WorkOk(w, req, stage, raw)
    requires req.op in w.issued && w.issued[req.op].client == req.client
    ensures WorkOk(w', req, stage, raw)
  {
    HoldsKept(w, w', c, req);
    InChainKept(w, w', SourceOf(raw));
    Kept(w, w', SourceOf(raw).sequence);
    if w'.chain != w.chain {
      assert !Holds(w.fs, req);
    }
    assert Archived(FinalPath(req, raw)) && Archived(ArchivePath(raw));
  }

  lemma StepKept(w: World, w': World, c: ClientId, d: ClientId, began: nat, req: Request, s: Step)
    requires Guarantee(w, w', c) && c != d && Blocks(w')
    requires req.client == d && req.op in w.issued && w.issued[req.op] == IssueOf(req)
    requires StepOk(w, d, began, req, s)
    ensures StepOk(w', d, began, req, s)
  {
    assert OthersGrew(w, w', d);
    match s
    case Work(stage, raw) =>
      QuietKept(w, w', d, began);
      WorkKept(w, w', c, req, stage, raw);
    case Uncertain(_) =>
    case Record(r) =>
      ResultKept(w, w', d, began, req, r);
      AcceptedKept(w, w', DigestOf(req));
    case RelJson(r) =>
      ResultKept(w, w', d, began, req, r);
      HoldsKept(w, w', c, req);
    case RelList(r) => ResultKept(w, w', d, began, req, r);
    case RelRead(r) => ResultKept(w, w', d, began, req, r);
    case RelKind(r, _) => ResultKept(w, w', d, began, req, r);
    case RelDir(r) => ResultKept(w, w', d, began, req, r);
    case RelClear(r) => ResultKept(w, w', d, began, req, r);
    case Returned(r) => ResultKept(w, w', d, began, req, r);
    case _ => QuietKept(w, w', d, began);
  }

  /** An initializer that is still building is not overtaken by another block. */
  lemma InitKept(w: World, w': World, c: ClientId, d: ClientId, cfg: Config, op: OperationId, s: InitStep)
    requires Guarantee(w, w', c) && c != d && ValidConfig(cfg) && InitOk(w, d, cfg, op, s)
    requires op in w.issued && w.issued[op] == ForInit(d)
    requires Building(Creating(cfg, op, s)) && |w.chain| == 0 ==> w'.chain == w.chain
    ensures InitOk(w', d, cfg, op, s)
  {
    if |w.chain| > 0 { Kept(w, w', 0); }
  }

  lemma PhaseKept(w: World, w': World, c: ClientId, s: ReconcileStep)
    requires Longer(w, w') && Blocks(w') && IssuedKept(w, w') && PhaseOk(w, c, s)
    ensures PhaseOk(w', c, s)
  {
    match s
    case Recover =>
    case Reconciled =>
    case ClearRecovered(ev) => CommittedKept(w, w', c, ev.op, ev.sha256, ev.source);
    case ReadAgain(found, recs) =>
      MemoryKept(w, w', c, recs);
      if found.Some? { CommittedKept(w, w', c, found.value.op, found.value.sha256, found.value.source); }
    case ClearApplied(ev, recs) =>
      MemoryKept(w, w', c, recs);
      CommittedKept(w, w', c, ev.op, ev.sha256, ev.source);
    case Persist(recs) => MemoryKept(w, w', c, recs);
  }

  /** Rely: everything client `d` knows survives a step of client `c`. */
  lemma ClientKept(w: World, w': World, c: ClientId, d: ClientId, cl: Client)
    requires Guarantee(w, w', c) && c != d && Blocks(w') && ClientOk(w, d, cl)
    requires Building(cl.task) && |w.chain| == 0 ==> w'.chain == w.chain
    ensures ClientOk(w', d, cl)
  {
    MemoryKept(w, w', d, cl.mem);
    match cl.task
    case Idle =>
    case Handing(req, s) => StepKept(w, w', c, d, cl.began, req, s);
    case Creating(cfg, op, s) => InitKept(w, w', c, d, cfg, op, s);
    case Reconciling(pass, s) => PhaseKept(w, w', d, s);
  }
}
