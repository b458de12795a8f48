/** The invariant of every run, with faults, crashes, cleanup and operator repair. */
module Invariant {
  import opened Domain
  import opened Storage
  import opened HashClassify
  import opened Handoff
  import opened Initialize
  import opened Evidence
  import opened World

  // ----- reading the state -----

  /** The document in `lock.json`, when there is a readable one. */
  function DocIn(fs: Fs): Option<LockDocument> {
    if LockJson in fs.files then ParseLock(fs.files[LockJson]) else None
  }

  /** The lock names exactly this request. */
  predicate Holds(fs: Fs, req: Request) {
    DocIn(fs).Some? && OwnedBy(DocIn(fs).value, req)
  }

  predicate Stored(fs: Fs, p: Path, fp: Fingerprint) {
    p in fs.files && FINGERPRINT(fs.files[p]) == fp
  }

  predicate Parses(b: Block) {
    ParseManifest(b.content).Some?
  }

  function ManifestOf(b: Block): Manifest
    requires Parses(b)
  {
    ParseManifest(b.content).value
  }

  predicate InChain(chain: seq<Block>, m: Manifest) {
    m.sequence < |chain| && ParseManifest(chain[m.sequence].content) == Some(m)
  }

  /** The hash is in the list of the last installed manifest. */
  predicate Accepted(chain: seq<Block>, d: Digest) {
    |chain| > 0 && Parses(chain[|chain| - 1]) && d in ManifestOf(chain[|chain| - 1]).hashes
  }

  /** Turn `source` was committed by this client under this operation with this hash. */
  predicate CommittedTurn(chain: seq<Block>, c: ClientId, op: OperationId, d: Digest, source: nat) {
    source + 1 < |chain|
    && var b := chain[source + 1];
       && b.client == c && b.op == op && Parses(b)
       && ManifestOf(b).save.Some? && ManifestOf(b).save.value.sha256 == d
  }

  // ----- the chain and its archive -----

  /** `b` advances `prev` by exactly one turn of the current player. */
  ghost predicate Linked(prev: Block, b: Block, issued: map<OperationId, Issue>)
    requires Parses(prev) && Parses(b)
  {
    var p, m := ManifestOf(prev), ManifestOf(b);
    && m.save.Some? && m.lastSender == Some(p.current) && m.lastOp == Some(b.op)
    && m.hashes == p.hashes + [m.save.value.sha256]
    && m.save.value.path == SavePath(m.sequence, m.save.value.sha256.head, m.save.value.path.ext)
    && m.previous == Some(ArchivePath(prev.content))
    && b.op in issued && issued[b.op] == ForHandoff(b.client, p.current, m.save.value.sha256)
  }

  ghost predicate BlockOk(w: World, i: nat)
    requires i < |w.chain|
  {
    && Parses(w.chain[i]) && Parses(w.chain[0])
    && var m, zero := ManifestOf(w.chain[i]), ManifestOf(w.chain[0]);
       && m.sequence == i && m.gameId == w.game
       && m.players == zero.players && m.current == zero.players[i % |zero.players|]
       && (i > 0 ==> Parses(w.chain[i - 1]) && Linked(w.chain[i - 1], w.chain[i], w.issued))
  }

  /** The block's save, and the manifest it replaced, are stored under their names. */
  ghost predicate ArchiveOk(w: World, i: nat)
    requires 0 < i < |w.chain| && BlockOk(w, i)
  {
    var s := ManifestOf(w.chain[i]).save.value;
    && Stored(w.fs, s.path, Fingerprint(s.sha256, s.size))
    && Stored(w.fs, ArchivePath(w.chain[i - 1].content), FINGERPRINT(w.chain[i - 1].content))
  }

  ghost predicate ChainOk(w: World) {
    && (forall i: nat | i < |w.chain| :: BlockOk(w, i))
    && (forall i: nat | 0 < i < |w.chain| :: ArchiveOk(w, i))
    && (ManifestJson in w.fs.files <==> |w.chain| > 0)
    && (|w.chain| > 0 ==> w.fs.files[ManifestJson] == w.chain[|w.chain| - 1].content)
  }

  // ----- one client -----

  ghost predicate MemoryOk(w: World, c: ClientId, mem: Memory) {
    && (forall d | d in mem.accepted + mem.processed :: Accepted(w.chain, d))
    && (mem.inProgress.Some? ==>
          var p := mem.inProgress.value;
          && p.client == c && p.sha256 in mem.attempted
          && p.op in w.issued && w.issued[p.op] == ForHandoff(c, p.player, p.sha256))
    && (mem.pending.Some? ==>
          var r := mem.pending.value;
          CommittedTurn(w.chain, c, r.op, r.sha256, r.source))
  }

  /** No manifest was installed by this client since its call began. */
  ghost predicate Quiet(w: World, c: ClientId, began: nat) {
    forall i: nat | began <= i < |w.chain| :: w.chain[i].client != c
  }

  /** This call installed exactly one manifest, this one. */
  ghost predicate Advanced(w: World, c: ClientId, began: nat, req: Request, m: Manifest) {
    && InChain(w.chain, m) && began <= m.sequence && m.sequence > 0
    && w.chain[m.sequence].client == c && w.chain[m.sequence].op == req.op
    && (forall i: nat | began <= i < |w.chain| && i != m.sequence :: w.chain[i].client != c)
  }

  ghost predicate Acknowledged(w: World, req: Request, m: Manifest) {
    && InChain(w.chain, m)
    && IsLatest(m.hashes, DigestOf(req)) && m.lastSender == Some(req.player)
  }

  ghost predicate ResultOk(w: World, c: ClientId, began: nat, req: Request, r: HandoffResult) {
    && ValidResult(r) && r.sha256 == DigestOf(req)
    && (r.changed ==> Advanced(w, c, began, req, r.manifest.value)
                      && Acknowledged(w, req, r.manifest.value))
    && (r.outcome == IdempotentAck ==> Acknowledged(w, req, r.manifest.value))
    && (!(r.outcome in {Committed, IdempotentAck, TransportFailure, LockCleanupAmbiguous}) ==>
          Quiet(w, c, began))
  }

  ghost predicate WorkOk(w: World, req: Request, stage: Stage, raw: Content) {
    && Candidate(req, raw) && InChain(w.chain, SourceOf(raw))
    && w.chain[SourceOf(raw).sequence].content == raw
    // while the lock still names this request, nobody replaced what it read
    && (Holds(w.fs, req) ==> ManifestJson in w.fs.files && w.fs.files[ManifestJson] == raw)
    && (StageRank(stage) <= 11 ==> Stored(w.fs, FinalPath(req, raw), FINGERPRINT(req.bytes)))
    && (StageRank(stage) <= 5 ==> Stored(w.fs, ArchivePath(raw), FINGERPRINT(raw)))
    && (StageRank(stage) <= 4 && TmpManifest(req.op) in w.fs.files ==>
          w.fs.files[TmpManifest(req.op)] == Payload(req, raw))
    && (stage == Replace ==> Holds(w.fs, req))
  }

  ghost predicate StepOk(w: World, c: ClientId, began: nat, req: Request, s: Step) {
    match s
    case AcqMkdir | AcqWrite | AcqBegin(_) | ResList | ResRead | ResKind(_) | ReadManifest => Quiet(w, c, began)
    case Work(stage, raw) => Quiet(w, c, began) && WorkOk(w, req, stage, raw)
    case Uncertain(raw) => true
    case Record(r) =>
      && ResultOk(w, c, began, req, r) && Accepted(w.chain, DigestOf(req))
      && r.outcome in {Committed, IdempotentAck}
    case RelJson(r) => ResultOk(w, c, began, req, r) && Holds(w.fs, req)
    case RelList(r) => ResultOk(w, c, began, req, r)
    case RelRead(r) => ResultOk(w, c, began, req, r)
    case RelKind(r, _) => ResultOk(w, c, began, req, r)
    case RelDir(r) => ResultOk(w, c, began, req, r)
    case RelClear(r) => ResultOk(w, c, began, req, r)
    case Returned(r) => ResultOk(w, c, began, req, r)
  }

  predicate Building(t: Task) {
    t.Creating? && (t.init.MakeSub? || t.init.StageZero? || t.init.Install? || t.init.ClassifyUncertain?)
  }

  ghost predicate InitOk(w: World, c: ClientId, cfg: Config, op: OperationId, s: InitStep)
    requires ValidConfig(cfg)
  {
    match s
    case MakeSub(_) | StageZero => |w.chain| == 0
    case Install =>
      |w.chain| == 0
      && (TmpManifest(op) in w.fs.files ==> w.fs.files[TmpManifest(op)] == ZeroPayload(cfg))
    case ClassifyUncertain => |w.chain| > 0 ==> w.chain[0].client == c
    case Finished(r) =>
      && (r.outcome == Created ==>
            && |w.chain| > 0 && w.chain[0].client == c && w.chain[0].content == ZeroPayload(cfg)
            && r.manifest == Some(ZeroManifest(cfg)))
      && (r.outcome == JoinedExisting ==> r.manifest.Some? && InChain(w.chain, r.manifest.value))
    case _ => true
  }

  ghost predicate EvidenceOk(w: World, c: ClientId, ev: HandoffEvidence) {
    CommittedTurn(w.chain, c, ev.op, ev.sha256, ev.source) && ev.result == ev.source + 1
  }

  ghost predicate PhaseOk(w: World, c: ClientId, s: ReconcileStep) {
    match s
    case Recover | Reconciled => true
    case ClearRecovered(ev) => EvidenceOk(w, c, ev)
    case ReadAgain(found, recs) =>
      MemoryOk(w, c, recs) && (found.Some? ==> EvidenceOk(w, c, found.value))
    case ClearApplied(ev, recs) => MemoryOk(w, c, recs) && EvidenceOk(w, c, ev)
    case Persist(recs) => MemoryOk(w, c, recs)
  }

  ghost predicate TaskOk(w: World, c: ClientId, cl: Client) {
    match cl.task
    case Idle => true
    case Handing(req, s) =>
      && req.client == c && req.game == w.game
      && req.op in w.issued && w.issued[req.op] == IssueOf(req)
      && StepOk(w, c, cl.began, req, s)
    case Creating(cfg, op, s) =>
      && cfg.game == w.game && op in w.issued && w.issued[op] == ForInit(c)
      && ValidConfig(cfg) && InitOk(w, c, cfg, op, s)
      && (Building(cl.task) ==> Root in w.fs.dirs)
    case Reconciling(pass, s) => pass.client == c && pass.game == w.game && PhaseOk(w, c, s)
  }

  ghost predicate ClientOk(w: World, c: ClientId, cl: Client) {
    && WellFormedTask(cl) && MemoryOk(w, c, cl.mem) && cl.began <= |w.chain|
    && TaskOk(w, c, cl)
  }

  ghost predicate OneBuilder(w: World) {
    forall c, d | c in w.clients && d in w.clients
                  && Building(w.clients[c].task) && Building(w.clients[d].task) :: c == d
  }

  ghost predicate Inv(w: World) {
    && WellFormed(w.fs) && ChainOk(w) && OneBuilder(w)
    && (|w.chain| > 0 ==> Root in w.fs.dirs)
    && forall c | c in w.clients :: ClientOk(w, c, w.clients[c])
  }

  // ----- what one client may do to the others -----

  /** `lock.json` changes only by this client's new document or its own removal. */
  ghost predicate LockKept(fs: Fs, fs': Fs, c: ClientId) {
    || DocIn(fs') == DocIn(fs)
    || (LockJson !in fs.files && DocIn(fs').Some? && DocIn(fs').value.client == c)
    || (LockJson !in fs'.files && DocIn(fs).Some? && DocIn(fs).value.client == c)
  }

  ghost predicate ArchiveKept(fs: Fs, fs': Fs) {
    forall p | Archived(p) && p in fs.files :: p in fs'.files && fs'.files[p] == fs.files[p]
  }

  /** Staged manifests of other clients' operations are at most removed. */
  ghost predicate StagedKept(w: World, fs': Fs, c: ClientId) {
    forall op | TmpManifest(op) in fs'.files && op in w.issued && w.issued[op].client != c ::
      TmpManifest(op) in w.fs.files && fs'.files[TmpManifest(op)] == w.fs.files[TmpManifest(op)]
  }

  ghost predicate Extends(w: World, w': World, c: ClientId) {
    && |w.chain| <= |w'.chain| && w'.chain[..|w.chain|] == w.chain
    && (forall i: nat | |w.chain| <= i < |w'.chain| :: w'.chain[i].client == c)
    && (w'.chain == w.chain ==>
          (ManifestJson in w'.fs.files <==> ManifestJson in w.fs.files)
          && (ManifestJson in w.fs.files ==> w'.fs.files[ManifestJson] == w.fs.files[ManifestJson]))
    && (w'.chain != w.chain && |w.chain| > 0 ==>
          DocIn(w.fs).Some? && DocIn(w.fs).value.client == c && DocIn(w'.fs) == DocIn(w.fs))
  }

  ghost predicate Guarantee(w: World, w': World, c: ClientId) {
    && w'.game == w.game
    && (forall op | op in w.issued :: op in w'.issued && w'.issued[op] == w.issued[op])
    && Extends(w, w', c)
    && ArchiveKept(w.fs, w'.fs) && StagedKept(w, w'.fs, c) && LockKept(w.fs, w'.fs, c)
    && (Root in w.fs.dirs ==> Root in w'.fs.dirs)
  }
}
