/** `commit_handoff` as a machine: one storage or journal operation per step.

    `ActionOf` is the next operation; `OnReply` and `OnLocal` follow the branches the
    code takes on its result.  Every exception branch of the code is one reply case.
 */
module Handoff {
  import opened Domain
  import opened Storage
  import opened HashClassify

  datatype Request = Request(
    op: OperationId, client: ClientId, player: PlayerId, game: GameId,
    bytes: Content, ext: Extension, filename: nat, now: Timestamp)

  predicate ValidRequest(req: Request) {
    FINGERPRINT(req.bytes).size > 0
  }

  function DigestOf(req: Request): Digest { Sha256(req.bytes) }

  datatype Outcome =
    | Committed | IdempotentAck | JournalOnlyAck | NotCurrentOwner | RejectIncoming
    | StaleReplay | LockHeld | LockUnreadable | LockOwnershipLost
    | LockCleanupAmbiguous | HardIntegrityFailure | CapabilityFailure
    | TransportFailure | InvalidManifest | MissingManifest

  datatype HandoffResult = HandoffResult(
    outcome: Outcome, changed: bool, sha256: Digest, manifest: Option<Manifest>)

  /** The checks of the result's constructor. */
  predicate ValidResult(r: HandoffResult) {
    && (r.changed ==> (r.outcome == Committed || r.outcome == LockCleanupAmbiguous)
                      && r.manifest.Some?)
    && (r.outcome == Committed ==> r.changed)
    && (r.outcome == IdempotentAck ==> r.manifest.Some?)
  }

  // ----- durable local memory of one match -----

  datatype InProgress = InProgress(
    op: OperationId, client: ClientId, player: PlayerId, sha256: Digest)

  datatype Identity = Identity(pid: nat, token: nat, exe: nat)

  datatype Association = Association(sequence: nat, identity: Identity)

  datatype CloseRecord = CloseRecord(
    op: OperationId, sha256: Digest, source: nat, identity: Identity, requested: bool)

  datatype Memory = Memory(
    inProgress: Option<InProgress>, attempted: set<Digest>, accepted: set<Digest>,
    processed: set<Digest>, association: Option<Association>, pending: Option<CloseRecord>)

  const EMPTY_MEMORY := Memory(None, {}, {}, {}, None, None)

  // ----- machine states -----

  datatype Stage =
    | UpCompare | UpWrite(overwrite: bool) | UpVerify
    | PubMove | PubReuse | PubCheck | FinalCheck
    | HistCompare | HistWrite | HistRace | HistVerify
    | HistMove | HistReuse | HistCheck
    | StageManifest | OwnList | OwnRead | OwnKind(kind: WrongObject) | Replace

  /** A lock of the wrong kind is looked at once more: `upload.lock` as the file it is, or
      `lock.json` as the directory it is. */
  datatype WrongObject = LockFile | DocumentDirectory

  datatype Step =
    | AcqMkdir | AcqWrite | AcqBegin(written: bool) | ResList | ResRead | ResKind(kind: WrongObject)
    | ReadManifest
    | Work(stage: Stage, raw: Content)
    | Uncertain(raw: Content)
    | Record(result: HandoffResult)
    | RelList(result: HandoffResult) | RelRead(result: HandoffResult)
    | RelKind(result: HandoffResult, kind: WrongObject)
    | RelJson(result: HandoffResult) | RelDir(result: HandoffResult)
    | RelClear(result: HandoffResult)
    | Returned(result: HandoffResult)

  datatype Action = Remote(op: Op) | Local | Halt

  // ----- names and payloads -----

  function LockDoc(req: Request): LockDocument {
    LockDocument(req.op, req.client, req.player, req.now)
  }

  predicate OwnedBy(d: LockDocument, req: Request) {
    d.op == req.op && d.client == req.client && d.player == req.player
  }

  function ProgressOf(req: Request): InProgress {
    InProgress(req.op, req.client, req.player, DigestOf(req))
  }

  /** A manifest read that survived classification: the turn is this player's, and the
      hash is new. */
  predicate Candidate(req: Request, raw: Content) {
    && ValidRequest(req)
    && ParseManifest(raw).Some?
    && var m := ParseManifest(raw).value;
       && m.gameId == req.game && m.current == req.player && DigestOf(req) !in m.hashes
  }

  function SourceOf(raw: Content): Manifest
    requires ParseManifest(raw).Some?
  {
    ParseManifest(raw).value
  }

  function FinalPath(req: Request, raw: Content): Path
    requires ParseManifest(raw).Some?
  {
    SavePath(SourceOf(raw).sequence + 1, DigestOf(req).head, req.ext)
  }

  function ArchivePath(raw: Content): Path
    requires ParseManifest(raw).Some?
  {
    HistoryPath(SourceOf(raw).sequence, Sha256(raw).head)
  }

  /** The manifest this request commits on top of `raw`. */
  function NextManifest(req: Request, raw: Content): (m': Manifest)
    requires Candidate(req, raw)
    ensures ValidManifest(m')
  {
    var m := SourceOf(raw);
    var d := DigestOf(req);
    m.(sequence := m.sequence + 1,
       current := NextPlayer(m.players, req.player),
       lastSender := Some(req.player),
       save := Some(AcceptedSave(d, FINGERPRINT(req.bytes).size, FinalPath(req, raw),
                                 req.filename, req.now)),
       hashes := m.hashes + [d],
       previous := Some(ArchivePath(raw)),
       lastOp := Some(req.op))
  }

  function Payload(req: Request, raw: Content): Content
    requires Candidate(req, raw)
  {
    Canonical(NextManifest(req, raw))
  }

  // ----- results -----

  function Fail(req: Request, o: Outcome, m: Option<Manifest>): HandoffResult {
    HandoffResult(o, false, DigestOf(req), m)
  }

  /** The step ends the attempt without a commit or an acknowledgement. */
  predicate Gave(req: Request, s: Step) {
    && (s.Returned? || s.RelList?)
    && s.result.outcome != Committed && s.result.outcome != IdempotentAck
    && !s.result.changed && s.result.sha256 == DigestOf(req)
  }

  /** Retain the lock on an ambiguous outcome; release it on a terminal one. */
  function Finish(req: Request, o: Outcome, m: Option<Manifest>): (s: Step)
    ensures o != Committed && o != IdempotentAck ==> Gave(req, s)
  {
    if o == TransportFailure then Returned(Fail(req, o, m)) else RelList(Fail(req, o, m))
  }

  function Ambiguous(r: HandoffResult): HandoffResult {
    r.(outcome := LockCleanupAmbiguous)
  }

  // ----- next operation -----

  function KindOp(kind: WrongObject): Op {
    match kind
    case LockFile => Read(LockDir)
    case DocumentDirectory => List(LockJson)
  }

  function WorkOp(req: Request, stage: Stage, raw: Content): Op
    requires Candidate(req, raw)
  {
    match stage
    case UpCompare | UpVerify => Read(TmpUpload(req.op, req.ext))
    case UpWrite(overwrite) => Write(TmpUpload(req.op, req.ext), req.bytes, overwrite)
    case PubMove => Publish(TmpUpload(req.op, req.ext), FinalPath(req, raw))
    case PubReuse | PubCheck | FinalCheck => Read(FinalPath(req, raw))
    case HistCompare | HistRace | HistVerify => Read(TmpHistory(req.op))
    case HistWrite => Write(TmpHistory(req.op), raw, false)
    case HistMove => Publish(TmpHistory(req.op), ArchivePath(raw))
    case HistReuse | HistCheck => Read(ArchivePath(raw))
    case StageManifest => Write(TmpManifest(req.op), Payload(req, raw), true)
    case OwnList => List(LockDir)
    case OwnRead => Read(LockJson)
    case OwnKind(kind) => KindOp(kind)
    case Replace => AtomicReplace(TmpManifest(req.op), ManifestJson)
  }

  predicate WellFormedStep(req: Request, s: Step) {
    match s
    case Work(_, raw) => Candidate(req, raw)
    case Uncertain(raw) => Candidate(req, raw)
    case _ => ValidRequest(req)
  }

  function ActionOf(req: Request, s: Step): Action
    requires WellFormedStep(req, s)
  {
    match s
    case AcqMkdir => Remote(Mkdir(LockDir))
    case AcqWrite => Remote(Write(LockJson, LockBytes(LockDoc(req)), false))
    case ResList | RelList(_) => Remote(List(LockDir))
    case ResRead | RelRead(_) => Remote(Read(LockJson))
    case ResKind(kind) => Remote(KindOp(kind))
    case RelKind(_, kind) => Remote(KindOp(kind))
    case ReadManifest | Uncertain(_) => Remote(Read(ManifestJson))
    case Work(stage, raw) => Remote(WorkOp(req, stage, raw))
    case RelJson(_) => Remote(RemoveFile(LockJson))
    case RelDir(_) => Remote(RemoveDir(LockDir))
    case AcqBegin(_) | Record(_) | RelClear(_) => Local
    case Returned(_) => Halt
  }

  // ----- reply branches -----

  function OnMkdir(req: Request, r: Reply): Step {
    if !r.Failed? then AcqWrite
    else match r.error
      case NoCapability => Returned(Fail(req, CapabilityFailure, None))
      case AlreadyExists => ResList
      case WrongKind => Returned(Fail(req, LockUnreadable, None))
      case _ => Returned(Fail(req, TransportFailure, None))
  }

  function OnResList(req: Request, r: Reply): Step {
    if !r.Failed? then ResRead
    else if r.error == NotFound then Returned(Fail(req, LockUnreadable, None))
    else if r.error == WrongKind then ResKind(LockFile)
    else Returned(Fail(req, TransportFailure, None))
  }

  function OnResRead(req: Request, mem: Memory, r: Reply): Step {
    if r.Data? then
      match ParseLock(r.content)
      case None => Returned(Fail(req, LockUnreadable, None))
      case Some(d) =>
        if OwnedBy(d, req) && mem.inProgress == Some(ProgressOf(req)) then ReadManifest
        else Returned(Fail(req, LockHeld, None))
    else if r == Failed(NotFound) then Returned(Fail(req, LockUnreadable, None))
    else if r == Failed(WrongKind) then ResKind(DocumentDirectory)
    else Returned(Fail(req, TransportFailure, None))
  }

  function OnResKind(req: Request, r: Reply): Step {
    if !r.Failed? || r.error == NotFound then Returned(Fail(req, LockUnreadable, None))
    else Returned(Fail(req, TransportFailure, None))
  }

  datatype ManifestRead =
    | ReadOk(manifest: Manifest, raw: Content) | Missing | Invalid | GameMismatch | Unreachable

  function ReadOutcome(game: GameId, r: Reply): (read: ManifestRead)
    ensures read.ReadOk? ==> ParseManifest(read.raw) == Some(read.manifest) && read.manifest.gameId == game
  {
    if r.Data? then
      match ParseManifest(r.content)
      case None => Invalid
      case Some(m) => if m.gameId != game then GameMismatch else ReadOk(m, r.content)
    else if r == Failed(NotFound) then Missing
    else if r == Failed(WrongKind) then Invalid
    else Unreachable
  }

  function EvidenceFor(mem: Memory, d: Digest): Evidence {
    Evidence(d in mem.attempted, d in mem.accepted)
  }

  /** Classification of the outgoing hash against the manifest just read. */
  function OnReadOk(req: Request, mem: Memory, m: Manifest, raw: Content): (s: Step)
    requires ValidRequest(req) && ParseManifest(raw) == Some(m) && m.gameId == req.game
    ensures WellFormedStep(req, s)
  {
    var d := DigestOf(req);
    NewIffUnknown(d, m, req.player, EvidenceFor(mem, d));
    match Classify(d, m, req.player, EvidenceFor(mem, d))
    case Incoming => Finish(req, RejectIncoming, Some(m))
    case Idempotent => Record(HandoffResult(IdempotentAck, false, d, Some(m)))
    case JournalOnly => Finish(req, JournalOnlyAck, Some(m))
    case Stale => Finish(req, StaleReplay, Some(m))
    case NewCandidate =>
      if m.current != req.player then Finish(req, NotCurrentOwner, Some(m))
      else Work(UpCompare, raw)
  }

  function OnManifest(req: Request, mem: Memory, r: Reply): (s: Step)
    requires ValidRequest(req)
    ensures WellFormedStep(req, s)
  {
    match ReadOutcome(req.game, r)
    case Missing => Finish(req, MissingManifest, None)
    case Invalid | GameMismatch => Finish(req, InvalidManifest, None)
    case Unreachable => Finish(req, TransportFailure, None)
    case ReadOk(m, raw) => OnReadOk(req, mem, m, raw)
  }

  /** The branches of a write or publish: `race` is taken on an existing object, when
      the code looks at it. */
  function OnMutation(req: Request, r: Reply, m: Option<Manifest>, next: Step,
                      race: Option<Step>): (s: Step)
    ensures s == next || Some(s) == race || Gave(req, s)
  {
    if !r.Failed? then next
    else match r.error
      case AlreadyExists => if race.Some? then race.value else Finish(req, TransportFailure, m)
      case WrongKind => Finish(req, HardIntegrityFailure, m)
      case NoCapability => Finish(req, CapabilityFailure, m)
      case _ => Finish(req, TransportFailure, m)
  }

  /** The branches of a read-back that must match a fingerprint. */
  function OnCheck(req: Request, r: Reply, expected: Fingerprint, m: Option<Manifest>,
                   next: Step): (s: Step)
    ensures s == next || Gave(req, s)
  {
    if r.Data? then
      if FINGERPRINT(r.content) == expected then next else Finish(req, HardIntegrityFailure, m)
    else if r == Failed(WrongKind) then Finish(req, HardIntegrityFailure, m)
    else Finish(req, TransportFailure, m)
  }

  /** The branches of the first look at a temporary object: `absent` and `differs` say
      what to do when it is missing or holds other bytes. */
  function OnCompare(req: Request, r: Reply, expected: Fingerprint, m: Option<Manifest>,
                     next: Step, absent: Step, differs: Step): (s: Step)
    ensures s == next || s == absent || s == differs || Gave(req, s)
  {
    if r.Data? then (if FINGERPRINT(r.content) == expected then next else differs)
    else if !r.Failed? then Finish(req, TransportFailure, m)
    else match r.error
      case NotFound => absent
      case WrongKind => Finish(req, HardIntegrityFailure, m)
      case NoCapability => Finish(req, CapabilityFailure, m)
      case _ => Finish(req, TransportFailure, m)
  }

  function OnOwnership(req: Request, m: Option<Manifest>, r: Reply, raw: Content): (s: Step)
    ensures s == Work(Replace, raw) || s == Work(OwnKind(DocumentDirectory), raw) || Gave(req, s)
  {
    if r.Data? then
      match ParseLock(r.content)
      case None => Finish(req, LockOwnershipLost, m)
      case Some(d) =>
        if OwnedBy(d, req) then Work(Replace, raw) else Finish(req, LockOwnershipLost, m)
    else if r == Failed(NotFound) then Finish(req, LockOwnershipLost, m)
    else if r == Failed(WrongKind) then Work(OwnKind(DocumentDirectory), raw)
    else Finish(req, TransportFailure, m)
  }

  function OnOwnKind(req: Request, m: Option<Manifest>, r: Reply): (s: Step)
    ensures Gave(req, s)
  {
    if !r.Failed? || r.error == NotFound then Finish(req, LockOwnershipLost, m)
    else Finish(req, TransportFailure, m)
  }

  function OnReplace(req: Request, m: Option<Manifest>, r: Reply, raw: Content): Step
    requires Candidate(req, raw)
  {
    if !r.Failed? then
      Record(HandoffResult(Committed, true, DigestOf(req), Some(NextManifest(req, raw))))
    else match r.error
      case NoCapability => Finish(req, CapabilityFailure, m)
      case Transport => Uncertain(raw)
      case _ => Finish(req, TransportFailure, m)
  }

  predicate Uploading(stage: Stage) {
    stage.UpCompare? || stage.UpWrite? || stage.UpVerify? || stage.PubMove?
    || stage.PubReuse? || stage.PubCheck? || stage.FinalCheck?
  }

  predicate Archiving(stage: Stage) {
    stage.HistCompare? || stage.HistWrite? || stage.HistRace? || stage.HistVerify?
    || stage.HistMove? || stage.HistReuse? || stage.HistCheck?
  }

  /** Stage, verify and publish the save. */
  function OnUpload(req: Request, stage: Stage, raw: Content, r: Reply): (s: Step)
    requires Candidate(req, raw) && Uploading(stage)
    ensures (s.Work? && s.raw == raw) || Gave(req, s)
  {
    var m := Some(SourceOf(raw));
    var save := FINGERPRINT(req.bytes);
    match stage
    case UpCompare =>
      OnCompare(req, r, save, None, Work(PubMove, raw), Work(UpWrite(false), raw),
                Work(UpWrite(true), raw))
    case UpWrite(overwrite) =>
      // a missing parent during the overwrite falls into the not-found handler
      if overwrite && r == Failed(NotFound) then Work(UpWrite(false), raw)
      else OnMutation(req, r, None, Work(UpVerify, raw), None)
    case UpVerify => OnCheck(req, r, save, None, Work(PubMove, raw))
    case PubMove => OnMutation(req, r, None, Work(PubCheck, raw), Some(Work(PubReuse, raw)))
    case PubReuse | PubCheck => OnCheck(req, r, save, None, Work(FinalCheck, raw))
    case FinalCheck => OnCheck(req, r, save, m, Work(HistCompare, raw))
  }

  /** Stage, verify and publish the manifest being replaced. */
  function OnArchive(req: Request, stage: Stage, raw: Content, r: Reply): (s: Step)
    requires Candidate(req, raw) && Archiving(stage)
    ensures (s.Work? && s.raw == raw) || Gave(req, s)
  {
    var m := Some(SourceOf(raw));
    var archive := FINGERPRINT(raw);
    match stage
    case HistCompare =>
      OnCompare(req, r, archive, m, Work(HistVerify, raw), Work(HistWrite, raw),
                Finish(req, HardIntegrityFailure, m))
    case HistWrite =>
      OnMutation(req, r, m, Work(HistVerify, raw), Some(Work(HistRace, raw)))
    case HistRace => OnCheck(req, r, archive, m, Work(HistVerify, raw))
    case HistVerify => OnCheck(req, r, archive, m, Work(HistMove, raw))
    case HistMove => OnMutation(req, r, m, Work(HistCheck, raw), Some(Work(HistReuse, raw)))
    case HistReuse | HistCheck => OnCheck(req, r, archive, m, Work(StageManifest, raw))
  }

  /** Stage the new manifest, confirm ownership, replace. */
  function OnCommit(req: Request, stage: Stage, raw: Content, r: Reply): (s: Step)
    requires Candidate(req, raw) && !Uploading(stage) && !Archiving(stage)
    ensures (s.Work? && s.raw == raw) || (stage == Replace && s == Uncertain(raw))
            || (stage == Replace && s.Record?) || Gave(req, s)
  {
    var m := Some(SourceOf(raw));
    match stage
    case StageManifest => OnMutation(req, r, m, Work(OwnList, raw), None)
    case OwnList =>
      if !r.Failed? then Work(OwnRead, raw)
      else if r.error == NotFound then Finish(req, LockOwnershipLost, m)
      else if r.error == WrongKind then Work(OwnKind(LockFile), raw)
      else Finish(req, TransportFailure, m)
    case OwnRead => OnOwnership(req, m, r, raw)
    case OwnKind(_) => OnOwnKind(req, m, r)
    case Replace => OnReplace(req, m, r, raw)
  }

  function OnWork(req: Request, stage: Stage, raw: Content, r: Reply): (s: Step)
    requires Candidate(req, raw)
    ensures WellFormedStep(req, s)
  {
    if Uploading(stage) then OnUpload(req, stage, raw, r)
    else if Archiving(stage) then OnArchive(req, stage, raw, r)
    else OnCommit(req, stage, raw, r)
  }

  /** After a lost replace response: success only when the remote bytes are exactly the
      intended ones. */
  function OnUncertain(req: Request, raw: Content, r: Reply): Step
    requires Candidate(req, raw)
  {
    match ReadOutcome(req.game, r)
    case ReadOk(m, bytes) =>
      if bytes == Payload(req, raw) then
        Record(HandoffResult(IdempotentAck, false, DigestOf(req), Some(m)))
      else Returned(Fail(req, TransportFailure, Some(m)))
    case _ => Returned(Fail(req, TransportFailure, None))
  }

  function OnRelList(result: HandoffResult, r: Reply): Step {
    if !r.Failed? then RelRead(result)
    else if r.error == NotFound then RelClear(result)
    else if r.error == WrongKind then RelKind(result, LockFile)
    else Returned(Ambiguous(result))
  }

  function OnRelRead(req: Request, result: HandoffResult, r: Reply): Step {
    if r.Data? && ParseLock(r.content).Some? then
      if OwnedBy(ParseLock(r.content).value, req) then RelJson(result) else RelClear(result)
    else if r == Failed(WrongKind) then RelKind(result, DocumentDirectory)
    else Returned(Ambiguous(result))
  }

  /** A lock file that is gone by now is an absent lock. */
  function OnRelKind(result: HandoffResult, kind: WrongObject, r: Reply): Step {
    if kind == LockFile && r == Failed(NotFound) then RelClear(result) else Returned(Ambiguous(result))
  }

  function OnRelJson(result: HandoffResult, r: Reply): Step {
    if !r.Failed? || r.error == NotFound then RelDir(result) else Returned(Ambiguous(result))
  }

  function OnRelDir(result: HandoffResult, r: Reply): Step {
    if !r.Failed? || r.error == NotFound then RelClear(result) else Returned(Ambiguous(result))
  }

  function OnReply(req: Request, mem: Memory, s: Step, r: Reply): (s': Step)
    requires WellFormedStep(req, s) && ActionOf(req, s).Remote?
    ensures WellFormedStep(req, s')
  {
    match s
    case AcqMkdir => OnMkdir(req, r)
    case AcqWrite => AcqBegin(!r.Failed?)
    case ResList => OnResList(req, r)
    case ResRead => OnResRead(req, mem, r)
    case ResKind(_) => OnResKind(req, r)
    case ReadManifest => OnManifest(req, mem, r)
    case Work(stage, raw) => OnWork(req, stage, raw, r)
    case Uncertain(raw) => OnUncertain(req, raw, r)
    case RelList(result) => OnRelList(result, r)
    case RelRead(result) => OnRelRead(req, result, r)
    case RelKind(result, kind) => OnRelKind(result, kind, r)
    case RelJson(result) => OnRelJson(result, r)
    case RelDir(result) => OnRelDir(result, r)
  }

  function OnLocal(req: Request, mem: Memory, s: Step): (r: (Memory, Step))
    requires WellFormedStep(req, s) && ActionOf(req, s).Local?
    ensures WellFormedStep(req, r.1)
  {
    match s
    case AcqBegin(written) =>
      (mem.(inProgress := Some(ProgressOf(req)), attempted := mem.attempted + {DigestOf(req)}),
       if written then ReadManifest else Returned(Fail(req, TransportFailure, None)))
    case Record(result) =>
      (mem.(accepted := mem.accepted + {DigestOf(req)}), RelList(result))
    case RelClear(result) =>
      (mem.(inProgress := None), Returned(result))
  }

  // ----- termination -----

  function StageRank(stage: Stage): nat {
    match stage
    case UpCompare => 18 case UpWrite(o) => if o then 17 else 16 case UpVerify => 15
    case PubMove => 14 case PubReuse => 13 case PubCheck => 13 case FinalCheck => 12
    case HistCompare => 11 case HistWrite => 10 case HistRace => 9 case HistVerify => 8
    case HistMove => 7 case HistReuse => 6 case HistCheck => 6
    case StageManifest => 5 case OwnList => 4 case OwnRead => 3 case Replace => 2
    case OwnKind(_) => 1
  }

  /** Steps left at most. */
  function Rank(s: Step): nat {
    match s
    case AcqMkdir => 33 case AcqWrite => 32 case AcqBegin(_) => 31
    case ResList => 30 case ResRead => 29 case ReadManifest => 28 case ResKind(_) => 1
    case Work(stage, _) => 8 + StageRank(stage)
    case Uncertain(_) => 8
    case Record(_) => 7 case RelList(_) => 6 case RelRead(_) => 5 case RelJson(_) => 4
    case RelDir(_) => 3 case RelKind(_, _) => 3 case RelClear(_) => 2 case Returned(_) => 0
  }

  /** Whatever the storage answers, every call returns within 33 operations. */
  lemma EveryReplyMakesProgress(req: Request, mem: Memory, s: Step, r: Reply)
    requires WellFormedStep(req, s) && ActionOf(req, s).Remote?
    ensures Rank(OnReply(req, mem, s, r)) < Rank(s)
  {
    if s.Work? {
      if Uploading(s.stage) { UploadProgress(req, s.stage, s.raw, r); }
      else if Archiving(s.stage) { ArchiveProgress(req, s.stage, s.raw, r); }
      else { CommitProgress(req, s.stage, s.raw, r); }
    } else {
      EdgeProgress(req, mem, s, r);
    }
  }

  lemma EdgeProgress(req: Request, mem: Memory, s: Step, r: Reply)
    requires WellFormedStep(req, s) && ActionOf(req, s).Remote? && !s.Work?
    ensures Rank(OnReply(req, mem, s, r)) < Rank(s)
  {
    if s.ReadManifest? {
      ReadProgress(req, mem, r);
    } else if s.AcqMkdir? || s.AcqWrite? || s.ResList? || s.ResRead? || s.ResKind? {
      AcquireProgress(req, mem, s, r);
    } else {
      ReleaseProgress(req, mem, s, r);
    }
  }

  lemma AcquireProgress(req: Request, mem: Memory, s: Step, r: Reply)
    requires WellFormedStep(req, s) && (s.AcqMkdir? || s.AcqWrite? || s.ResList? || s.ResRead? || s.ResKind?)
    ensures Rank(OnReply(req, mem, s, r)) < Rank(s)
  {
  }

  lemma ReleaseProgress(req: Request, mem: Memory, s: Step, r: Reply)
    requires WellFormedStep(req, s)
    requires s.Uncertain? || s.RelList? || s.RelRead? || s.RelKind? || s.RelJson? || s.RelDir?
    ensures Rank(OnReply(req, mem, s, r)) < Rank(s)
  {
  }

  lemma ReadProgress(req: Request, mem: Memory, r: Reply)
    requires ValidRequest(req)
    ensures Rank(OnManifest(req, mem, r)) < Rank(ReadManifest)
  {
  }

  lemma UploadProgress(req: Request, stage: Stage, raw: Content, r: Reply)
    requires Candidate(req, raw) && Uploading(stage)
    ensures Rank(OnUpload(req, stage, raw, r)) < Rank(Work(stage, raw))
  {
  }

  lemma ArchiveProgress(req: Request, stage: Stage, raw: Content, r: Reply)
    requires Candidate(req, raw) && Archiving(stage)
    ensures Rank(OnArchive(req, stage, raw, r)) < Rank(Work(stage, raw))
  {
  }

  lemma CommitProgress(req: Request, stage: Stage, raw: Content, r: Reply)
    requires Candidate(req, raw) && !Uploading(stage) && !Archiving(stage)
    ensures Rank(OnCommit(req, stage, raw, r)) < Rank(Work(stage, raw))
  {
  }

  lemma EveryLocalStepMakesProgress(req: Request, mem: Memory, s: Step)
    requires WellFormedStep(req, s) && ActionOf(req, s).Local?
    ensures Rank(OnLocal(req, mem, s).1) < Rank(s)
  {
  }
}
