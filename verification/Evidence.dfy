/** Attribution of a completed handoff, and what reconciliation does with it. */
module Evidence {
  import opened Domain
  import opened Storage
  import opened Handoff

  /** Proof that one exact operation completed. */
  datatype HandoffEvidence = HandoffEvidence(
    op: OperationId, player: PlayerId, sha256: Digest, size: nat, source: nat, result: nat)

  predicate ManifestProves(m: Manifest, game: GameId, op: OperationId, player: PlayerId,
                           sha256: Digest, size: nat, source: nat) {
    && m.gameId == game
    && m.save.Some?
    && m.save.value.sha256 == sha256
    && m.save.value.size == size
    && m.sequence == source + 1
    && m.lastSender == Some(player)
    && m.lastOp == Some(op)
    && sha256 in m.hashes
  }

  function AttributeResult(req: Request, result: HandoffResult, source: nat): Option<HandoffEvidence> {
    if result.outcome != Committed && result.outcome != IdempotentAck then None
    else if result.manifest.None? || result.sha256 != DigestOf(req) then None
    else
      var m := result.manifest.value;
      var size := FINGERPRINT(req.bytes).size;
      if !ManifestProves(m, req.game, req.op, req.player, DigestOf(req), size, source) then None
      else Some(HandoffEvidence(req.op, req.player, DigestOf(req), size, source, m.sequence))
  }

  /** `size` and `source` are the facts the journal may lack. */
  function AttributeJournal(m: Manifest, game: GameId, client: ClientId, player: PlayerId,
                            p: InProgress, size: Option<nat>, source: Option<nat>)
    : Option<HandoffEvidence>
  {
    if p.player != player || p.client != client then None
    else if source.None? && !(m.lastOp == Some(p.op) && m.sequence >= 1 && m.save.Some?
                              && m.save.value.sha256 == p.sha256) then None
    else if (size.None? || size.value == 0) && m.save.None? then None
    else
      var src := if source.Some? then source.value else m.sequence - 1;
      var bytes := if size.None? || size.value == 0 then m.save.value.size else size.value;
      if !ManifestProves(m, game, p.op, player, p.sha256, bytes, src) then None
      else Some(HandoffEvidence(p.op, player, p.sha256, bytes, src, m.sequence))
  }

  // ----- reconciliation -----

  /** What the process adapter saw: an exact identity, running or exited. */
  datatype Observation = Observation(identity: Identity, running: bool)

  datatype Pass = Pass(
    client: ClientId, player: PlayerId, game: GameId, managed: bool,
    seen: Option<Observation>, given: Option<HandoffEvidence>)

  predicate Exited(seen: Option<Observation>, id: Identity) {
    seen.Some? && seen.value.identity == id && !seen.value.running
  }

  predicate Concerns(p: InProgress, ev: HandoffEvidence) {
    p.op == ev.op && p.sha256 == ev.sha256 && p.player == ev.player
  }

  /** Evidence about another operation leaves the records alone. */
  predicate Applies(recs: Memory, ev: HandoffEvidence) {
    recs.inProgress.Some? ==> Concerns(recs.inProgress.value, ev)
  }

  /** The close entitlement written for proven evidence. */
  function Entitlement(recs: Memory, ev: HandoffEvidence): Option<CloseRecord> {
    if recs.pending.Some? then recs.pending
    else if recs.association.Some? && recs.association.value.sequence == ev.source then
      Some(CloseRecord(ev.op, ev.sha256, ev.source, recs.association.value.identity, false))
    else None
  }

  function DropExited(pending: Option<CloseRecord>, seen: Option<Observation>): Option<CloseRecord> {
    if pending.Some? && Exited(seen, pending.value.identity) then None else pending
  }

  function ApplyEvidence(recs: Memory, ev: HandoffEvidence, seen: Option<Observation>): Memory
    requires Applies(recs, ev)
  {
    recs.(processed := recs.processed + {ev.sha256},
          inProgress := None,
          pending := DropExited(Entitlement(recs, ev), seen))
  }

  /** The close target named by a post-commit intent. */
  function CloseTarget(recs: Memory, ev: Option<HandoffEvidence>): Option<CloseRecord> {
    if ev.None? then recs.pending
    else if recs.pending.Some? then
      (var p := recs.pending.value;
       if p.op != ev.value.op || p.sha256 != ev.value.sha256 || p.source != ev.value.source then None
       else recs.pending)
    else Entitlement(recs, ev.value)
  }

  function CloseIntent(pass: Pass, recs: Memory, ev: Option<HandoffEvidence>): Option<CloseRecord> {
    var t := CloseTarget(recs, ev);
    if pass.managed && t.Some? && !t.value.requested
       && pass.seen == Some(Observation(t.value.identity, true))
    then t else None
  }

  /** `close_requested` is set on the stored entitlement, if there is one. */
  function CloseRequested(recs: Memory): Memory {
    if recs.pending.Some? then recs.(pending := Some(recs.pending.value.(requested := true))) else recs
  }

  /** It is stored once a close intent was emitted. */
  function MarkRequested(recs: Memory, intent: Option<CloseRecord>): Memory {
    if intent.Some? then CloseRequested(recs) else recs
  }

  datatype ReconcileStep =
    | Recover
    | ClearRecovered(ev: HandoffEvidence)
    | ReadAgain(found: Option<HandoffEvidence>, recs: Memory)
    | ClearApplied(ev: HandoffEvidence, recs: Memory)
    | Persist(recs: Memory)
    | Reconciled

  predicate StillProven(pass: Pass, m: Manifest, ev: HandoffEvidence) {
    && ev.player == pass.player
    && ev.sha256 in m.hashes
    && ev.result == m.sequence
    && (m.save.Some? ==> m.save.value.sha256 == ev.sha256 && m.save.value.size == ev.size)
    && m.lastOp == Some(ev.op)
    && m.lastSender == Some(ev.player)
    && ev.result == ev.source + 1
  }

  /** The first step: journal recovery only without evidence from a fresh result. */
  function FirstStep(pass: Pass, mem: Memory): ReconcileStep {
    if pass.given.None? && mem.inProgress.Some?
       && mem.inProgress.value.player == pass.player && mem.inProgress.value.client == pass.client
    then Recover
    else ReadAgain(pass.given, mem)
  }

  predicate WellFormedReconcile(mem: Memory, s: ReconcileStep) {
    && (s.Recover? ==> mem.inProgress.Some?)
    && (s.ClearRecovered? ==> Applies(mem, s.ev))
    && (s.ClearApplied? ==> Applies(s.recs, s.ev))
  }

  function ReconcileAction(s: ReconcileStep): Action {
    match s
    case Recover | ReadAgain(_, _) => Remote(Read(ManifestJson))
    case ClearRecovered(_) | ClearApplied(_, _) | Persist(_) => Local
    case Reconciled => Halt
  }

  function OnReconcileReply(pass: Pass, mem: Memory, s: ReconcileStep, r: Reply): (s': ReconcileStep)
    requires WellFormedReconcile(mem, s) && ReconcileAction(s).Remote?
    ensures WellFormedReconcile(mem, s')
  {
    match s
    case Recover =>
      (match ReadOutcome(pass.game, r)
       case ReadOk(m, _) =>
         var p := mem.inProgress.value;
         var size := if m.save.Some? then Some(m.save.value.size) else None;
         var ev := AttributeJournal(m, pass.game, pass.client, pass.player, p, size, None);
         if ev.Some? then ClearRecovered(ev.value) else ReadAgain(None, mem)
       case _ => ReadAgain(None, mem))
    case ReadAgain(ev, recs) =>
      (match ReadOutcome(pass.game, r)
       case ReadOk(m, _) =>
         var proven := if ev.Some? && StillProven(pass, m, ev.value) then ev else None;
         if proven.Some? && Applies(recs, proven.value) then ClearApplied(proven.value, recs)
         else
           var recs' := recs.(pending := DropExited(recs.pending, pass.seen));
           Persist(MarkRequested(recs', CloseIntent(pass, recs', proven)))
       case _ => Persist(recs))
  }

  function OnReconcileLocal(pass: Pass, mem: Memory, s: ReconcileStep): (r: (Memory, ReconcileStep))
    requires WellFormedReconcile(mem, s) && ReconcileAction(s).Local?
    ensures WellFormedReconcile(r.0, r.1)
  {
    match s
    case ClearRecovered(ev) =>
      (mem.(inProgress := None), ReadAgain(Some(ev), ApplyEvidence(mem, ev, None)))
    case ClearApplied(ev, recs) =>
      var recs' := ApplyEvidence(recs, ev, pass.seen);
      (mem.(inProgress := None), Persist(MarkRequested(recs', CloseIntent(pass, recs', Some(ev)))))
    case Persist(recs) => (recs, Reconciled)
  }
}
