/** What a returned call's answer says about the shared history. */
module Outcomes {
  import opened Domain
  import opened Storage
  import opened HashClassify
  import opened Handoff
  import opened Initialize
  import opened Evidence
  import opened World
  import opened Invariant
  import opened Stability
  import Safety
  import opened Runs
  import opened Theorems

  /** The blocks this client installed since its current call began. */
  function InstalledBy(chain: seq<Block>, c: ClientId, began: nat): (s: set<nat>) {
    set i: nat | began <= i < |chain| && chain[i].client == c
  }

  ghost predicate JustReturned(w: World, c: ClientId, req: Request, r: HandoffResult) {
    Reachable(w) && c in w.clients && w.clients[c].task == Handing(req, Returned(r))
  }

  lemma ReturnedOk(w: World, c: ClientId, req: Request, r: HandoffResult)
    requires JustReturned(w, c, req, r)
    ensures ResultOk(w, c, w.clients[c].began, req, r) && Blocks(w)
    ensures w.clients[c].began <= |w.chain|
  {
    ReachableInv(w);
    assert ClientOk(w, c, w.clients[c]);
  }

  /** Every call returns a well-formed result for its own hash. */
  lemma ResultsAreValid(w: World, c: ClientId, req: Request, r: HandoffResult)
    requires JustReturned(w, c, req, r)
    ensures ValidResult(r) && r.sha256 == DigestOf(req)
    ensures r.outcome == Committed ==> r.changed && r.manifest.Some? && ValidManifest(r.manifest.value)
  {
    ReturnedOk(w, c, req, r);
  }

  /** A changed manifest: this call installed exactly that manifest, one turn after the
      one before it, and the result is well formed. */
  lemma ChangedMeansOneTurn(w: World, c: ClientId, req: Request, r: HandoffResult)
    requires JustReturned(w, c, req, r) && r.changed
    ensures ValidResult(r) && r.manifest.Some?
    ensures var m := r.manifest.value;
            && InstalledBy(w.chain, c, w.clients[c].began) == {m.sequence}
            && 0 < m.sequence < |w.chain| && w.chain[m.sequence].op == req.op
            && ParseManifest(w.chain[m.sequence].content) == Some(m)
            && IsLatest(m.hashes, DigestOf(req)) && m.lastSender == Some(req.player)
            && Parses(w.chain[m.sequence - 1])
            && ManifestOf(w.chain[m.sequence - 1]).sequence + 1 == m.sequence
            && ManifestOf(w.chain[m.sequence - 1]).hashes + [DigestOf(req)] == m.hashes
  {
    ReturnedOk(w, c, req, r);
    var m := r.manifest.value;
    assert BlockOk(w, m.sequence) && BlockOk(w, m.sequence - 1);
    assert Linked(w.chain[m.sequence - 1], w.chain[m.sequence], w.issued);
  }

  /** An acknowledgement: a manifest of the chain ends in this hash, sent by this player. */
  lemma AcknowledgedMeansSent(w: World, c: ClientId, req: Request, r: HandoffResult)
    requires JustReturned(w, c, req, r) && r.outcome == IdempotentAck
    ensures r.manifest.Some? && var m := r.manifest.value;
            && 0 < m.sequence < |w.chain|
            && ParseManifest(w.chain[m.sequence].content) == Some(m)
            && m.save.Some? && m.save.value.sha256 == DigestOf(req)
            && m.lastSender == Some(req.player)
  {
    ReturnedOk(w, c, req, r);
    var m := r.manifest.value;
    assert BlockOk(w, m.sequence);
  }

  /** Every other definite outcome: this call installed nothing. */
  lemma RefusedMeansUntouched(w: World, c: ClientId, req: Request, r: HandoffResult)
    requires JustReturned(w, c, req, r)
    requires r.outcome !in {Committed, IdempotentAck, TransportFailure, LockCleanupAmbiguous}
    ensures !r.changed && InstalledBy(w.chain, c, w.clients[c].began) == {}
  {
    ReturnedOk(w, c, req, r);
  }

  // ----- initialization -----

  /** Initialization never overwrites an existing manifest. */
  lemma InitializationOverwritesNothing(w: World, c: ClientId, fault: Fault)
    requires Reachable(w) && Enabled(w, Act(c, fault)) && ClientOf(w, c).task.Creating?
    requires ManifestJson in w.fs.files
    ensures ManifestBytes(AfterAct(w, c, fault).fs) == Some(w.fs.files[ManifestJson])
  {
    NoLostUpdate(w, Act(c, fault));
  }

  /** At most one sequence-zero manifest is ever installed: the first block. */
  lemma OneSequenceZero(w: World, i: nat)
    requires Reachable(w) && i < |w.chain|
    ensures Parses(w.chain[i]) && (ManifestOf(w.chain[i]).sequence == 0 <==> i == 0)
  {
    TurnRotation(w, i);
  }

  /** CREATED is returned only to the client whose bytes became the first manifest. */
  lemma CreatedIsTrue(w: World, c: ClientId, cfg: Config, op: OperationId, m: Option<Manifest>)
    requires Reachable(w) && c in w.clients
    requires w.clients[c].task == Creating(cfg, op, Finished(InitResult(Created, m)))
    ensures ValidConfig(cfg) && |w.chain| > 0 && w.chain[0].client == c
    ensures w.chain[0].content == ZeroPayload(cfg) && m == Some(ZeroManifest(cfg))
  {
    ReachableInv(w);
    assert ClientOk(w, c, w.clients[c]);
  }

  /** Whoever joins a match joins this one: the manifest it is given is in the chain. */
  lemma JoinedIsTrue(w: World, c: ClientId, cfg: Config, op: OperationId, m: Option<Manifest>)
    requires Reachable(w) && c in w.clients
    requires w.clients[c].task == Creating(cfg, op, Finished(InitResult(JoinedExisting, m)))
    ensures m.Some? && InChain(w.chain, m.value)
  {
    ReachableInv(w);
    assert ClientOk(w, c, w.clients[c]);
  }

  /** So two clients never both hold CREATED. */
  lemma OneCreator(w: World, c: ClientId, d: ClientId)
    requires Reachable(w) && c in w.clients && d in w.clients
    requires w.clients[c].task.Creating? && w.clients[c].task.init.Finished?
    requires w.clients[d].task.Creating? && w.clients[d].task.init.Finished?
    requires w.clients[c].task.init.result.outcome == w.clients[d].task.init.result.outcome == Created
    ensures c == d
  {
    var t, u := w.clients[c].task, w.clients[d].task;
    CreatedIsTrue(w, c, t.cfg, t.op, t.init.result.manifest);
    CreatedIsTrue(w, d, u.cfg, u.op, u.init.result.manifest);
  }

  // ----- entitlement -----

  /** A stored entitlement to close a process names a turn this client committed, and its
      hash is in the remote list for good. */
  lemma EntitlementIsCommitted(w: World, c: ClientId)
    requires Reachable(w) && c in w.clients && w.clients[c].mem.pending.Some?
    ensures var r := w.clients[c].mem.pending.value;
            && CommittedTurn(w.chain, c, r.op, r.sha256, r.source)
            && Accepted(w.chain, r.sha256)
  {
    ReachableInv(w);
    assert ClientOk(w, c, w.clients[c]);
    var r := w.clients[c].mem.pending.value;
    assert Blocks(w);
    Safety.CommittedAccepted(w, c, r.op, r.sha256, r.source);
  }
}
