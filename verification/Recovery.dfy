/** Journal recovery in the shared world: whatever happened to the call that wrote the entry,
    an undisturbed reconciliation completes it exactly when its turn is the last one. */
module Recovery {
  import opened Domain
  import opened Storage
  import opened Handoff
  import opened Evidence
  import opened World
  import opened Invariant
  import opened Runs
  import opened Theorems
  import opened Faults
  import FS = FakeStorage
  import opened HandoffCall
  import opened ReconcileCall
  import opened CallSafety

  const FULL := FS.Capabilities(true, true, true, true)

  /** The tree of the world as a storage without faults. */
  function Calm(fs: Fs): FS.Remote {
    FS.Remote(fs, Schedule([], [], NO_CALLS))
  }

  /** The last manifest of the chain is what such a storage reads. */
  lemma LastIsRead(w: World)
    requires Inv(w) && |w.chain| > 0
    ensures var b := w.chain[|w.chain| - 1];
            Parses(b) && ValidManifest(ManifestOf(b)) && Reads(FULL, Calm(w.fs), w.game, ManifestOf(b))
  {
    NoCallsAreCounted();
    assert BlockOk(w, |w.chain| - 1);
  }

  /** The last turn of the chain is this operation of this client. */
  predicate LastTurnIs(w: World, c: ClientId, op: OperationId) {
    |w.chain| > 1 && w.chain[|w.chain| - 1].client == c && w.chain[|w.chain| - 1].op == op
  }

  /** A reconciliation in the world that nobody disturbs. */
  lemma ReconcilesAlone(w: World, c: ClientId, pass: Pass) returns (events: seq<Event>)
    requires c in w.clients && Enabled(w, BeginReconcile(c, pass)) && WellFormedTask(w.clients[c])
    ensures IsRun(w, events)
    ensures var w' := Final(w, events);
            var sys := Sys(Calm(w.fs), w.clients[c].mem);
            var last := (NoCallsAreCounted(); ReconcileOn(FULL, pass, sys, FirstStep(pass, sys.mem)));
            && w'.fs == last.remote.fs && c in w'.clients && w'.clients[c].mem == last.mem
            && w'.clients[c].task == Reconciling(pass, Reconciled)
  {
    NoCallsAreCounted();
    var sys := Sys(Calm(w.fs), w.clients[c].mem);
    var s, begin := FirstStep(pass, sys.mem), BeginReconcile(c, pass);
    ReconciliationIsARun(Next(w, begin), pass, FULL, sys, s);
    events := [begin] + ReconcileActs(pass, FULL, sys, s);
    assert events[1..] == ReconcileActs(pass, FULL, sys, s);
  }

  /** In every reachable world, a client with a journal entry of its own that reconciles
      undisturbed ends without the entry if and only if the last turn of the chain is that
      operation of this client.  Then the hash is processed and the entitlement stored and
      acted on as the completion says; otherwise the entry is as it was. */
  lemma RecoveryInWorld(w: World, c: ClientId, pass: Pass) returns (events: seq<Event>, intent: Option<CloseRecord>)
    requires Reachable(w) && c in w.clients && |w.chain| > 0
    requires Enabled(w, BeginReconcile(c, pass)) && pass.given.None? && OwnEntry(pass, w.clients[c].mem)
    ensures IsRun(w, events)
    ensures var w', mem := Final(w, events), w.clients[c].mem;
            var p := mem.inProgress.value;
            && w'.fs == w.fs && c in w'.clients && w'.clients[c].task == Reconciling(pass, Reconciled)
            && (w'.clients[c].mem.inProgress.None? <==> LastTurnIs(w, c, p.op))
            && (if LastTurnIs(w, c, p.op)
                then Completes(pass, mem, p.op, p.sha256, |w.chain| - 2, w'.clients[c].mem, intent)
                else Continues(pass, mem, w'.clients[c].mem, intent))
  {
    ReachableInv(w);
    LastIsRead(w);
    var sys := Sys(Calm(w.fs), w.clients[c].mem);
    var m := ManifestOf(w.chain[|w.chain| - 1]);
    LandedIsLast(w, c, pass, m);
    RecoveryIsExact(FULL, pass, sys, m);
    assert ClientOk(w, c, w.clients[c]);
    events := ReconcilesAlone(w, c, pass);
    intent := IntentOn(FULL, pass, sys, FirstStep(pass, sys.mem));
  }

  lemma LandedIsLast(w: World, c: ClientId, pass: Pass, m: Manifest)
    requires Reachable(w) && c in w.clients && |w.chain| > 0 && pass.client == c && pass.game == w.game
    requires OwnEntry(pass, w.clients[c].mem) && ParseManifest(w.chain[|w.chain| - 1].content) == Some(m)
    ensures Landed(m, w.clients[c].mem.inProgress.value) <==> LastTurnIs(w, c, w.clients[c].mem.inProgress.value.op)
    ensures m.sequence == |w.chain| - 1
  {
    ReachableInv(w);
    assert BlockOk(w, |w.chain| - 1);
    JournalAttributionIsExact(w, c, m);
    EntryIsAttributed(pass, m, w.clients[c].mem.inProgress.value);
  }

  // ----- with the evidence of a call that has just returned -----

  /** The evidence names a turn of the chain, with its size and sender. */
  ghost predicate NamesTurn(w: World, c: ClientId, ev: HandoffEvidence) {
    && 0 < ev.result < |w.chain| && ev.source + 1 == ev.result
    && var b := w.chain[ev.result];
       && b.client == c && b.op == ev.op && Parses(b)
       && var m := ManifestOf(b);
          && m.sequence == ev.result && m.lastOp == Some(ev.op) && m.lastSender == Some(ev.player)
          && m.save == Some(m.save.value) && m.save.value.sha256 == ev.sha256 && m.save.value.size == ev.size
  }

  lemma GivenNamesTurn(w: World, c: ClientId, pass: Pass)
    requires Inv(w) && c in w.clients && Enabled(w, BeginReconcile(c, pass)) && pass.given.Some?
    ensures NamesTurn(w, c, pass.given.value) && pass.given.value.player == w.clients[c].task.req.player
  {
    assert ClientOk(w, c, w.clients[c]);
    GivenEvidence(w, c, pass);
    var held := w.clients[c].task.step.result.manifest.value;
    assert InChain(w.chain, held) && BlockOk(w, held.sequence);
  }

  lemma ProvenIsLast(w: World, c: ClientId, pass: Pass, m: Manifest, ev: HandoffEvidence)
    requires Inv(w) && |w.chain| > 0 && NamesTurn(w, c, ev) && ev.player == pass.player
    requires ParseManifest(w.chain[|w.chain| - 1].content) == Some(m)
    ensures StillProven(pass, m, ev) <==> ev.result == |w.chain| - 1
  {
    assert BlockOk(w, |w.chain| - 1);
    if m.sequence > 0 { assert m.hashes[m.sequence - 1] in m.hashes; }
  }

  lemma NamedIsLast(w: World, c: ClientId, ev: HandoffEvidence)
    requires Reachable(w) && NamesTurn(w, c, ev)
    ensures ev.result == |w.chain| - 1 <==> LastTurnIs(w, c, ev.op)
  {
    if LastTurnIs(w, c, ev.op) { OperationCommitsOnce(w, ev.result, |w.chain| - 1); }
  }

  /** With the evidence a call has just returned: its operation is completed if and only if
      its turn is still the last one; otherwise only a stored entitlement is looked at. */
  lemma FreshEvidenceInWorld(w: World, c: ClientId, pass: Pass)
    returns (events: seq<Event>, intent: Option<CloseRecord>)
    requires Reachable(w) && c in w.clients && |w.chain| > 0
    requires Enabled(w, BeginReconcile(c, pass)) && pass.given.Some?
    requires Applies(w.clients[c].mem, pass.given.value) && w.clients[c].task.req.player == pass.player
    ensures IsRun(w, events)
    ensures var w', mem, ev := Final(w, events), w.clients[c].mem, pass.given.value;
            && c in w'.clients && w'.clients[c].task == Reconciling(pass, Reconciled)
            && (if LastTurnIs(w, c, ev.op)
                then Completes(pass, mem, ev.op, ev.sha256, ev.source, w'.clients[c].mem, intent)
                else Continues(pass, mem, w'.clients[c].mem, intent))
  {
    ReachableInv(w);
    LastIsRead(w);
    var ev, m := pass.given.value, ManifestOf(w.chain[|w.chain| - 1]);
    GivenNamesTurn(w, c, pass);
    ProvenIsLast(w, c, pass, m, ev);
    NamedIsLast(w, c, ev);
    var sys := Sys(Calm(w.fs), w.clients[c].mem);
    FreshEvidenceIsExact(FULL, pass, sys, m, ev);
    assert ClientOk(w, c, w.clients[c]);
    events := ReconcilesAlone(w, c, pass);
    intent := IntentOn(FULL, pass, sys, FirstStep(pass, sys.mem));
  }
}
