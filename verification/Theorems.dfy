/** What every run guarantees, whatever the interleaving, faults, crashes and repairs. */
module Theorems {
  import opened Domain
  import opened Storage
  import opened HashClassify
  import opened Handoff
  import opened Initialize
  import opened Evidence
  import opened World
  import opened Invariant
  import opened Stability
  import opened Commit
  import opened HandoffSafety
  import opened Safety
  import opened Runs

  function ManifestBytes(fs: Fs): Option<Content> {
    if ManifestJson in fs.files then Some(fs.files[ManifestJson]) else None
  }

  /** The replaced manifest is exactly the one this client read, under a lock that still
      names it, and the new one is one turn further. */
  ghost predicate ReplacesWhatItRead(w: World, w': World, c: ClientId) {
    && c in w.clients && w.clients[c].task.Handing?
    && w.clients[c].task.step.Work? && w.clients[c].task.step.stage == Replace
    && var req, raw := w.clients[c].task.req, w.clients[c].task.step.raw;
       && Candidate(req, raw) && req.client == c
       && ManifestBytes(w.fs) == Some(raw) && Holds(w.fs, req)
       && ManifestBytes(w'.fs) == Some(Payload(req, raw))
       && w'.chain == w.chain + [Block(Payload(req, raw), c, req.op)]
       && NextManifest(req, raw).sequence == SourceOf(raw).sequence + 1 == |w.chain|
  }

  /** The first manifest: there was none, and it is this initializer's. */
  ghost predicate CreatesTheFirst(w: World, w': World, c: ClientId) {
    && c in w.clients && w.clients[c].task.Creating?
    && ValidConfig(w.clients[c].task.cfg)
    && ManifestBytes(w.fs) == None && |w.chain| == 0
    && ManifestBytes(w'.fs) == Some(ZeroPayload(w.clients[c].task.cfg))
    && w'.chain == [Block(ZeroPayload(w.clients[c].task.cfg), c, w.clients[c].task.op)]
  }

  lemma ManifestUnchangedByOthers(w: World, e: Event)
    requires Inv(w) && Enabled(w, e) && !e.Act?
    ensures ManifestBytes(Next(w, e).fs) == ManifestBytes(w.fs) && Next(w, e).chain == w.chain
  {
  }

  /** No lost update: the manifest changes only by such a replacement. */
  lemma NoLostUpdate(w: World, e: Event)
    requires Reachable(w) && Enabled(w, e)
    ensures var w' := Next(w, e);
            || (ManifestBytes(w'.fs) == ManifestBytes(w.fs) && w'.chain == w.chain)
            || (e.Act? && (ReplacesWhatItRead(w, w', e.who) || CreatesTheFirst(w, w', e.who)))
  {
    ReachableInv(w);
    if !e.Act? {
      ManifestUnchangedByOthers(w, e);
    } else {
      ActChangesManifest(w, e.who, e.fault);
    }
  }

  lemma ReplaceChanges(w: World, c: ClientId, fault: Fault)
    requires Inv(w) && Enabled(w, Act(c, fault)) && c in w.clients
    requires w.clients[c].task.Handing? && w.clients[c].task.step.Work?
    requires w.clients[c].task.step.stage == Replace
    ensures var w' := AfterAct(w, c, fault);
            (w'.fs == w.fs && w'.chain == w.chain) || ReplacesWhatItRead(w, w', c)
  {
    var cl := w.clients[c];
    assert ClientOk(w, c, cl);
    ReplaceEffect(w, c, cl.task.req, cl.task.step.raw, fault);
    assert BlockOk(w, |w.chain| - 1);
  }

  lemma InstallChanges(w: World, c: ClientId, fault: Fault)
    requires Inv(w) && Enabled(w, Act(c, fault)) && c in w.clients
    requires w.clients[c].task.Creating? && w.clients[c].task.init == Install
    ensures var w' := AfterAct(w, c, fault);
            (w'.fs == w.fs && w'.chain == w.chain) || CreatesTheFirst(w, w', c)
  {
    var cl := w.clients[c];
    assert ClientOk(w, c, cl);
    InstallEffect(w, cl.task.cfg, cl.task.op, fault);
  }

  /** Only the commit point of a handoff and the last step of an initialization use the
      atomic replacement. */
  lemma OnlyCommitsReplace(cl: Client)
    requires WellFormedTask(cl) && NextAction(cl).Remote? && NextAction(cl).op.AtomicReplace?
    ensures || (cl.task.Handing? && cl.task.step.Work? && cl.task.step.stage == Replace)
            || (cl.task.Creating? && cl.task.init == Install)
  {
  }

  lemma ActChangesManifest(w: World, c: ClientId, fault: Fault)
    requires Inv(w) && Enabled(w, Act(c, fault))
    ensures var w' := AfterAct(w, c, fault);
            || (ManifestBytes(w'.fs) == ManifestBytes(w.fs) && w'.chain == w.chain)
            || ReplacesWhatItRead(w, w', c) || CreatesTheFirst(w, w', c)
  {
    var cl := ClientOf(w, c);
    if NextAction(cl).Local? {
    } else if NextAction(cl).op.AtomicReplace? {
      OnlyCommitsReplace(cl);
      if cl.task.Handing? { ReplaceChanges(w, c, fault); } else { InstallChanges(w, c, fault); }
    } else {
      ActKeeps(w, c, fault);
    }
  }

  // ----- the shape of the chain -----

  /** Turn rotation in closed form. */
  lemma TurnRotation(w: World, s: nat)
    requires Reachable(w) && s < |w.chain|
    ensures Parses(w.chain[0]) && Parses(w.chain[s])
    ensures var zero, m := ManifestOf(w.chain[0]), ManifestOf(w.chain[s]);
            var n := |zero.players|;
            && n > 0 && m.sequence == s && m.players == zero.players
            && m.current == zero.players[s % n]
            && (s > 0 ==> m.lastSender == Some(zero.players[(s - 1) % n]))
  {
    ReachableInv(w);
    assert BlockOk(w, s);
    if s > 0 { assert BlockOk(w, s - 1); }
  }

  /** Entry `k` of every later hash list is the hash accepted at turn `k + 1`. */
  lemma {:induction false} HashListIsHistory(w: World, s: nat, k: nat)
    requires Blocks(w) && k < s < |w.chain|
    ensures Parses(w.chain[s]) && Parses(w.chain[k + 1]) && ManifestOf(w.chain[k + 1]).save.Some?
    ensures k < |ManifestOf(w.chain[s]).hashes|
    ensures ManifestOf(w.chain[s]).hashes[k] == ManifestOf(w.chain[k + 1]).save.value.sha256
  {
    assert BlockOk(w, s) && BlockOk(w, k + 1);
    HashesGrow(w, k + 1, s);
  }

  /** The accepted list grows only by appending one hash it did not hold. */
  lemma EachTurnAppendsANewHash(w: World, s: nat)
    requires Reachable(w) && s + 1 < |w.chain|
    ensures Parses(w.chain[s]) && Parses(w.chain[s + 1]) && ManifestOf(w.chain[s + 1]).save.Some?
    ensures var before, m := ManifestOf(w.chain[s]), ManifestOf(w.chain[s + 1]);
            && m.hashes == before.hashes + [m.save.value.sha256]
            && m.save.value.sha256 !in before.hashes
  {
    ReachableInv(w);
    assert BlockOk(w, s) && BlockOk(w, s + 1);
    var before, m := ManifestOf(w.chain[s]), ManifestOf(w.chain[s + 1]);
    assert Linked(w.chain[s], w.chain[s + 1], w.issued);
    forall i | 0 <= i < |before.hashes| ensures before.hashes[i] != m.save.value.sha256 {
      assert m.hashes[i] == before.hashes[i] && m.hashes[|before.hashes|] == m.save.value.sha256;
    }
  }

  /** However many clients, operations and retries submit the same bytes, they advance
      the sequence at most once. */
  lemma AcceptedAtMostOnce(w: World, s: nat, t: nat)
    requires Reachable(w) && 0 < s < |w.chain| && 0 < t < |w.chain|
    requires Parses(w.chain[s]) && Parses(w.chain[t])
    requires ManifestOf(w.chain[s]).save.Some? && ManifestOf(w.chain[t]).save.Some?
    requires ManifestOf(w.chain[s]).save.value.sha256 == ManifestOf(w.chain[t]).save.value.sha256
    ensures s == t
  {
    ReachableInv(w);
    var top := |w.chain| - 1;
    HashListIsHistory(w, top, s - 1);
    HashListIsHistory(w, top, t - 1);
  }

  /** An operation commits at most one turn. */
  lemma OperationCommitsOnce(w: World, s: nat, t: nat)
    requires Reachable(w) && 0 < s < |w.chain| && 0 < t < |w.chain|
    requires w.chain[s].op == w.chain[t].op
    ensures s == t
  {
    ReachableInv(w);
    assert BlockOk(w, s) && BlockOk(w, t);
    AcceptedAtMostOnce(w, s, t);
  }

  // ----- the archive -----

  /** Every committed turn's save and the manifest it replaced are stored, intact, under
      the names the manifest records. */
  lemma ArchiveUnbroken(w: World, s: nat)
    requires Reachable(w) && 0 < s < |w.chain|
    ensures Parses(w.chain[s]) && Parses(w.chain[s - 1])
    ensures var m := ManifestOf(w.chain[s]);
            && m.save.Some? && m.previous.Some?
            && Stored(w.fs, m.save.value.path, Fingerprint(m.save.value.sha256, m.save.value.size))
            && Stored(w.fs, m.previous.value, FINGERPRINT(w.chain[s - 1].content))
            && m.previous.value.head == Sha256(w.chain[s - 1].content).head
  {
    ReachableInv(w);
    assert BlockOk(w, s) && ArchiveOk(w, s);
  }

  lemma ArchiveStepImmutable(w: World, e: Event)
    requires Inv(w) && Enabled(w, e)
    ensures ArchiveKept(w.fs, Next(w, e).fs)
  {
    if e.Act? { ActKeeps(w, e.who, e.fault); }
  }

  /** A published save or history object is never changed or removed. */
  lemma {:induction false} ArchiveImmutable(w: World, events: seq<Event>)
    requires Reachable(w) && IsRun(w, events)
    ensures ArchiveKept(w.fs, Final(w, events).fs)
  {
    ReachableInv(w);
    ImmutableOver(w, events);
  }

  lemma {:induction false} ImmutableOver(w: World, events: seq<Event>)
    requires Inv(w) && IsRun(w, events)
    ensures ArchiveKept(w.fs, Final(w, events).fs)
    decreases |events|
  {
    if events != [] {
      var w1 := Next(w, events[0]);
      ArchiveStepImmutable(w, events[0]);
      EventKeepsInv(w, events[0]);
      ImmutableOver(w1, events[1..]);
      forall p | Archived(p) && p in w.fs.files
        ensures p in Final(w, events).fs.files && Final(w, events).fs.files[p] == w.fs.files[p]
      {
        assert p in w1.fs.files;
      }
    }
  }

  // ----- local memory -----

  /** Every hash a client remembers as accepted or processed is in the remote list. */
  lemma TruthfulMemory(w: World, c: ClientId, d: Digest)
    requires Reachable(w) && c in w.clients
    requires d in w.clients[c].mem.accepted || d in w.clients[c].mem.processed
    ensures ManifestJson in w.fs.files && ParseManifest(w.fs.files[ManifestJson]).Some?
    ensures d in ParseManifest(w.fs.files[ManifestJson]).value.hashes
  {
    ReachableInv(w);
    assert ClientOk(w, c, w.clients[c]);
    assert d in w.clients[c].mem.accepted + w.clients[c].mem.processed;
  }

  /** Nothing is classified as merely remembered, or excluded from detection, unless it
      was sent: a hash the remote list lacks is always a new candidate. */
  lemma UnsentTurnIsNeverDiscarded(w: World, c: ClientId, d: Digest, local: PlayerId)
    requires Reachable(w) && c in w.clients
    requires ManifestJson in w.fs.files && ParseManifest(w.fs.files[ManifestJson]).Some?
    requires d !in ParseManifest(w.fs.files[ManifestJson]).value.hashes
    ensures var m, mem := ParseManifest(w.fs.files[ManifestJson]).value, w.clients[c].mem;
            d !in mem.processed && Classify(d, m, local, EvidenceFor(mem, d)) == NewCandidate
  {
    var m, mem := ParseManifest(w.fs.files[ManifestJson]).value, w.clients[c].mem;
    if d in mem.accepted || d in mem.processed { TruthfulMemory(w, c, d); }
    NewIffUnknown(d, m, local, EvidenceFor(mem, d));
  }

  // ----- attribution -----

  /** The journal is attributed exactly when this client's journalled operation installed
      the last manifest of the chain. */
  lemma JournalAttributionIsExact(w: World, c: ClientId, m: Manifest)
    requires Reachable(w) && c in w.clients && w.clients[c].mem.inProgress.Some?
    requires ManifestJson in w.fs.files && ParseManifest(w.fs.files[ManifestJson]) == Some(m)
    ensures var p := w.clients[c].mem.inProgress.value;
            var size := if m.save.Some? then Some(m.save.value.size) else None;
            var ev := AttributeJournal(m, w.game, c, p.player, p, size, None);
            && (ev.Some? <==> |w.chain| > 1 && w.chain[|w.chain| - 1].op == p.op
                              && w.chain[|w.chain| - 1].client == c)
            && (ev.Some? ==> EvidenceOk(w, c, ev.value) && ev.value.op == p.op
                             && ev.value.sha256 == p.sha256 && ev.value.result == |w.chain| - 1)
  {
    ReachableInv(w);
    var n := |w.chain| - 1;
    assert BlockOk(w, n) && ClientOk(w, c, w.clients[c]);
    var p := w.clients[c].mem.inProgress.value;
    if n > 0 && w.chain[n].op == p.op {
      assert m.hashes[m.sequence - 1] in m.hashes;
      NamedCommit(w, c, p.op, m);
    }
  }

  /** A handoff result is attributed exactly when this call's operation committed the turn
      after `source`, and the result carries that manifest. */
  lemma ResultAttributionIsExact(w: World, c: ClientId, source: nat)
    requires Reachable(w) && c in w.clients
    requires w.clients[c].task.Handing? && w.clients[c].task.step.Returned?
    ensures var req, r := w.clients[c].task.req, w.clients[c].task.step.result;
            AttributeResult(req, r, source).Some? <==>
              && (r.outcome == Outcome.Committed || r.outcome == IdempotentAck)
              && r.manifest.Some? && r.manifest.value.sequence == source + 1
              && r.manifest.value.save.Some?
              && r.manifest.value.save.value.size == FINGERPRINT(req.bytes).size
              && CommittedTurn(w.chain, c, req.op, DigestOf(req), source)
  {
    ReachableInv(w);
    assert ClientOk(w, c, w.clients[c]);
    var req, r := w.clients[c].task.req, w.clients[c].task.step.result;
    if r.outcome == Outcome.Committed || r.outcome == IdempotentAck {
      var m := r.manifest.value;
      assert InChain(w.chain, m) && BlockOk(w, m.sequence);
      if m.sequence > 0 {
        assert m.hashes[m.sequence - 1] in m.hashes;
      }
    }
  }
}
