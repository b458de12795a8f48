/** The part of `reconcile_match` that decides what became of a handoff: journal recovery,
    the evidence check, and the records it writes. */
module ReconcileCall {
  import opened Domain
  import opened Storage
  import opened Handoff
  import opened Evidence
  import opened Faults
  import FS = FakeStorage
  import opened Journal
  import opened RemoteReads
  import opened HandoffCall

  function ReconcileRank(s: ReconcileStep): nat {
    match s
    case Recover => 5 case ClearRecovered(_) => 4 case ReadAgain(_, _) => 3
    case ClearApplied(_, _) => 2 case Persist(_) => 1 case Reconciled => 0
  }

  /** The rest of a reconciliation over a storage. */
  function ReconcileOn(caps: FS.Capabilities, pass: Pass, sys: Sys, s: ReconcileStep): (last: Sys)
    requires WellFormedReconcile(sys.mem, s) && Usable(sys)
    ensures Usable(last)
    decreases ReconcileRank(s)
  {
    match ReconcileAction(s)
    case Halt => sys
    case Remote(op) =>
      var (remote, r) := FS.Respond(caps, sys.remote, op);
      ReconcileOn(caps, pass, sys.(remote := remote), OnReconcileReply(pass, sys.mem, s, r))
    case Local =>
      var (mem, s') := OnReconcileLocal(pass, sys.mem, s);
      ReconcileOn(caps, pass, sys.(mem := mem), s')
  }

  /** The close intent of the rest of a reconciliation: decided at its second read. */
  function IntentOn(caps: FS.Capabilities, pass: Pass, sys: Sys, s: ReconcileStep): (intent: Option<CloseRecord>)
    requires WellFormedReconcile(sys.mem, s) && Usable(sys)
    ensures intent.Some? ==> Licensed(pass, intent.value)
    decreases ReconcileRank(s)
  {
    match s
    case Recover =>
      var (remote, r) := FS.Respond(caps, sys.remote, Read(ManifestJson));
      IntentOn(caps, pass, sys.(remote := remote), OnReconcileReply(pass, sys.mem, s, r))
    case ClearRecovered(_) =>
      var (mem, s') := OnReconcileLocal(pass, sys.mem, s);
      IntentOn(caps, pass, sys.(mem := mem), s')
    case ReadAgain(evidence, recs) =>
      IntentAfter(pass, recs, evidence, ReadOutcome(pass.game, FS.Respond(caps, sys.remote, Read(ManifestJson)).1))
    case ClearApplied(_, _) | Persist(_) | Reconciled => None
  }

  lemma RecoverOn(caps: FS.Capabilities, pass: Pass, sys: Sys, sys': Sys, r: Reply)
    requires WellFormedReconcile(sys.mem, Recover) && Usable(sys)
    requires (sys'.remote, r) == FS.Respond(caps, sys.remote, Read(ManifestJson)) && sys'.mem == sys.mem
    ensures Usable(sys')
    ensures var s := OnReconcileReply(pass, sys.mem, Recover, r);
            && ReconcileOn(caps, pass, sys, Recover) == ReconcileOn(caps, pass, sys', s)
            && IntentOn(caps, pass, sys, Recover) == IntentOn(caps, pass, sys', s)
  {
  }

  lemma ReadOn(caps: FS.Capabilities, pass: Pass, sys: Sys, s: ReconcileStep, sys': Sys, r: Reply)
    requires WellFormedReconcile(sys.mem, s) && ReconcileAction(s).Remote? && Usable(sys)
    requires (sys'.remote, r) == FS.Respond(caps, sys.remote, Read(ManifestJson)) && sys'.mem == sys.mem
    ensures Usable(sys')
    ensures ReconcileOn(caps, pass, sys, s) ==
            ReconcileOn(caps, pass, sys', OnReconcileReply(pass, sys.mem, s, r))
  {
  }

  // ----- the same steps on the stored records -----

  function Applied(recs: Records, ev: HandoffEvidence, seen: Option<Observation>): Records {
    recs.(processed := WithHash(recs.processed, ev.sha256),
          inProgress := None,
          pending := DropExited(Entitlement(MemoryOf(recs), ev), seen))
  }

  lemma AppliedIs(recs: Records, ev: HandoffEvidence, seen: Option<Observation>)
    requires ValidRecords(recs) && Applies(MemoryOf(recs), ev)
    ensures ValidRecords(Applied(recs, ev, seen))
    ensures MemoryOf(Applied(recs, ev, seen)) == ApplyEvidence(MemoryOf(recs), ev, seen)
  {
    WithHashAdds(recs.processed, ev.sha256);
  }

  /** Marks processed and clears the journal only for the exact attributed operation. */
  method ApplyExactHandoffEvidence(recs: Records, ev: HandoffEvidence, journal: DurableHandoffJournal,
                                   seen: Option<Observation>)
    returns (recs': Records)
    requires journal.Valid() && ValidRecords(recs)
    modifies journal
    ensures journal.Valid() && ValidRecords(recs')
    ensures !Applies(MemoryOf(recs), ev) ==> recs' == recs && journal.stored == old(journal.stored)
    ensures Applies(MemoryOf(recs), ev) ==>
              MemoryOf(recs') == ApplyEvidence(MemoryOf(recs), ev, seen)
              && journal.stored == old(journal.stored).(inProgress := None)
  {
    if recs.inProgress.Some? && !Concerns(recs.inProgress.value, ev) { return recs; }
    var pending := recs.pending;
    if pending.None? && recs.association.Some? && recs.association.value.sequence == ev.source {
      pending := Some(CloseRecord(ev.op, ev.sha256, ev.source, recs.association.value.identity, false));
    }
    if pending.Some? && Exited(seen, pending.value.identity) { pending := None; }
    journal.ClearInProgress();
    AppliedIs(recs, ev, seen);
    return recs.(processed := WithHash(recs.processed, ev.sha256), inProgress := None, pending := pending);
  }

  /** What recovery leaves: the records, and the evidence it proved. */
  function Recovered(recs: Records, ev: Option<HandoffEvidence>): ReconcileStep {
    ReadAgain(ev, MemoryOf(recs))
  }

  method RecoverJournal(storage: FS.FakeStorage, journal: DurableHandoffJournal, pass: Pass, recs: Records)
    returns (recs': Records, ev: Option<HandoffEvidence>)
    requires storage.Valid() && journal.Valid() && recs == journal.stored
    requires pass.given.None?
    modifies storage, storage.faults, journal
    ensures storage.Valid() && journal.Valid() && ValidRecords(recs')
    ensures ReconcileOn(storage.capabilities, pass, old(State(storage, journal)),
                        FirstStep(pass, MemoryOf(recs))) ==
            ReconcileOn(storage.capabilities, pass, State(storage, journal), Recovered(recs', ev))
    ensures IntentOn(storage.capabilities, pass, old(State(storage, journal)),
                     FirstStep(pass, MemoryOf(recs))) ==
            IntentOn(storage.capabilities, pass, State(storage, journal), Recovered(recs', ev))
  {
    if recs.inProgress.None? { return recs, None; }
    var p := recs.inProgress.value;
    if p.player != pass.player || p.client != pass.client { return recs, None; }
    ghost var s0 := State(storage, journal);
    var read, r := ReadAuthoritativeManifest(storage, pass.game);
    RecoverOn(storage.capabilities, pass, s0, State(storage, journal), r);
    if !read.ReadOk? { return recs, None; }
    var m := read.manifest;
    var size := if m.save.Some? then Some(m.save.value.size) else None;
    ev := AttributeJournal(m, pass.game, pass.client, pass.player, p, size, None);
    if ev.None? { return recs, None; }
    recs' := ApplyExactHandoffEvidence(recs, ev.value, journal, None);
  }

  /** A close is intended only in managed mode, once, for a process seen running with
      exactly the recorded identity. */
  predicate Licensed(pass: Pass, intent: CloseRecord) {
    pass.managed && !intent.requested && pass.seen == Some(Observation(intent.identity, true))
  }

  /** The records after a successful read, with the evidence it still proves. */
  function Evident(pass: Pass, recs: Memory, proven: Option<HandoffEvidence>): Memory {
    if proven.Some? && Applies(recs, proven.value) then ApplyEvidence(recs, proven.value, pass.seen)
    else recs.(pending := DropExited(recs.pending, pass.seen))
  }

  /** What is written: a close that is intended is noted as requested. */
  function Settled(pass: Pass, recs: Memory, proven: Option<HandoffEvidence>): Memory {
    var applied := Evident(pass, recs, proven);
    MarkRequested(applied, CloseIntent(pass, applied, proven))
  }

  /** The close intent, decided after a failed read too, on the records as loaded. */
  function IntentAfter(pass: Pass, recs: Memory, evidence: Option<HandoffEvidence>, read: ManifestRead)
    : (intent: Option<CloseRecord>)
    ensures intent.Some? ==> Licensed(pass, intent.value)
  {
    if !read.ReadOk? then CloseIntent(pass, recs, evidence)
    else
      var proven := Proven(pass, read.manifest, evidence);
      CloseIntent(pass, Evident(pass, recs, proven), proven)
  }

  /** The records a reconciliation leaves after its second read. */
  function Stored(pass: Pass, recs: Memory, evidence: Option<HandoffEvidence>, read: ManifestRead): Memory {
    if read.ReadOk? then Settled(pass, recs, Proven(pass, read.manifest, evidence)) else recs
  }

  /** Whenever a close intent is emitted: its entitlement is stored and marked as requested
      if and only if the read succeeded and either it was stored before or its evidence is
      not about another operation than the one in progress; and it is stored at all if and
      only if it was stored before or that holds of a successful read. */
  lemma IntentIsStoredExactlyWhen(pass: Pass, recs: Memory, evidence: Option<HandoffEvidence>, read: ManifestRead)
    requires IntentAfter(pass, recs, evidence, read).Some?
    ensures var intent := IntentAfter(pass, recs, evidence, read).value;
            var stored := Stored(pass, recs, evidence, read).pending;
            var taken := evidence.None? || Applies(recs, evidence.value);
            && (stored == Some(intent.(requested := true)) <==> read.ReadOk? && (recs.pending.Some? || taken))
            && (stored.Some? <==> recs.pending.Some? || (read.ReadOk? && taken))
            && (stored.Some? ==> stored.value.(requested := false) == intent)
  {
    if read.ReadOk? {
      var proven := Proven(pass, read.manifest, evidence);
      assert proven.None? || proven == evidence;
    }
  }

  /** The first failing input: a read lost right after a commit.  The intent is emitted, and
      the entitlement it names is written nowhere. */
  lemma LostReadForgetsTheIntent(pass: Pass, recs: Memory, ev: HandoffEvidence, read: ManifestRead)
    requires !read.ReadOk? && pass.managed && recs.inProgress.None? && recs.pending.None?
    requires recs.association.Some? && recs.association.value.sequence == ev.source
    requires pass.seen == Some(Observation(recs.association.value.identity, true))
    ensures Applies(recs, ev)
    ensures IntentAfter(pass, recs, Some(ev), read) ==
              Some(CloseRecord(ev.op, ev.sha256, ev.source, recs.association.value.identity, false))
    ensures Stored(pass, recs, Some(ev), read).pending.None?
  {
  }

  /** The second: with the entitlement stored, a lost read leaves it unmarked. */
  lemma LostReadLeavesTheIntentUnmarked(pass: Pass, recs: Memory, read: ManifestRead)
    requires !read.ReadOk? && pass.managed && recs.pending.Some? && !recs.pending.value.requested
    requires pass.seen == Some(Observation(recs.pending.value.identity, true))
    ensures IntentAfter(pass, recs, None, read) == recs.pending == Stored(pass, recs, None, read).pending
  {
  }

  /** The third: evidence about another operation than the one in progress, not stored
      before.  It is emitted and forgotten although the read succeeded and proves it. */
  lemma ForeignEvidenceIsForgotten(pass: Pass, recs: Memory, ev: HandoffEvidence, read: ManifestRead)
    requires read.ReadOk? && StillProven(pass, read.manifest, ev) && !Applies(recs, ev)
    requires pass.managed && recs.pending.None?
    requires recs.association.Some? && recs.association.value.sequence == ev.source
    requires pass.seen == Some(Observation(recs.association.value.identity, true))
    ensures IntentAfter(pass, recs, Some(ev), read).Some? && Stored(pass, recs, Some(ev), read).pending.None?
  {
  }

  lemma PersistOn(caps: FS.Capabilities, pass: Pass, sys: Sys, recs: Memory)
    requires Usable(sys)
    ensures ReconcileOn(caps, pass, sys, Persist(recs)) == sys.(mem := recs)
  {
    assert ReconcileOn(caps, pass, sys.(mem := recs), Reconciled) == sys.(mem := recs);
  }

  lemma SettleOn(caps: FS.Capabilities, pass: Pass, sys: Sys, recs: Memory,
                 evidence: Option<HandoffEvidence>, read: ManifestRead, r: Reply)
    requires Usable(sys) && read == ReadOutcome(pass.game, r)
    ensures var s := OnReconcileReply(pass, sys.mem, ReadAgain(evidence, recs), r);
            ReconcileOn(caps, pass, sys, s) ==
              sys.(mem := Stored(pass, recs, evidence, read))
  {
    var s := OnReconcileReply(pass, sys.mem, ReadAgain(evidence, recs), r);
    if s.ClearApplied? {
      var (mem, next) := OnReconcileLocal(pass, sys.mem, s);
      assert ReconcileOn(caps, pass, sys, s) == ReconcileOn(caps, pass, sys.(mem := mem), next);
      PersistOn(caps, pass, sys.(mem := mem), next.recs);
    } else {
      PersistOn(caps, pass, sys, s.recs);
    }
  }

  function Proven(pass: Pass, m: Manifest, evidence: Option<HandoffEvidence>): Option<HandoffEvidence> {
    if evidence.Some? && StillProven(pass, m, evidence.value) then evidence else None
  }

  /** The second manifest read, the evidence check, and the records that are written.  The
      close intent is decided after a failed read too, on the records as they were loaded;
      these are then written back as they were. */
  method FinishReconcile(storage: FS.FakeStorage, journal: DurableHandoffJournal, pass: Pass,
                         loaded: Records, evidence: Option<HandoffEvidence>)
    returns (intent: Option<CloseRecord>, ghost read: ManifestRead)
    requires storage.Valid() && journal.Valid() && ValidRecords(loaded)
    modifies storage, storage.faults, journal
    ensures storage.Valid() && journal.Valid()
    ensures ReconcileOn(storage.capabilities, pass, old(State(storage, journal)), Recovered(loaded, evidence)) ==
            State(storage, journal)
    ensures read == ReadOutcome(pass.game, FS.Respond(storage.capabilities, old(storage.Value()),
                                                      Read(ManifestJson)).1)
    ensures journal.Memory() == Stored(pass, MemoryOf(loaded), evidence, read)
    ensures intent == IntentAfter(pass, MemoryOf(loaded), evidence, read)
  {
    var recs := loaded;
    ghost var s0 := State(storage, journal);
    var answer, r := ReadAuthoritativeManifest(storage, pass.game);
    read := answer;
    ghost var s1 := State(storage, journal);
    ReadOn(storage.capabilities, pass, s0, Recovered(loaded, evidence), s1, r);
    SettleOn(storage.capabilities, pass, s1, MemoryOf(loaded), evidence, read, r);
    if !answer.ReadOk? {
      journal.stored := recs;
      return CloseIntent(pass, MemoryOf(recs), evidence), read;
    }
    var proven := Proven(pass, answer.manifest, evidence);
    if proven.Some? {
      recs := ApplyExactHandoffEvidence(recs, proven.value, journal, pass.seen);
    }
    recs := recs.(pending := DropExited(recs.pending, pass.seen));
    intent := CloseIntent(pass, MemoryOf(recs), proven);
    if intent.Some? && recs.pending.Some? {
      recs := recs.(pending := Some(recs.pending.value.(requested := true)));
    }
    journal.stored := recs;
  }

  // ----- what an undisturbed reconciliation makes of a journal entry -----

  /** The stored manifest of this game, read without a fault. */
  predicate Reads(caps: FS.Capabilities, remote: FS.Remote, game: GameId, m: Manifest) {
    && FS.Full(caps) && Faultless(remote.schedule)
    && ManifestJson in remote.fs.files && ManifestJson !in remote.fs.dirs
    && ParseManifest(remote.fs.files[ManifestJson]) == Some(m) && m.gameId == game
  }

  predicate OwnEntry(pass: Pass, mem: Memory) {
    mem.inProgress.Some? && mem.inProgress.value.player == pass.player && mem.inProgress.value.client == pass.client
  }

  /** The manifest is the one that this entry's operation installed. */
  predicate Landed(m: Manifest, p: InProgress) {
    && m.sequence >= 1 && m.lastOp == Some(p.op) && m.lastSender == Some(p.player)
    && m.save.Some? && m.save.value.sha256 == p.sha256
  }

  /** The entitlement that is left when its process is known to be gone, or not. */
  function Kept(pass: Pass, pending: Option<CloseRecord>): Option<CloseRecord> {
    if pending.Some? && pass.seen == Some(Observation(pending.value.identity, false)) then None else pending
  }

  predicate Closes(pass: Pass, pending: Option<CloseRecord>) {
    && pass.managed && pending.Some? && !pending.value.requested
    && pass.seen == Some(Observation(pending.value.identity, true))
  }

  function Marked(pending: Option<CloseRecord>): Option<CloseRecord> {
    if pending.Some? then Some(pending.value.(requested := true)) else None
  }

  /** The entitlement for the turn of sequence `n` under this operation and hash: one that is
      stored already, or a new one for the process associated with that turn. */
  function EntitlementFor(mem: Memory, op: OperationId, d: Digest, n: nat): Option<CloseRecord> {
    if mem.pending.Some? then mem.pending
    else if mem.association.Some? && mem.association.value.sequence == n then
      Some(CloseRecord(op, d, n, mem.association.value.identity, false))
    else None
  }

  predicate Names(pending: Option<CloseRecord>, op: OperationId, d: Digest, n: nat) {
    pending.Some? && pending.value.op == op && pending.value.sha256 == d && pending.value.source == n
  }

  /** A completed operation: its hash is processed, the entry cleared, the entitlement
      stored unless its process is gone, and the close intended -- and noted -- exactly for
      the entitlement of this very turn. */
  predicate Completes(pass: Pass, mem: Memory, op: OperationId, d: Digest, n: nat, mem': Memory,
                      intent: Option<CloseRecord>)
  {
    var pending := Kept(pass, EntitlementFor(mem, op, d, n));
    var closes := Closes(pass, pending) && Names(pending, op, d, n);
    && mem' == mem.(processed := mem.processed + {d}, inProgress := None,
                    pending := if closes then Marked(pending) else pending)
    && intent == if closes then pending else None
  }

  /** Nothing new is proved: only the entitlement already stored is looked at. */
  predicate Continues(pass: Pass, mem: Memory, mem': Memory, intent: Option<CloseRecord>) {
    var pending := Kept(pass, mem.pending);
    && mem' == mem.(pending := if Closes(pass, pending) then Marked(pending) else pending)
    && intent == if Closes(pass, pending) then pending else None
  }

  /** What an undisturbed reconciliation without evidence of its own leaves. */
  predicate Recovers(pass: Pass, mem: Memory, m: Manifest, mem': Memory, intent: Option<CloseRecord>) {
    if OwnEntry(pass, mem) && Landed(m, mem.inProgress.value)
    then Completes(pass, mem, mem.inProgress.value.op, mem.inProgress.value.sha256, m.sequence - 1, mem', intent)
    else Continues(pass, mem, mem', intent)
  }

  lemma ReadsData(caps: FS.Capabilities, remote: FS.Remote, game: GameId, m: Manifest)
    requires Reads(caps, remote, game, m)
    ensures var (remote', r) := FS.Respond(caps, remote, Read(ManifestJson));
            && r == Data(remote.fs.files[ManifestJson]) && Reads(caps, remote', game, m)
            && ReadOutcome(game, r) == ReadOk(m, remote.fs.files[ManifestJson])
  {
  }

  /** From the second read on, with evidence that the manifest still proves, or none. */
  lemma AgainSettles(caps: FS.Capabilities, pass: Pass, sys: Sys, m: Manifest, recs: Memory,
                     evidence: Option<HandoffEvidence>)
    requires Reads(caps, sys.remote, pass.game, m)
    ensures var last := ReconcileOn(caps, pass, sys, ReadAgain(evidence, recs));
            var proven := Proven(pass, m, evidence);
            && last.mem == Settled(pass, recs, proven) && last.remote.fs == sys.remote.fs
            && IntentOn(caps, pass, sys, ReadAgain(evidence, recs)) ==
                 CloseIntent(pass, Evident(pass, recs, proven), proven)
  {
    var (remote, r) := FS.Respond(caps, sys.remote, Read(ManifestJson));
    ReadsData(caps, sys.remote, pass.game, m);
    var sys' := sys.(remote := remote);
    ReadOn(caps, pass, sys, ReadAgain(evidence, recs), sys', r);
    SettleOn(caps, pass, sys', recs, evidence, ReadOutcome(pass.game, r), r);
  }

  /** The evidence that recovery finds for an entry, if the manifest proves it. */
  lemma EntryIsAttributed(pass: Pass, m: Manifest, p: InProgress)
    requires ValidManifest(m) && m.gameId == pass.game && p.player == pass.player && p.client == pass.client
    ensures var size := if m.save.Some? then Some(m.save.value.size) else None;
            var ev := AttributeJournal(m, pass.game, pass.client, pass.player, p, size, None);
            && (ev.Some? <==> Landed(m, p))
            && (ev.Some? ==>
                  && ev.value.op == p.op && ev.value.player == p.player && ev.value.sha256 == p.sha256
                  && ev.value.source + 1 == m.sequence == ev.value.result
                  && StillProven(pass, m, ev.value))
  {
    if m.sequence >= 1 && m.save.Some? {
      assert m.hashes[m.sequence - 1] == m.save.value.sha256;
      assert m.save.value.sha256 in m.hashes;
    }
  }

  /** Journal recovery, exactly: an undisturbed reconciliation completes the operation of its
      own journal entry if and only if the manifest is the one that operation installed. */
  lemma RecoveryIsExact(caps: FS.Capabilities, pass: Pass, sys: Sys, m: Manifest)
    requires pass.given.None? && Reads(caps, sys.remote, pass.game, m)
    ensures var s := FirstStep(pass, sys.mem);
            && Recovers(pass, sys.mem, m, ReconcileOn(caps, pass, sys, s).mem, IntentOn(caps, pass, sys, s))
            && ReconcileOn(caps, pass, sys, s).remote.fs == sys.remote.fs
  {
    if OwnEntry(pass, sys.mem) {
      OwnEntryRecovers(caps, pass, sys, m);
    } else {
      AgainSettles(caps, pass, sys, m, sys.mem, None);
    }
  }

  lemma OwnEntryRecovers(caps: FS.Capabilities, pass: Pass, sys: Sys, m: Manifest)
    requires pass.given.None? && Reads(caps, sys.remote, pass.game, m) && OwnEntry(pass, sys.mem)
    ensures Recovers(pass, sys.mem, m, ReconcileOn(caps, pass, sys, Recover).mem, IntentOn(caps, pass, sys, Recover))
    ensures ReconcileOn(caps, pass, sys, Recover).remote.fs == sys.remote.fs
  {
    var p := sys.mem.inProgress.value;
    var (remote, r) := FS.Respond(caps, sys.remote, Read(ManifestJson));
    ReadsData(caps, sys.remote, pass.game, m);
    var sys1 := sys.(remote := remote);
    RecoverOn(caps, pass, sys, sys1, r);
    EntryIsAttributed(pass, m, p);
    var s := OnReconcileReply(pass, sys.mem, Recover, r);
    if s.ClearRecovered? {
      ClearedSettles(caps, pass, sys1, m, s.ev);
    } else {
      AgainSettles(caps, pass, sys1, m, sys.mem, None);
    }
  }

  /** Recovered evidence is applied once, and the second read, of the same manifest, keeps it. */
  lemma ClearedSettles(caps: FS.Capabilities, pass: Pass, sys: Sys, m: Manifest, ev: HandoffEvidence)
    requires Reads(caps, sys.remote, pass.game, m) && OwnEntry(pass, sys.mem)
    requires Concerns(sys.mem.inProgress.value, ev) && StillProven(pass, m, ev) && ev.source + 1 == m.sequence
    ensures var s := ClearRecovered(ev);
            && Completes(pass, sys.mem, ev.op, ev.sha256, ev.source, ReconcileOn(caps, pass, sys, s).mem,
                         IntentOn(caps, pass, sys, s))
            && ReconcileOn(caps, pass, sys, s).remote.fs == sys.remote.fs
  {
    var recs := ApplyEvidence(sys.mem, ev, None);
    var sys' := sys.(mem := sys.mem.(inProgress := None));
    assert OnReconcileLocal(pass, sys.mem, ClearRecovered(ev)) == (sys'.mem, ReadAgain(Some(ev), recs));
    assert ReconcileOn(caps, pass, sys, ClearRecovered(ev)) == ReconcileOn(caps, pass, sys', ReadAgain(Some(ev), recs));
    assert IntentOn(caps, pass, sys, ClearRecovered(ev)) == IntentOn(caps, pass, sys', ReadAgain(Some(ev), recs));
    AgainSettles(caps, pass, sys', m, recs, Some(ev));
    AppliedTwice(pass, sys.mem, ev);
  }

  lemma AppliedTwice(pass: Pass, mem: Memory, ev: HandoffEvidence)
    requires Applies(mem, ev)
    ensures var recs := ApplyEvidence(mem, ev, None);
            Completes(pass, mem, ev.op, ev.sha256, ev.source, Settled(pass, recs, Some(ev)),
                      CloseIntent(pass, Evident(pass, recs, Some(ev)), Some(ev)))
  {
    var recs := ApplyEvidence(mem, ev, None);
    assert recs.processed + {ev.sha256} == recs.processed;
  }

  /** The evidence a call has just returned, exactly: the operation is completed if and only
      if the manifest still proves it and it is not about another entry. */
  lemma FreshEvidenceIsExact(caps: FS.Capabilities, pass: Pass, sys: Sys, m: Manifest, ev: HandoffEvidence)
    requires pass.given == Some(ev) && Reads(caps, sys.remote, pass.game, m)
    ensures var s := FirstStep(pass, sys.mem);
            var mem', intent := ReconcileOn(caps, pass, sys, s).mem, IntentOn(caps, pass, sys, s);
            && (StillProven(pass, m, ev) && Applies(sys.mem, ev) ==>
                  Completes(pass, sys.mem, ev.op, ev.sha256, ev.source, mem', intent))
            && (!StillProven(pass, m, ev) ==> Continues(pass, sys.mem, mem', intent))
            && (!Applies(sys.mem, ev) ==>
                  mem'.inProgress == sys.mem.inProgress && mem'.processed == sys.mem.processed)
  {
    AgainSettles(caps, pass, sys, m, sys.mem, Some(ev));
  }

  /** No manifest of this game is there to be read, although nothing disturbs the reading. */
  ghost predicate NothingToRead(caps: FS.Capabilities, remote: FS.Remote, game: GameId) {
    FS.Full(caps) && Faultless(remote.schedule) && forall m :: !Reads(caps, remote, game, m)
  }

  lemma NothingIsRead(caps: FS.Capabilities, remote: FS.Remote, game: GameId)
    requires NothingToRead(caps, remote, game)
    ensures var (remote', r) := FS.Respond(caps, remote, Read(ManifestJson));
            && remote'.fs == remote.fs && NothingToRead(caps, remote', game) && !ReadOutcome(game, r).ReadOk?
  {
    var (remote', r) := FS.Respond(caps, remote, Read(ManifestJson));
    assert forall m :: Reads(caps, remote', game, m) ==> Reads(caps, remote, game, m);
    if ReadOutcome(game, r).ReadOk? { assert Reads(caps, remote, game, ReadOutcome(game, r).manifest); }
  }

  /** Without a manifest nothing is recorded, and a close is intended only for an
      entitlement that is stored already, or that the given evidence names. */
  lemma NothingReadKeeps(caps: FS.Capabilities, pass: Pass, sys: Sys)
    requires NothingToRead(caps, sys.remote, pass.game)
    ensures var s := FirstStep(pass, sys.mem);
            && ReconcileOn(caps, pass, sys, s).mem == sys.mem
            && ReconcileOn(caps, pass, sys, s).remote.fs == sys.remote.fs
            && IntentOn(caps, pass, sys, s) == CloseIntent(pass, sys.mem, pass.given)
  {
    NothingIsRead(caps, sys.remote, pass.game);
    var (remote, r) := FS.Respond(caps, sys.remote, Read(ManifestJson));
    var sys' := sys.(remote := remote);
    if FirstStep(pass, sys.mem).Recover? {
      RecoverOn(caps, pass, sys, sys', r);
      NoReadSettles(caps, pass, sys');
    } else {
      NoReadSettles(caps, pass, sys);
    }
  }

  lemma NoReadSettles(caps: FS.Capabilities, pass: Pass, sys: Sys)
    requires NothingToRead(caps, sys.remote, pass.game)
    ensures var s := ReadAgain(pass.given, sys.mem);
            && ReconcileOn(caps, pass, sys, s).mem == sys.mem
            && ReconcileOn(caps, pass, sys, s).remote.fs == sys.remote.fs
            && IntentOn(caps, pass, sys, s) == CloseIntent(pass, sys.mem, pass.given)
  {
    NothingIsRead(caps, sys.remote, pass.game);
    var (remote, r) := FS.Respond(caps, sys.remote, Read(ManifestJson));
    var sys' := sys.(remote := remote);
    ReadOn(caps, pass, sys, ReadAgain(pass.given, sys.mem), sys', r);
    SettleOn(caps, pass, sys', sys.mem, pass.given, ReadOutcome(pass.game, r), r);
  }

  /** Journal and records end exactly as the reconciliation machine leaves them, and the
      close intent is exactly the one it decides. */
  method ReconcileMatch(storage: FS.FakeStorage, journal: DurableHandoffJournal, pass: Pass)
    returns (intent: Option<CloseRecord>)
    requires storage.Valid() && journal.Valid()
    modifies storage, storage.faults, journal
    ensures storage.Valid() && journal.Valid()
    ensures State(storage, journal) ==
            ReconcileOn(storage.capabilities, pass, old(State(storage, journal)),
                        FirstStep(pass, old(journal.Memory())))
    ensures intent == IntentOn(storage.capabilities, pass, old(State(storage, journal)),
                               FirstStep(pass, old(journal.Memory())))
    ensures intent.Some? ==> Licensed(pass, intent.value)
    ensures forall m | pass.given.None? && Reads(storage.capabilities, old(storage.Value()), pass.game, m) ::
              Recovers(pass, old(journal.Memory()), m, journal.Memory(), intent)
              && storage.Value().fs == old(storage.Value()).fs
    ensures NothingToRead(storage.capabilities, old(storage.Value()), pass.game) ==>
              journal.Memory() == old(journal.Memory()) && storage.Value().fs == old(storage.Value()).fs
  {
    if NothingToRead(storage.capabilities, storage.Value(), pass.game) {
      NothingReadKeeps(storage.capabilities, pass, State(storage, journal));
    }
    forall m | pass.given.None? && Reads(storage.capabilities, storage.Value(), pass.game, m)
      ensures var s := FirstStep(pass, journal.Memory());
              && Recovers(pass, journal.Memory(), m,
                          ReconcileOn(storage.capabilities, pass, State(storage, journal), s).mem,
                          IntentOn(storage.capabilities, pass, State(storage, journal), s))
              && ReconcileOn(storage.capabilities, pass, State(storage, journal), s).remote.fs == storage.Value().fs
    {
      RecoveryIsExact(storage.capabilities, pass, State(storage, journal), m);
    }
    var recs := journal.stored;
    var evidence := pass.given;
    if evidence.None? {
      recs, evidence := RecoverJournal(storage, journal, pass, recs);
    }
    ghost var read;
    intent, read := FinishReconcile(storage, journal, pass, recs, evidence);
  }

  /** An entitlement lost that way stays lost: with no entry in progress and none stored, no
      later reconciliation without a new result's evidence stores one or intends a close. */
  lemma LostEntitlementStaysLost(caps: FS.Capabilities, pass: Pass, sys: Sys)
    requires Usable(sys) && pass.given.None? && sys.mem.inProgress.None? && sys.mem.pending.None?
    ensures ReconcileOn(caps, pass, sys, FirstStep(pass, sys.mem)).mem == sys.mem
    ensures IntentOn(caps, pass, sys, FirstStep(pass, sys.mem)).None?
  {
    var (remote, r) := FS.Respond(caps, sys.remote, Read(ManifestJson));
    var sys' := sys.(remote := remote);
    ReadOn(caps, pass, sys, ReadAgain(None, sys.mem), sys', r);
    SettleOn(caps, pass, sys', sys.mem, None, ReadOutcome(pass.game, r), r);
  }
}
