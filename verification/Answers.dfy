/** What an undisturbed call answers: each outcome exactly when the tree, the manifest and
    the local memory say so, and the tree and memory it leaves. */
module Answers {
  import opened Domain
  import opened Storage
  import opened HashClassify
  import opened Handoff
  import opened Invariant
  import opened NoRepair
  import opened Alone
  import opened CrashAnywhere
  import opened Obstacles
  import Possible

  // ----- the manifest and the hash -----

  /** The manifest of this game that is stored, when there is one. */
  function Stands(fs: Fs, game: GameId): Option<Manifest> {
    if ManifestJson !in fs.files then None
    else
      var m := ParseManifest(fs.files[ManifestJson]);
      if m.Some? && m.value.gameId == game then m else None
  }

  predicate Latest(m: Manifest, d: Digest) {
    |m.hashes| > 0 && m.hashes[|m.hashes| - 1] == d
  }

  /** The save is the one this player has just received. */
  predicate IsIncoming(m: Manifest, req: Request) {
    Latest(m, DigestOf(req)) && m.current == req.player
  }

  /** The save is the one this player sent last, and the journal remembers the attempt. */
  predicate IsRetry(m: Manifest, mem: Memory, req: Request) {
    && Latest(m, DigestOf(req)) && m.current != req.player
    && m.lastSender == Some(req.player) && DigestOf(req) in mem.attempted
  }

  /** The tree without the upload lock. */
  function Unlocked(fs: Fs): Fs {
    Fs(fs.dirs - {LockDir}, fs.files - {LockJson})
  }

  /** The call ended with this answer, its lock released and its journal entry cleared. */
  predicate Answered(fs: Fs, mem: Memory, req: Request, last: Run, o: Outcome, m: Option<Manifest>) {
    last == Run(Unlocked(fs), mem.(inProgress := None), Returned(Fail(req, o, m)))
  }

  lemma ReleasesAnswer(req: Request, run: Run, result: HandoffResult)
    requires WellFormed(run.fs) && ValidRequest(req) && Holds(run.fs, req) && run.step == RelList(result)
    ensures Finally(req, run) == Run(Unlocked(run.fs), run.mem.(inProgress := None), Returned(result))
  {
    LockTree(run.fs);
    var fs, mem := run.fs, run.mem;
    var r1 := StepAlone(req, run);
    assert r1 == Run(fs, mem, RelRead(result));
    var r2 := StepAlone(req, r1);
    assert r2 == Run(fs, mem, RelJson(result));
    var r3 := StepAlone(req, r2);
    assert r3 == Run(fs.(files := fs.files - {LockJson}), mem, RelDir(result));
    assert Finally(req, run) == Finally(req, r1) == Finally(req, r2) == Finally(req, r3);
    DirectoryGoes(req, r3, result);
    assert r3.fs.dirs - {LockDir} == fs.dirs - {LockDir};
  }

  lemma DirectoryGoes(req: Request, run: Run, result: HandoffResult)
    requires WellFormed(run.fs) && ValidRequest(req) && run.step == RelDir(result)
    requires LockDir in run.fs.dirs && LockJson !in run.fs.files && LockJson !in run.fs.dirs
    ensures Finally(req, run) ==
              Run(run.fs.(dirs := run.fs.dirs - {LockDir}), run.mem.(inProgress := None), Returned(result))
  {
    forall q | q in run.fs.dirs + run.fs.files.Keys ensures Parent(q) != Some(LockDir) {
    }
    assert Children(run.fs, LockDir) == {};
    var r1 := StepAlone(req, run);
    assert r1 == Run(run.fs.(dirs := run.fs.dirs - {LockDir}), run.mem, RelClear(result));
    var r2 := StepAlone(req, r1);
    assert Finally(req, run) == Finally(req, r1) == Finally(req, r2) == r2;
  }

  /** What the manifest read leads to, in terms of tree and memory. */
  lemma ReadLeads(fs: Fs, mem: Memory, req: Request)
    requires WellFormed(fs) && ValidRequest(req)
    ensures var next := StepAlone(req, Run(fs, mem, ReadManifest));
            var m, d := Stands(fs, req.game), DigestOf(req);
            && next.fs == fs && next.mem == mem
            && (ManifestJson !in fs.files && ManifestJson !in fs.dirs ==>
                  next.step == RelList(Fail(req, MissingManifest, None)))
            && (m.None? && (ManifestJson in fs.files || ManifestJson in fs.dirs) ==>
                  next.step == RelList(Fail(req, InvalidManifest, None)))
            && (m.Some? && IsIncoming(m.value, req) ==> next.step == RelList(Fail(req, RejectIncoming, m)))
            && (m.Some? && IsRetry(m.value, mem, req) ==>
                  next.step == Record(HandoffResult(IdempotentAck, false, d, m)))
            && (m.Some? && !IsIncoming(m.value, req) && !IsRetry(m.value, mem, req) ==>
                  && (d in mem.accepted ==> next.step == RelList(Fail(req, JournalOnlyAck, m)))
                  && (d !in mem.accepted && d in m.value.hashes ==>
                        next.step == RelList(Fail(req, StaleReplay, m)))
                  && (d !in mem.accepted && d !in m.value.hashes ==>
                        next.step == if m.value.current == req.player then Work(UpCompare, fs.files[ManifestJson])
                                     else RelList(Fail(req, NotCurrentOwner, m))))
  {
    assert ManifestJson in fs.dirs + fs.files.Keys ==> Root in fs.dirs;
    var m := Stands(fs, req.game);
    if m.Some? { LatestIsListed(m.value, DigestOf(req)); }
  }

  lemma LatestIsListed(m: Manifest, d: Digest)
    ensures Latest(m, d) ==> d in m.hashes
  {
    if Latest(m, d) { assert m.hashes[|m.hashes| - 1] in m.hashes; }
  }

  /** The new turn of the player whose turn it is. */
  predicate IsTurn(fs: Fs, mem: Memory, req: Request) {
    var m := Stands(fs, req.game);
    && m.Some? && m.value.current == req.player
    && DigestOf(req) !in m.value.hashes && DigestOf(req) !in mem.accepted
  }

  /** Everything else under the lock is answered from the manifest and the memory alone, and
      leaves the tree as it was, without the lock. */
  lemma RefusalsAnswer(fs: Fs, mem: Memory, req: Request)
    requires WellFormed(fs) && ValidRequest(req) && Holds(fs, req)
    ensures var last := Finally(req, Run(fs, mem, ReadManifest));
            var m, d := Stands(fs, req.game), DigestOf(req);
            && (ManifestJson !in fs.files && ManifestJson !in fs.dirs ==>
                  Answered(fs, mem, req, last, MissingManifest, None))
            && (m.None? && (ManifestJson in fs.files || ManifestJson in fs.dirs) ==>
                  Answered(fs, mem, req, last, InvalidManifest, None))
            && (m.Some? && IsIncoming(m.value, req) ==> Answered(fs, mem, req, last, RejectIncoming, m))
            && (m.Some? && IsRetry(m.value, mem, req) ==>
                  last == Run(Unlocked(fs), mem.(accepted := mem.accepted + {d}, inProgress := None),
                              Returned(HandoffResult(IdempotentAck, false, d, m))))
            && (m.Some? && !IsIncoming(m.value, req) && !IsRetry(m.value, mem, req) ==>
                  && (d in mem.accepted ==> Answered(fs, mem, req, last, JournalOnlyAck, m))
                  && (d !in mem.accepted && d in m.value.hashes ==>
                        Answered(fs, mem, req, last, StaleReplay, m))
                  && (d !in mem.accepted && d !in m.value.hashes && m.value.current != req.player ==>
                        Answered(fs, mem, req, last, NotCurrentOwner, m)))
  {
    var run := Run(fs, mem, ReadManifest);
    ReadLeads(fs, mem, req);
    var next := StepAlone(req, run);
    assert Finally(req, run) == Finally(req, next);
    if next.step.RelList? {
      ReleasesAnswer(req, next, next.step.result);
    } else if next.step.Record? {
      RecordsAnswer(req, next);
    }
  }

  lemma RecordsAnswer(req: Request, run: Run)
    requires WellFormed(run.fs) && ValidRequest(req) && Holds(run.fs, req) && run.step.Record?
    ensures Finally(req, run) ==
              Run(Unlocked(run.fs), run.mem.(accepted := run.mem.accepted + {DigestOf(req)}, inProgress := None),
                  Returned(run.step.result))
  {
    var next := StepAlone(req, run);
    assert Finally(req, run) == Finally(req, next);
    ReleasesAnswer(req, next, run.step.result);
  }

  // ----- every answer under the lock -----

  lemma TurnAnswers(fs: Fs, mem: Memory, req: Request)
    requires WellFormed(fs) && ValidRequest(req) && Holds(fs, req) && IsTurn(fs, mem, req)
    ensures Candidate(req, fs.files[ManifestJson])
    ensures EndsAt(req, Run(fs, mem, ReadManifest), TurnObstacle(fs, req, fs.files[ManifestJson]),
                   Finally(req, Run(fs, mem, ReadManifest)))
  {
    var run, raw := Run(fs, mem, ReadManifest), fs.files[ManifestJson];
    var m := Stands(fs, req.game).value;
    LatestIsListed(m, DigestOf(req));
    ReadLeads(fs, mem, req);
    LockTree(fs);
    SteadyStep(req, run, raw);
    assert Finally(req, run) == Finally(req, StepAlone(req, run));
    ObstacleDecides(req, StepAlone(req, run), raw);
  }

  /** Each outcome of an undisturbed call under its lock, exactly when. */
  lemma AnswersExactlyWhen(fs: Fs, mem: Memory, req: Request)
    requires WellFormed(fs) && ValidRequest(req) && Holds(fs, req)
    ensures var o := Finally(req, Run(fs, mem, ReadManifest)).step.result.outcome;
            var m, d := Stands(fs, req.game), DigestOf(req);
            var stored := ManifestJson in fs.files || ManifestJson in fs.dirs;
            var unanswered := m.Some? && !IsIncoming(m.value, req) && !IsRetry(m.value, mem, req);
            && (o == MissingManifest <==> !stored)
            && (o == InvalidManifest <==> stored && m.None?)
            && (o == RejectIncoming <==> m.Some? && IsIncoming(m.value, req))
            && (o == IdempotentAck <==> m.Some? && IsRetry(m.value, mem, req))
            && (o == JournalOnlyAck <==> unanswered && d in mem.accepted)
            && (o == StaleReplay <==> unanswered && d !in mem.accepted && d in m.value.hashes)
            && (o == NotCurrentOwner <==>
                  m.Some? && d !in mem.accepted && d !in m.value.hashes && m.value.current != req.player)
            && (o == Committed <==> IsTurn(fs, mem, req)
                                    && TurnObstacle(fs, req, fs.files[ManifestJson]).None?)
            && (o == HardIntegrityFailure <==>
                  IsTurn(fs, mem, req)
                  && TurnObstacle(fs, req, fs.files[ManifestJson]) == Some(HardIntegrityFailure))
            && (o == TransportFailure <==>
                  IsTurn(fs, mem, req)
                  && TurnObstacle(fs, req, fs.files[ManifestJson]) == Some(TransportFailure))
  {
    var m := Stands(fs, req.game);
    if m.Some? { LatestIsListed(m.value, DigestOf(req)); }
    if IsTurn(fs, mem, req) { TurnAnswers(fs, mem, req); } else { RefusalsAnswer(fs, mem, req); }
  }

  /** On a tree with its directories and no directory in place of a name, the hard failure is
      exactly a collision: a name that the turn needs holds other bytes. */
  lemma CollisionIsHard(fs: Fs, req: Request, raw: Content)
    requires WellFormed(fs) && Candidate(req, raw)
    requires TemporaryDir in fs.dirs && SavesDir in fs.dirs && HistoryDir in fs.dirs
    requires forall p | p in fs.dirs :: !Temporary(p) && p != FinalPath(req, raw) && p != ArchivePath(raw)
    ensures TurnObstacle(fs, req, raw) != Some(TransportFailure)
    ensures TurnObstacle(fs, req, raw) == Some(HardIntegrityFailure) <==>
              || !Matches(fs, FinalPath(req, raw), FINGERPRINT(req.bytes))
              || !Matches(fs, TmpHistory(req.op), FINGERPRINT(raw))
              || !Matches(fs, ArchivePath(raw), FINGERPRINT(raw))
  {
  }

  // ----- taking the lock -----

  /** The call returned at once and changed nothing. */
  predicate Turned(fs: Fs, mem: Memory, req: Request, last: Run, o: Outcome) {
    last == Run(fs, mem, Returned(Fail(req, o, None)))
  }

  /** What a call makes of the lock it finds: its own, journalled one is resumed, any other
      readable one is held, anything else in its place is unreadable, and a free one is
      taken. */
  lemma AcquireAnswers(fs: Fs, mem: Memory, req: Request)
    requires WellFormed(fs) && ValidRequest(req)
    ensures var last := Finally(req, Run(fs, mem, AcqMkdir));
            var held := DocIn(fs);
            var free := LockDir !in fs.dirs && LockDir !in fs.files;
            && (held.Some? && OwnedBy(held.value, req) && mem.inProgress == Some(ProgressOf(req)) ==>
                  last == Finally(req, Run(fs, mem, ReadManifest)))
            && (held.Some? && !(OwnedBy(held.value, req) && mem.inProgress == Some(ProgressOf(req))) ==>
                  Turned(fs, mem, req, last, LockHeld))
            && (held.None? && !free ==> Turned(fs, mem, req, last, LockUnreadable))
            && (free && LocksDir in fs.files ==> Turned(fs, mem, req, last, LockUnreadable))
            && (free && LocksDir !in fs.files && LocksDir !in fs.dirs ==>
                  Turned(fs, mem, req, last, TransportFailure))
            && (free && LocksDir in fs.dirs ==> last == Finally(req, Acquired(req, fs, mem)))
  {
    assert LockDir in fs.dirs + fs.files.Keys ==> LocksDir in fs.dirs;
    LockTree(fs);
    if LockDir in fs.dirs {
      FoundAnswers(fs, mem, req);
    } else if LockDir !in fs.files && LocksDir in fs.dirs {
      FreeIsTaken(fs, mem, req);
    } else {
      var r0 := Run(fs, mem, AcqMkdir);
      var r1 := StepAlone(req, r0);
      assert Finally(req, r0) == Finally(req, r1) == r1;
    }
  }

  lemma FoundAnswers(fs: Fs, mem: Memory, req: Request)
    requires WellFormed(fs) && ValidRequest(req) && LockDir in fs.dirs && LocksDir in fs.dirs
    ensures var last := Finally(req, Run(fs, mem, AcqMkdir));
            var held := DocIn(fs);
            if held.None? then Turned(fs, mem, req, last, LockUnreadable)
            else if OwnedBy(held.value, req) && mem.inProgress == Some(ProgressOf(req))
            then last == Finally(req, Run(fs, mem, ReadManifest))
            else Turned(fs, mem, req, last, LockHeld)
  {
    LockTree(fs);
    var r0 := Run(fs, mem, AcqMkdir);
    var r1 := StepAlone(req, r0);
    assert r1 == Run(fs, mem, ResList);
    var r2 := StepAlone(req, r1);
    assert r2 == Run(fs, mem, ResRead);
    var r3 := StepAlone(req, r2);
    assert Finally(req, r0) == Finally(req, r1) == Finally(req, r2) == Finally(req, r3);
    ReadLockLeads(fs, mem, req);
    if r3.step.ResKind? {
      var r4 := StepAlone(req, r3);
      assert r4 == Run(fs, mem, Returned(Fail(req, LockUnreadable, None)));
      assert Finally(req, r3) == Finally(req, r4) == r4;
    }
  }

  lemma ReadLockLeads(fs: Fs, mem: Memory, req: Request)
    requires WellFormed(fs) && ValidRequest(req) && LockDir in fs.dirs
    ensures var next := StepAlone(req, Run(fs, mem, ResRead));
            var held := DocIn(fs);
            && next.fs == fs && next.mem == mem
            && next.step ==
                 (if LockJson in fs.dirs then ResKind(DocumentDirectory)
                  else if held.None? then Returned(Fail(req, LockUnreadable, None))
                  else if OwnedBy(held.value, req) && mem.inProgress == Some(ProgressOf(req)) then ReadManifest
                  else Returned(Fail(req, LockHeld, None)))
  {
    LockTree(fs);
  }

  lemma FreeIsTaken(fs: Fs, mem: Memory, req: Request)
    requires WellFormed(fs) && ValidRequest(req) && LocksDir in fs.dirs
    requires LockDir !in fs.dirs && LockDir !in fs.files
    ensures Finally(req, Run(fs, mem, AcqMkdir)) == Finally(req, Acquired(req, fs, mem))
  {
    Possible.LockIsTaken(fs, mem, req);
    var r0 := Run(fs, mem, AcqMkdir);
    var r1 := StepAlone(req, r0);
    var r2 := StepAlone(req, r1);
    assert Finally(req, r0) == Finally(req, r1) == Finally(req, r2) == Finally(req, StepAlone(req, r2));
  }

  // ----- losing the lock, releasing it, and an uncertain commit -----

  /** The check before the commit point, whatever has become of the lock meanwhile: the call
      goes on to replace exactly while the document names it, and otherwise reports that
      ownership was lost, the tree untouched. */
  lemma OwnershipExactlyWhen(fs: Fs, mem: Memory, req: Request, raw: Content)
    requires WellFormed(fs) && Candidate(req, raw)
    ensures var run := Run(fs, mem, Work(OwnList, raw));
            if Holds(fs, req) then Finally(req, run) == Finally(req, Run(fs, mem, Work(Replace, raw)))
            else Finally(req, run) ==
                   Finally(req, Run(fs, mem, Lost(req, raw)))
  {
    LockTree(fs);
    var r0 := Run(fs, mem, Work(OwnList, raw));
    OwnershipLeads(fs, mem, req, raw);
    var r1 := StepAlone(req, r0);
    assert Finally(req, r0) == Finally(req, r1);
    if r1.step.Work? {
      var r2 := StepAlone(req, r1);
      assert Finally(req, r1) == Finally(req, r2);
      if r2.step.Work? && r2.step.stage.OwnKind? {
        assert Finally(req, r2) == Finally(req, StepAlone(req, r2));
      }
    }
  }

  function Lost(req: Request, raw: Content): Step
    requires Candidate(req, raw)
  {
    RelList(Fail(req, LockOwnershipLost, Some(SourceOf(raw))))
  }

  lemma OwnershipLeads(fs: Fs, mem: Memory, req: Request, raw: Content)
    requires WellFormed(fs) && Candidate(req, raw)
    ensures StepAlone(req, Run(fs, mem, Work(OwnList, raw))) ==
              Run(fs, mem, if LockDir in fs.dirs then Work(OwnRead, raw)
                           else if LockDir in fs.files then Work(OwnKind(LockFile), raw) else Lost(req, raw))
    ensures LockDir in fs.dirs ==>
              StepAlone(req, Run(fs, mem, Work(OwnRead, raw))) ==
                Run(fs, mem, if LockJson in fs.dirs then Work(OwnKind(DocumentDirectory), raw)
                             else if Holds(fs, req) then Work(Replace, raw) else Lost(req, raw))
    ensures LockDir in fs.files ==>
              StepAlone(req, Run(fs, mem, Work(OwnKind(LockFile), raw))) == Run(fs, mem, Lost(req, raw))
    ensures LockJson in fs.dirs ==>
              StepAlone(req, Run(fs, mem, Work(OwnKind(DocumentDirectory), raw))) == Run(fs, mem, Lost(req, raw))
  {
    OwnReadLeads(fs, mem, req, raw);
    OwnKindLeads(fs, mem, req, raw);
  }

  lemma OwnReadLeads(fs: Fs, mem: Memory, req: Request, raw: Content)
    requires WellFormed(fs) && Candidate(req, raw)
    ensures LockDir in fs.dirs ==>
              StepAlone(req, Run(fs, mem, Work(OwnRead, raw))) ==
                Run(fs, mem, if LockJson in fs.dirs then Work(OwnKind(DocumentDirectory), raw)
                             else if Holds(fs, req) then Work(Replace, raw) else Lost(req, raw))
  {
    assert LockJson in fs.dirs ==> LockJson !in fs.files;
  }

  lemma OwnKindLeads(fs: Fs, mem: Memory, req: Request, raw: Content)
    requires WellFormed(fs) && Candidate(req, raw)
    ensures LockDir in fs.files ==>
              StepAlone(req, Run(fs, mem, Work(OwnKind(LockFile), raw))) == Run(fs, mem, Lost(req, raw))
    ensures LockJson in fs.dirs ==>
              StepAlone(req, Run(fs, mem, Work(OwnKind(DocumentDirectory), raw))) == Run(fs, mem, Lost(req, raw))
  {
    assert LockDir in fs.files ==> LockDir !in fs.dirs;
    assert LockJson in fs.dirs ==> LockJson !in fs.files;
  }

  /** A release, whatever it finds: its own lock is removed; one that is absent or names
      another request is left alone and the journal entry cleared; one that cannot be read
      makes the answer ambiguous and keeps everything. */
  lemma ReleaseAnswers(fs: Fs, mem: Memory, req: Request, result: HandoffResult)
    requires WellFormed(fs) && ValidRequest(req)
    ensures var last := Finally(req, Run(fs, mem, RelList(result)));
            var absent := LockDir !in fs.dirs && LockDir !in fs.files;
            last == (if Holds(fs, req) then Run(Unlocked(fs), mem.(inProgress := None), Returned(result))
                     else if absent || DocIn(fs).Some? then Run(fs, mem.(inProgress := None), Returned(result))
                     else Run(fs, mem, Returned(Ambiguous(result))))
  {
    LockTree(fs);
    assert LockJson in fs.dirs + fs.files.Keys ==> LockDir in fs.dirs;
    var r0 := Run(fs, mem, RelList(result));
    if Holds(fs, req) {
      ReleasesAnswer(req, r0, result);
    } else {
      ReleaseLeads(fs, mem, req, result);
      var r1 := StepAlone(req, r0);
      assert Finally(req, r0) == Finally(req, r1);
      var r2 := StepAlone(req, r1);
      assert Finally(req, r1) == Finally(req, r2);
      if !r2.step.Returned? { assert Finally(req, r2) == Finally(req, StepAlone(req, r2)); }
    }
  }

  lemma ReleaseLeads(fs: Fs, mem: Memory, req: Request, result: HandoffResult)
    requires WellFormed(fs) && ValidRequest(req) && !Holds(fs, req)
    ensures var unsure := Returned(Ambiguous(result));
            && StepAlone(req, Run(fs, mem, RelList(result))) ==
                 Run(fs, mem, if LockDir in fs.dirs then RelRead(result)
                              else if LockDir in fs.files then RelKind(result, LockFile) else RelClear(result))
            && (LockDir in fs.dirs ==>
                  StepAlone(req, Run(fs, mem, RelRead(result))) ==
                    Run(fs, mem, if LockJson in fs.dirs then RelKind(result, DocumentDirectory)
                                 else if DocIn(fs).Some? then RelClear(result) else unsure))
            && (LockDir in fs.files ==> StepAlone(req, Run(fs, mem, RelKind(result, LockFile))) == Run(fs, mem, unsure))
            && (LockJson in fs.dirs ==>
                  StepAlone(req, Run(fs, mem, RelKind(result, DocumentDirectory))) == Run(fs, mem, unsure))
            && StepAlone(req, Run(fs, mem, RelClear(result))) ==
                 Run(fs, mem.(inProgress := None), Returned(result))
  {
    assert LockDir in fs.files ==> LockDir !in fs.dirs;
    assert LockJson in fs.dirs ==> LockJson !in fs.files;
  }

  /** After a lost response to the replacement: acknowledged exactly when the manifest is
      byte for byte the intended one; otherwise the lock is kept. */
  lemma UncertainAnswers(fs: Fs, mem: Memory, req: Request, raw: Content)
    requires WellFormed(fs) && Candidate(req, raw) && Holds(fs, req)
    ensures var last := Finally(req, Run(fs, mem, Uncertain(raw)));
            var m, d := Stands(fs, req.game), DigestOf(req);
            if m.Some? && fs.files[ManifestJson] == Payload(req, raw)
            then last == Run(Unlocked(fs), mem.(accepted := mem.accepted + {d}, inProgress := None),
                             Returned(HandoffResult(IdempotentAck, false, d, m)))
            else last == Run(fs, mem, Returned(Fail(req, TransportFailure, m)))
  {
    assert ManifestJson in fs.dirs + fs.files.Keys ==> Root in fs.dirs;
    var r0 := Run(fs, mem, Uncertain(raw));
    var r1 := StepAlone(req, r0);
    assert Finally(req, r0) == Finally(req, r1);
    if r1.step.Record? { RecordsAnswer(req, r1); }
  }

  /** A lost request or response under the lock: the call reports a transport failure and
      keeps lock and journal entry, except that a lost replacement is looked at once more. */
  lemma LossKeepsTheLock(req: Request, mem: Memory, s: Step)
    requires WellFormedStep(req, s) && (s.ReadManifest? || s.Work? || s.Uncertain?)
    ensures var s' := OnReply(req, mem, s, Failed(Transport));
            if s.Work? && s.stage == Replace then s' == Uncertain(s.raw)
            else s'.Returned? && s'.result.outcome == TransportFailure && !s'.result.changed
                 && s'.result.sha256 == DigestOf(req)
  {
    if s.Work? && Uploading(s.stage) { LostUpload(req, s.stage, s.raw); }
    else if s.Work? && Archiving(s.stage) { LostArchive(req, s.stage, s.raw); }
  }

  lemma LostUpload(req: Request, stage: Stage, raw: Content)
    requires Candidate(req, raw) && Uploading(stage)
    ensures var s := OnUpload(req, stage, raw, Failed(Transport));
            s.Returned? && s.result.outcome == TransportFailure
  {
  }

  lemma LostArchive(req: Request, stage: Stage, raw: Content)
    requires Candidate(req, raw) && Archiving(stage)
    ensures var s := OnArchive(req, stage, raw, Failed(Transport));
            s.Returned? && s.result.outcome == TransportFailure
  {
  }

  /** A loss while taking or releasing the lock. */
  lemma LossAroundTheLock(req: Request, mem: Memory, s: Step)
    requires WellFormedStep(req, s)
    ensures s.AcqMkdir? || s.ResList? || s.ResRead? || s.ResKind? ==>
              OnReply(req, mem, s, Failed(Transport)) == Returned(Fail(req, TransportFailure, None))
    ensures s.AcqWrite? ==>
              && OnReply(req, mem, s, Failed(Transport)) == AcqBegin(false)
              && OnLocal(req, mem, AcqBegin(false)).1 == Returned(Fail(req, TransportFailure, None))
    ensures s.RelList? || s.RelRead? || s.RelKind? || s.RelJson? || s.RelDir? ==>
              OnReply(req, mem, s, Failed(Transport)) == Returned(Ambiguous(s.result))
  {
  }
}
