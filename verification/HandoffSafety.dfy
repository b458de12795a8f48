/** Every step of a handoff keeps what the client itself must know. */
module HandoffSafety {
  import opened Domain
  import opened Storage
  import opened HashClassify
  import opened Handoff
  import opened World
  import opened Invariant
  import opened Stability
  import opened Commit

  /** One storage operation that installed nothing. */
  ghost predicate Touched(w: World, w': World, op: Op, fault: Fault) {
    && w'.fs == Exec(w.fs, op, fault).0
    && w'.chain == w.chain && w'.game == w.game && w'.issued == w.issued
  }

  lemma ResultSame(w: World, w': World, c: ClientId, began: nat, req: Request, r: HandoffResult)
    requires w'.chain == w.chain && ResultOk(w, c, began, req, r)
    ensures ResultOk(w', c, began, req, r)
  {
  }

  lemma GaveOk(w: World, c: ClientId, began: nat, req: Request, s: Step)
    requires Gave(req, s) && Quiet(w, c, began)
    ensures StepOk(w, c, began, req, s)
  {
  }

  // ----- work before the commit point -----

  lemma WorkIsHarmless(w: World, req: Request, stage: Stage, raw: Content)
    requires Candidate(req, raw) && stage != Replace
    requires req.op in w.issued && w.issued[req.op].client == req.client
    ensures Harmless(w, req.client, WorkOp(req, stage, raw))
  {
  }

  lemma WorkBase(w: World, w': World, req: Request, stage: Stage, raw: Content, fault: Fault)
    requires WorkOk(w, req, stage, raw) && stage != Replace
    requires req.op in w.issued && w.issued[req.op].client == req.client
    requires Touched(w, w', WorkOp(req, stage, raw), fault)
    ensures WorkOk(w', req, UpCompare, raw)
    ensures Stored(w.fs, FinalPath(req, raw), FINGERPRINT(req.bytes)) ==>
              Stored(w'.fs, FinalPath(req, raw), FINGERPRINT(req.bytes))
    ensures Stored(w.fs, ArchivePath(raw), FINGERPRINT(raw)) ==>
              Stored(w'.fs, ArchivePath(raw), FINGERPRINT(raw))
    ensures stage != StageManifest && TmpManifest(req.op) in w'.fs.files ==>
              TmpManifest(req.op) in w.fs.files
              && w'.fs.files[TmpManifest(req.op)] == w.fs.files[TmpManifest(req.op)]
  {
    WorkIsHarmless(w, req, stage, raw);
    HarmlessGuarantee(w, w', req.client, WorkOp(req, stage, raw), fault);
    assert DocIn(w'.fs) == DocIn(w.fs);
    assert Archived(FinalPath(req, raw)) && Archived(ArchivePath(raw));
  }

  lemma UploadStep(w: World, w': World, req: Request, stage: Stage, raw: Content, fault: Fault)
    requires WorkOk(w, req, stage, raw) && Uploading(stage) && fault != Corrupt
    requires req.op in w.issued && w.issued[req.op].client == req.client
    requires Touched(w, w', WorkOp(req, stage, raw), fault)
    ensures var s := OnUpload(req, stage, raw, Exec(w.fs, WorkOp(req, stage, raw), fault).1);
            Gave(req, s) || (s.Work? && s.raw == raw && WorkOk(w', req, s.stage, raw))
  {
    WorkBase(w, w', req, stage, raw, fault);
    var s := OnUpload(req, stage, raw, Exec(w.fs, WorkOp(req, stage, raw), fault).1);
    if !Gave(req, s) {
      if s.stage == HistCompare {
        assert stage == FinalCheck;
      } else {
        assert StageRank(s.stage) > 11;
      }
    }
  }

  /** What a step of archiving may lead to: it ends only on a read-back that matched
      the archived manifest. */
  ghost predicate ArchiveMoves(req: Request, stage: Stage, raw: Content, r: Reply, s: Step)
    requires Candidate(req, raw)
  {
    || Gave(req, s)
    || (s.Work? && s.raw == raw && 5 < StageRank(s.stage) <= 11)
    || (s == Work(StageManifest, raw) && WorkOp(req, stage, raw) == Read(ArchivePath(raw))
        && r.Data? && FINGERPRINT(r.content) == FINGERPRINT(raw))
  }

  lemma ArchiveNext(req: Request, stage: Stage, raw: Content, r: Reply)
    requires Candidate(req, raw) && Archiving(stage)
    ensures ArchiveMoves(req, stage, raw, r, OnArchive(req, stage, raw, r))
  {
  }

  lemma ArchiveStep(w: World, w': World, req: Request, stage: Stage, raw: Content, fault: Fault, s: Step)
    requires WorkOk(w, req, stage, raw) && Archiving(stage) && fault != Corrupt
    requires req.op in w.issued && w.issued[req.op].client == req.client
    requires Touched(w, w', WorkOp(req, stage, raw), fault)
    requires ArchiveMoves(req, stage, raw, Exec(w.fs, WorkOp(req, stage, raw), fault).1, s)
    ensures Gave(req, s) || (s.Work? && s.raw == raw && WorkOk(w', req, s.stage, raw))
  {
    WorkBase(w, w', req, stage, raw, fault);
    assert Stored(w'.fs, FinalPath(req, raw), FINGERPRINT(req.bytes));
    if !Gave(req, s) {
      if s.stage == StageManifest {
        ReadStored(w.fs, ArchivePath(raw), fault, FINGERPRINT(raw));
      }
      WorkLifts(w', req, s.stage, raw);
    }
  }

  lemma ReadStored(fs: Fs, p: Path, fault: Fault, fp: Fingerprint)
    requires fault != Corrupt && var r := Exec(fs, Read(p), fault).1; r.Data? && FINGERPRINT(r.content) == fp
    ensures Stored(fs, p, fp)
  {
  }

  /** Once the objects a later stage relies on are stored, that stage is entered safely. */
  lemma WorkLifts(w: World, req: Request, stage: Stage, raw: Content)
    requires WorkOk(w, req, UpCompare, raw) && StageRank(stage) > 4
    requires StageRank(stage) <= 11 ==> Stored(w.fs, FinalPath(req, raw), FINGERPRINT(req.bytes))
    requires StageRank(stage) <= 5 ==> Stored(w.fs, ArchivePath(raw), FINGERPRINT(raw))
    ensures WorkOk(w, req, stage, raw)
  {
  }

  lemma CommitStep(w: World, w': World, req: Request, stage: Stage, raw: Content, fault: Fault)
    requires WorkOk(w, req, stage, raw) && fault != Corrupt
    requires stage == StageManifest || stage == OwnList || stage == OwnRead || stage.OwnKind?
    requires req.op in w.issued && w.issued[req.op].client == req.client
    requires Touched(w, w', WorkOp(req, stage, raw), fault)
    ensures var s := OnCommit(req, stage, raw, Exec(w.fs, WorkOp(req, stage, raw), fault).1);
            Gave(req, s) || (s.Work? && s.raw == raw && WorkOk(w', req, s.stage, raw))
  {
    WorkBase(w, w', req, stage, raw, fault);
  }

  // ----- the commit point -----

  /** Either the staged manifest replaced exactly what was read, or nothing changed. */
  lemma ReplaceEffect(w: World, c: ClientId, req: Request, raw: Content, fault: Fault)
    requires WorkOk(w, req, Replace, raw) && fault != Corrupt
    ensures var op := WorkOp(req, Replace, raw);
            var (fs', r) := Exec(w.fs, op, fault);
            || (fs' == w.fs && r.Failed?)
            || (&& w.fs.files[ManifestJson] == raw
                && fs' == w.fs.(files := (w.fs.files - {TmpManifest(req.op)})[ManifestJson := Payload(req, raw)])
                && fs' != w.fs
                && (r == Ok || r == Failed(Transport)))
  {
    var op := WorkOp(req, Replace, raw);
    var fs' := Exec(w.fs, op, fault).0;
    if fault != Before && OpError(w.fs, op).None? {
      assert TmpManifest(req.op) in w.fs.files && TmpManifest(req.op) !in fs'.files;
    }
  }

  lemma AdvancedHere(w: World, w': World, began: nat, req: Request, raw: Content)
    requires ChainOk(w) && |w.chain| > 0 && w.chain[|w.chain| - 1].content == raw
    requires Installed(w, w', req, raw) && Quiet(w, req.client, began) && began <= |w.chain|
    requires BlockOk(w', |w.chain|)
    ensures var r := HandoffResult(Committed, true, DigestOf(req), Some(NextManifest(req, raw)));
            ResultOk(w', req.client, began, req, r)
    ensures Accepted(w'.chain, DigestOf(req))
  {
    var n, m := |w.chain|, NextManifest(req, raw);
    assert ParseManifest(w'.chain[n].content) == Some(m);
    assert m.sequence == n;
    forall i: nat | began <= i < |w'.chain| && i != n ensures w'.chain[i].client != req.client {
      assert w'.chain[i] == w.chain[i];
    }
    assert m.hashes[|m.hashes| - 1] == DigestOf(req);
  }

  // ----- reads that decide -----

  /** What a manifest read returns is the last block. */
  lemma ReadsLast(w: World, fault: Fault, m: Manifest, raw: Content)
    requires ChainOk(w) && fault != Corrupt
    requires ReadOutcome(w.game, Exec(w.fs, Read(ManifestJson), fault).1) == ReadOk(m, raw)
    ensures |w.chain| > 0 && w.chain[|w.chain| - 1].content == raw
    ensures ParseManifest(raw) == Some(m) && m.sequence == |w.chain| - 1 && InChain(w.chain, m)
    ensures w.fs.files[ManifestJson] == raw
  {
    assert BlockOk(w, |w.chain| - 1);
  }

  lemma OnReadOkOk(w: World, w': World, c: ClientId, began: nat, req: Request, mem: Memory, m: Manifest, raw: Content)
    requires ValidRequest(req) && ParseManifest(raw) == Some(m) && m.gameId == req.game
    requires Quiet(w', c, began) && w'.fs == w.fs && w'.chain == w.chain
    requires InChain(w.chain, m) && w.chain[m.sequence].content == raw && m.sequence == |w.chain| - 1
    requires ManifestJson in w.fs.files && w.fs.files[ManifestJson] == raw
    ensures StepOk(w', c, began, req, OnReadOk(req, mem, m, raw))
  {
    var s := OnReadOk(req, mem, m, raw);
    NewIffUnknown(DigestOf(req), m, req.player, EvidenceFor(mem, DigestOf(req)));
    if s.Record? {
      assert m.hashes[|m.hashes| - 1] in m.hashes;
    } else if s.Work? {
      assert WorkOk(w', req, UpCompare, raw);
    } else {
      GaveOk(w', c, began, req, s);
    }
  }

  lemma OnManifestOk(w: World, w': World, c: ClientId, began: nat, req: Request, mem: Memory, fault: Fault)
    requires ChainOk(w) && fault != Corrupt && ValidRequest(req) && req.game == w.game
    requires Quiet(w, c, began) && Touched(w, w', Read(ManifestJson), fault)
    ensures StepOk(w', c, began, req, OnManifest(req, mem, Exec(w.fs, Read(ManifestJson), fault).1))
  {
    var r := Exec(w.fs, Read(ManifestJson), fault).1;
    match ReadOutcome(req.game, r)
    case ReadOk(m, raw) =>
      ReadsLast(w, fault, m, raw);
      OnReadOkOk(w, w', c, began, req, mem, m, raw);
    case _ => GaveOk(w', c, began, req, OnManifest(req, mem, r));
  }

  lemma OnUncertainOk(w: World, w': World, c: ClientId, began: nat, req: Request, raw: Content, fault: Fault)
    requires ChainOk(w) && fault != Corrupt && Candidate(req, raw) && req.game == w.game
    requires Touched(w, w', Read(ManifestJson), fault)
    ensures StepOk(w', c, began, req, OnUncertain(req, raw, Exec(w.fs, Read(ManifestJson), fault).1))
  {
    var r := Exec(w.fs, Read(ManifestJson), fault).1;
    match ReadOutcome(req.game, r)
    case ReadOk(m, bytes) =>
      ReadsLast(w, fault, m, bytes);
      if bytes == Payload(req, raw) {
        assert m == NextManifest(req, raw);
        assert m.hashes[|m.hashes| - 1] == DigestOf(req);
      }
    case _ =>
  }
}
