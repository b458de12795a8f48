/** The effect of one storage operation on the shared tree and the chain. */
module Commit {
  import opened Domain
  import opened Storage
  import opened HashClassify
  import opened Handoff
  import opened Initialize
  import opened World
  import opened Invariant
  import opened Stability

  /** Operations that leave the manifest alone and touch only what client `c` may touch. */
  ghost predicate Harmless(w: World, c: ClientId, op: Op) {
    match op
    case Read(_) | List(_) => true
    case Mkdir(_) => true
    case Write(p, data, overwrite) =>
      || (Temporary(p) && (p.TmpManifest? ==> p.op in w.issued && w.issued[p.op].client == c))
      || (p == LockJson && !overwrite && ParseLock(data).Some? && ParseLock(data).value.client == c)
    case Publish(s, p) => Temporary(s) && Archived(p)
    case RemoveFile(p) => p == LockJson && DocIn(w.fs).Some? && DocIn(w.fs).value.client == c
    case RemoveDir(p) => p == LockDir
    case AtomicReplace(_, _) => false
  }

  lemma HarmlessGuarantee(w: World, w': World, c: ClientId, op: Op, fault: Fault)
    requires Harmless(w, c, op)
    requires w'.fs == Exec(w.fs, op, fault).0
    requires w'.chain == w.chain && w'.game == w.game && w'.issued == w.issued
    ensures Guarantee(w, w', c)
  {
    assert w'.chain[..|w.chain|] == w.chain;
    HarmlessToLock(w, c, op, fault);
    HarmlessToArchive(w, c, op, fault);
  }

  lemma HarmlessToLock(w: World, c: ClientId, op: Op, fault: Fault)
    requires Harmless(w, c, op)
    ensures LockKept(w.fs, Exec(w.fs, op, fault).0, c)
  {
  }

  lemma HarmlessToArchive(w: World, c: ClientId, op: Op, fault: Fault)
    requires Harmless(w, c, op)
    ensures ArchiveKept(w.fs, Exec(w.fs, op, fault).0) && StagedKept(w, Exec(w.fs, op, fault).0, c)
  {
  }

  /** The blocks and their archive are untouched while no manifest is installed. */
  lemma ChainKept(w: World, w': World, c: ClientId)
    requires ChainOk(w) && Guarantee(w, w', c) && w'.chain == w.chain
    ensures ChainOk(w')
  {
    forall i: nat | i < |w'.chain| ensures BlockOk(w', i) {
      assert BlockOk(w, i);
      if i > 0 { assert Linked(w.chain[i - 1], w.chain[i], w.issued); }
    }
    forall i: nat | 0 < i < |w'.chain| ensures ArchiveOk(w', i) {
      assert BlockOk(w, i) && ArchiveOk(w, i);
    }
  }

  lemma {:induction false} IndexOfAt(players: seq<PlayerId>, j: nat)
    requires Distinct(players) && j < |players|
    ensures IndexOf(players, players[j]) == j
  {
    var i := IndexOf(players, players[j]);
    assert players[i] == players[j];
  }

  lemma NextMod(s: nat, n: nat)
    requires n > 0
    ensures (s % n + 1) % n == (s + 1) % n
  {
    var q, r := s / n, s % n;
    if r + 1 < n {
      ModOf(s + 1, n, q, r + 1);
    } else {
      MulNext(n, q);
      ModOf(s + 1, n, q + 1, 0);
    }
  }

  lemma MulNext(n: nat, q: nat)
    ensures n * (q + 1) == n * q + n
  {
  }

  lemma ModOf(x: nat, n: nat, q: nat, r: nat)
    requires r < n && x == n * q + r
    ensures x % n == r
  {
    var d, e := x / n, x % n;
    MulGap(n, q, d);
    MulGap(n, d, q);
  }

  lemma MulGap(n: nat, a: nat, b: nat)
    ensures a < b ==> n * a + n <= n * b
  {
    if a < b {
      MulNext(n, a);
      MulMonotone(n, a + 1, b);
    }
  }

  lemma MulMonotone(n: nat, a: nat, b: nat)
    requires a <= b
    ensures n * a <= n * b
  {
  }

  /** The world right after `Payload(req, raw)` replaced `raw`. */
  ghost predicate Installed(w: World, w': World, req: Request, raw: Content) {
    && Candidate(req, raw)
    && w'.game == w.game && w'.issued == w.issued
    && w'.chain == w.chain + [Block(Payload(req, raw), req.client, req.op)]
    && w'.fs == w.fs.(files := (w.fs.files - {TmpManifest(req.op)})[ManifestJson := Payload(req, raw)])
  }

  lemma NewBlock(w: World, w': World, req: Request, raw: Content)
    requires ChainOk(w) && Installed(w, w', req, raw)
    requires |w.chain| > 0 && w.chain[|w.chain| - 1].content == raw
    requires req.game == w.game && req.op in w.issued && w.issued[req.op] == IssueOf(req)
    ensures BlockOk(w', |w.chain|)
  {
    var n := |w.chain|;
    assert BlockOk(w, n - 1) && BlockOk(w, 0);
    var p, m := SourceOf(raw), NextManifest(req, raw);
    var k := |p.players|;
    assert w'.chain[n - 1] == w.chain[n - 1] && w'.chain[0] == w.chain[0];
    assert ParseManifest(w'.chain[n].content) == Some(m);
    IndexOfAt(p.players, (n - 1) % k);
    NextMod(n - 1, k);
    assert m.current == p.players[n % k];
    assert Linked(w'.chain[n - 1], w'.chain[n], w'.issued);
  }

  lemma InstalledChainOk(w: World, w': World, req: Request, raw: Content)
    requires ChainOk(w) && Installed(w, w', req, raw)
    requires |w.chain| > 0 && w.chain[|w.chain| - 1].content == raw
    requires req.game == w.game && req.op in w.issued && w.issued[req.op] == IssueOf(req)
    requires Stored(w.fs, FinalPath(req, raw), FINGERPRINT(req.bytes))
    requires Stored(w.fs, ArchivePath(raw), FINGERPRINT(raw))
    ensures ChainOk(w')
  {
    var n := |w.chain|;
    NewBlock(w, w', req, raw);
    forall i: nat | i < n + 1 ensures BlockOk(w', i) {
      if i < n {
        assert BlockOk(w, i);
        Kept(w, w', i);
        Kept(w, w', 0);
        if i > 0 { Kept(w, w', i - 1); }
      }
    }
    forall i: nat | 0 < i < n + 1 ensures ArchiveOk(w', i) {
      if i < n {
        assert BlockOk(w, i) && ArchiveOk(w, i);
        Kept(w, w', i);
        Kept(w, w', i - 1);
      } else {
        assert w'.chain[n - 1] == w.chain[n - 1];
      }
    }
  }

  lemma InstalledGuarantee(w: World, w': World, req: Request, raw: Content)
    requires Installed(w, w', req, raw) && Holds(w.fs, req)
    ensures Guarantee(w, w', req.client)
  {
    assert w'.chain[..|w.chain|] == w.chain;
    assert DocIn(w'.fs) == DocIn(w.fs);
  }

  /** The world right after an initializer installed the sequence-zero manifest. */
  ghost predicate Created0(w: World, w': World, c: ClientId, cfg: Config, op: OperationId) {
    && ValidConfig(cfg)
    && w'.game == w.game && w'.issued == w.issued
    && w'.chain == [Block(ZeroPayload(cfg), c, op)]
    && w'.fs == w.fs.(files := (w.fs.files - {TmpManifest(op)})[ManifestJson := ZeroPayload(cfg)])
  }

  lemma CreatedOk(w: World, w': World, c: ClientId, cfg: Config, op: OperationId)
    requires |w.chain| == 0 && cfg.game == w.game && Created0(w, w', c, cfg, op)
    ensures ChainOk(w') && Guarantee(w, w', c)
  {
    assert ParseManifest(w'.chain[0].content) == Some(ZeroManifest(cfg));
    assert BlockOk(w', 0);
    assert w'.chain[..0] == w.chain;
  }
}
