/** A call over the storage is a stretch of a run of the shared world, and without faults
    it is the call left alone: every theorem about those holds of `CommitHandoff`. */
module CallSafety {
  import opened Domain
  import opened Storage
  import opened Handoff
  import opened World
  import opened Alone
  import opened Faults
  import FS = FakeStorage
  import opened HandoffCall
  import opened Initialize
  import opened Evidence
  import opened InitCall
  import opened ReconcileCall
  import Cleanup

  // ----- a call is a stretch of a run -----

  lemma HonestDraws(s: Schedule, k: OpKind)
    requires Honest(s)
    ensures Draw(s, k) != Corrupt && Honest(Spent(s, k))
  {
  }

  /** The events of the call: one act per operation, under the fault scheduled for it. */
  ghost function Acts(req: Request, sys: Sys, s: Step): seq<Event>
    requires WellFormedStep(req, s) && Usable(sys)
    decreases Rank(s)
  {
    if s.Returned? then []
    else
      var (sys', s') := StepOn(req, sys, s);
      var fault := if ActionOf(req, s).Remote? then Draw(sys.remote.schedule, KindOf(ActionOf(req, s).op))
                   else NoFault;
      [Act(req.client, fault)] + Acts(req, sys', s')
  }

  ghost predicate Stands(w: World, req: Request, sys: Sys, s: Step) {
    && req.client in w.clients && w.clients[req.client].task == Handing(req, s)
    && w.clients[req.client].mem == sys.mem && w.fs == sys.remote.fs
  }

  /** Storage, journal and result of the call are those of the client in the world. */
  lemma {:induction false} CallIsARun(w: World, req: Request, sys: Sys, s: Step)
    requires WellFormedStep(req, s) && Honest(sys.remote.schedule) && Stands(w, req, sys, s)
    ensures IsRun(w, Acts(req, sys, s))
    ensures var (sys', result) := RunOn(req, sys, s);
            Stands(Final(w, Acts(req, sys, s)), req, sys', Returned(result))
    decreases Rank(s)
  {
    if !s.Returned? {
      var (sys1, s1) := StepOn(req, sys, s);
      var e := Acts(req, sys, s)[0];
      if ActionOf(req, s).Remote? { HonestDraws(sys.remote.schedule, KindOf(ActionOf(req, s).op)); }
      assert Enabled(w, e);
      CallIsARun(Next(w, e), req, sys1, s1);
      assert Acts(req, sys, s)[1..] == Acts(req, sys1, s1);
    }
  }

  /** The same for an initialization. */
  ghost function InitActs(c: ClientId, cfg: Config, op: OperationId, caps: FS.Capabilities,
                          remote: FS.Remote, s: InitStep): seq<Event>
    requires ValidConfig(cfg) && WellFormedInit(s) && Counted(remote.schedule.counts)
    decreases InitRank(s)
  {
    if s.Finished? then []
    else
      var (remote', r) := FS.Respond(caps, remote, InitOp(cfg, op, s));
      InitProgress(cfg, s, r);
      [Act(c, Draw(remote.schedule, KindOf(InitOp(cfg, op, s))))]
      + InitActs(c, cfg, op, caps, remote', OnInitReply(cfg, s, r))
  }

  lemma {:induction false} InitializationIsARun(w: World, c: ClientId, cfg: Config, op: OperationId,
                                                caps: FS.Capabilities, remote: FS.Remote, s: InitStep)
    requires ValidConfig(cfg) && WellFormedInit(s) && Honest(remote.schedule) && FS.Full(caps)
    requires c in w.clients && w.clients[c].task == Creating(cfg, op, s) && w.fs == remote.fs
    ensures IsRun(w, InitActs(c, cfg, op, caps, remote, s))
    ensures var last := Final(w, InitActs(c, cfg, op, caps, remote, s));
            var (remote', result) := InitOn(cfg, op, caps, remote, s);
            && last.fs == remote'.fs && c in last.clients
            && last.clients[c].task == Creating(cfg, op, Finished(result))
    decreases InitRank(s)
  {
    if !s.Finished? {
      var (remote', r) := FS.Respond(caps, remote, InitOp(cfg, op, s));
      var events := InitActs(c, cfg, op, caps, remote, s);
      InitProgress(cfg, s, r);
      HonestDraws(remote.schedule, KindOf(InitOp(cfg, op, s)));
      assert Enabled(w, events[0]);
      InitializationIsARun(Next(w, events[0]), c, cfg, op, caps, remote', OnInitReply(cfg, s, r));
      assert events[1..] == InitActs(c, cfg, op, caps, remote', OnInitReply(cfg, s, r));
    }
  }

  /** And for a reconciliation. */
  ghost function ReconcileActs(pass: Evidence.Pass, caps: FS.Capabilities, sys: Sys, s: ReconcileStep)
    : (events: seq<Event>)
    requires WellFormedReconcile(sys.mem, s) && Usable(sys)
    ensures forall e | e in events :: e.Act?
    decreases ReconcileRank(s)
  {
    match ReconcileAction(s)
    case Halt => []
    case Remote(op) =>
      var (remote, r) := FS.Respond(caps, sys.remote, op);
      [Act(pass.client, Draw(sys.remote.schedule, KindOf(op)))]
      + ReconcileActs(pass, caps, sys.(remote := remote), OnReconcileReply(pass, sys.mem, s, r))
    case Local =>
      var (mem, s') := OnReconcileLocal(pass, sys.mem, s);
      [Act(pass.client, NoFault)] + ReconcileActs(pass, caps, sys.(mem := mem), s')
  }

  lemma {:induction false} ReconciliationIsARun(w: World, pass: Evidence.Pass, caps: FS.Capabilities,
                                                sys: Sys, s: ReconcileStep)
    requires WellFormedReconcile(sys.mem, s) && Honest(sys.remote.schedule) && FS.Full(caps)
    requires pass.client in w.clients && w.clients[pass.client].task == Reconciling(pass, s)
    requires w.clients[pass.client].mem == sys.mem && w.fs == sys.remote.fs
    ensures IsRun(w, ReconcileActs(pass, caps, sys, s))
    ensures var last := Final(w, ReconcileActs(pass, caps, sys, s));
            var sys' := ReconcileOn(caps, pass, sys, s);
            && last.fs == sys'.remote.fs && pass.client in last.clients
            && last.clients[pass.client].mem == sys'.mem
            && last.clients[pass.client].task == Reconciling(pass, Reconciled)
            && last.game == w.game && Honest(sys'.remote.schedule)
    decreases ReconcileRank(s)
  {
    if !s.Reconciled? {
      var events := ReconcileActs(pass, caps, sys, s);
      var rest: Sys, next: ReconcileStep;
      if ReconcileAction(s).Remote? {
        HonestDraws(sys.remote.schedule, ReadOp);
        var (remote, r) := FS.Respond(caps, sys.remote, Read(ManifestJson));
        rest, next := sys.(remote := remote), OnReconcileReply(pass, sys.mem, s, r);
      } else {
        var (mem, s') := OnReconcileLocal(pass, sys.mem, s);
        rest, next := sys.(mem := mem), s';
      }
      assert Enabled(w, events[0]);
      assert events[1..] == ReconcileActs(pass, caps, rest, next);
      ReconciliationIsARun(Next(w, events[0]), pass, caps, rest, next);
    }
  }

  /** A cleanup is one too: a removal for each file it took. */
  lemma CleanupIsARun(w: World, fs': Fs, removed: set<Path>, candidates: seq<Path>, protected: Option<OperationId>)
    returns (events: seq<Event>)
    requires Cleanup.LostOnly(w.fs, fs', removed, candidates, protected)
    ensures IsRun(w, events) && Final(w, events) == w.(fs := fs')
    ensures forall e | e in events :: e.CleanTemporary? && e.path in removed
  {
    events := Removals(w, removed);
  }

  lemma {:induction false} Removals(w: World, removed: set<Path>) returns (events: seq<Event>)
    requires forall p | p in removed :: Temporary(p)
    ensures IsRun(w, events) && Final(w, events) == w.(fs := Fs(w.fs.dirs, w.fs.files - removed))
    ensures forall e | e in events :: e.CleanTemporary? && e.path in removed
    decreases |removed|
  {
    events := [];
    if removed == {} {
      assert w.fs.files - removed == w.fs.files;
    } else {
      var p :| p in removed;
      var rest := Removals(Next(w, CleanTemporary(p)), removed - {p});
      events := [CleanTemporary(p)] + rest;
      assert events[1..] == rest;
      assert w.fs.files - {p} - (removed - {p}) == w.fs.files - removed;
    }
  }

  // ----- a call without faults is the call left alone -----

  lemma FaultlessDraws(s: Schedule, k: OpKind)
    requires Faultless(s)
    ensures Draw(s, k) == NoFault && Faultless(Spent(s, k))
  {
  }

  lemma {:induction false} FaultlessCallIsAlone(req: Request, sys: Sys, s: Step)
    requires WellFormedStep(req, s) && Faultless(sys.remote.schedule)
    ensures var (sys', result) := RunOn(req, sys, s);
            var last := Finally(req, Run(sys.remote.fs, sys.mem, s));
            && sys'.remote.fs == last.fs && sys'.mem == last.mem && last.step == Returned(result)
    decreases Rank(s)
  {
    if !s.Returned? {
      if ActionOf(req, s).Remote? { FaultlessDraws(sys.remote.schedule, KindOf(ActionOf(req, s).op)); }
      FaultlessCallIsAlone(req, StepOn(req, sys, s).0, StepOn(req, sys, s).1);
    }
  }
}
