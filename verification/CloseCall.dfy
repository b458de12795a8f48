/** The coordinator and the client's close path, as the classes that call the supervisor. */
module CloseCall {
  import opened Domain
  import opened Storage
  import opened Handoff
  import opened Evidence
  import opened World
  import opened Guard
  import opened Launch
  import opened Coordinator
  import opened Closing
  import opened Faults
  import FS = FakeStorage
  import opened Journal
  import opened HandoffCall
  import opened ReconcileCall
  import opened CallSafety

  /** A scripted supervisor: arbitrary answers, and a log of the calls that reached it. */
  class ProcessSupervisor {
    var probes: seq<ProbeAnswer>
    var terminations: seq<TerminateAnswer>
    var closes: seq<CloseAnswer>
    var launches: seq<Option<Identity>>
    var log: seq<Call>

    constructor (probes: seq<ProbeAnswer>, terminations: seq<TerminateAnswer>, closes: seq<CloseAnswer>,
                 launches: seq<Option<Identity>>)
      ensures log == []
    {
      this.probes, this.terminations, this.closes, this.launches := probes, terminations, closes, launches;
      log := [];
    }

    /** The identity of the spawned process, when one was spawned and verified. */
    method GuardedLaunch() returns (launched: Option<Identity>)
      modifies this
      ensures log == old(log) + [LaunchTried]
    {
      launched := None;
      if launches != [] { launched, launches := launches[0], launches[1..]; }
      log := log + [LaunchTried];
    }

    method Probe(id: Identity) returns (p: ProbeAnswer)
      modifies this
      ensures log == old(log) + [Probed(KeyOf(id), p)]
    {
      p := ProbeUnavailable;
      if probes != [] { p, probes := probes[0], probes[1..]; }
      log := log + [Probed(KeyOf(id), p)];
    }

    method RequestGracefulClose(id: Identity) returns (c: CloseAnswer)
      modifies this
      ensures log == old(log) + [AskedToClose(KeyOf(id))]
    {
      c := CloseRefused;
      if closes != [] { c, closes := closes[0], closes[1..]; }
      log := log + [AskedToClose(KeyOf(id))];
    }

    method Terminate(id: Identity, record: CloseRecord, byUser: bool) returns (t: TerminateAnswer)
      modifies this
      ensures log == old(log) + [Coordinator.Terminated(KeyOf(id), record, byUser)]
    {
      t := TerminateFailed;
      if terminations != [] { t, terminations := terminations[0], terminations[1..]; }
      log := log + [Coordinator.Terminated(KeyOf(id), record, byUser)];
    }

    method Focus(id: Identity)
      modifies this
      ensures log == old(log) + [Focused(KeyOf(id))]
    {
      log := log + [Focused(KeyOf(id))];
    }
  }

  datatype TerminateResult = AlreadyGone | Mismatch | NoAdapter | Answered(answer: TerminateAnswer)

  /** What a termination reports: nothing when it was refused before any call, otherwise what
      the probe or the termination answered. */
  function ResultOf(calls: seq<Call>, p: ProbeAnswer, t: TerminateAnswer): Option<TerminateResult> {
    if calls == [] then None
    else match p
      case NotRunning => Some(AlreadyGone)
      case RunningMismatch => Some(Mismatch)
      case ProbeUnavailable => Some(NoAdapter)
      case RunningMatch => Some(Answered(t))
  }

  /** Session state of one match; every operation that could touch a process verifies the
      exact identity first. */
  class ProcessCoordinator {
    const supervisor: ProcessSupervisor
    var running: Option<Identity>
    var alive: bool
    var mismatchedKeys: set<Key>
    var closeIdentity: Option<Identity>
    var closeOperation: Option<OperationId>
    var actedOperation: Option<OperationId>
    var safelyClosed: bool

    ghost function Value(): Session
      reads this
    {
      Session(running, alive, mismatchedKeys, closeIdentity, closeOperation, actedOperation, safelyClosed)
    }

    constructor (supervisor: ProcessSupervisor)
      ensures this.supervisor == supervisor && Value() == FRESH
    {
      this.supervisor := supervisor;
      running, alive, mismatchedKeys := None, false, {};
      closeIdentity, closeOperation, actedOperation, safelyClosed := None, None, None, false;
    }

    /** The operation did what `Served` says, on the session and on the log. */
    twostate predicate Did(a: Ask)
      reads this, supervisor
    {
      && Value() == Served(old(Value()), a).0
      && supervisor.log == old(supervisor.log) + Served(old(Value()), a).1
    }

    method Probe(id: Identity) returns (p: ProbeAnswer)
      modifies this, supervisor
      ensures Did(DoProbe(id, p))
    {
      p := supervisor.Probe(id);
      var same := running.Some? && KeyOf(running.value) == KeyOf(id);
      if p == RunningMismatch { mismatchedKeys := mismatchedKeys + {KeyOf(id)}; }
      if p == RunningMatch {
        running, alive := Some(id), true;
      } else if (p == NotRunning || p == RunningMismatch) && same {
        alive := false;
      }
    }

    /** Launches only from a ready plan, and never beside the session's own process. */
    method AttemptLaunch(ready: bool) returns (launched: Option<Identity>)
      modifies this, supervisor
      ensures !ready ==> Value() == old(Value()) && supervisor.log == old(supervisor.log)
      ensures ready ==> Did(DoLaunch(launched))
      ensures old(alive) ==> supervisor.log == old(supervisor.log)
    {
      if !ready || alive { return None; }
      launched := supervisor.GuardedLaunch();
      if launched.Some? {
        running, alive := launched, true;
        closeIdentity, safelyClosed := None, false;
      }
    }

    method NoteSafelyClosed()
      modifies this
      ensures Value() == NotedClosed(old(Value()))
    {
      safelyClosed, alive := true, false;
    }

    method DropCloseAttempt()
      modifies this
      ensures Value() == Dropped(old(Value()))
    {
      closeIdentity := None;
    }

    /** The manual, graceful close. */
    method RequestClose(id: Identity, op: OperationId, allowRepeat: bool)
      returns (asked: Option<CloseAnswer>, ghost p: ProbeAnswer, ghost c: CloseAnswer)
      modifies this, supervisor
      ensures Did(DoClose(id, op, allowRepeat, p, c))
      ensures asked.Some? ==> p == RunningMatch && c == asked.value
      ensures asked.Some? <==>
                AskedToClose(KeyOf(id)) in Served(old(Value()), DoClose(id, op, allowRepeat, p, c)).1
    {
      asked, p, c := None, ProbeUnavailable, CloseRefused;
      if !allowRepeat && closeOperation == Some(op) { return; }
      if KeyOf(id) in mismatchedKeys { return; }
      var probe := Probe(id);
      p := probe;
      if probe != RunningMatch { return; }
      var answer := supervisor.RequestGracefulClose(id);
      c := answer;
      if answer == CloseAccepted {
        closeIdentity, closeOperation, safelyClosed := Some(id), Some(op), false;
      }
      asked := Some(answer);
    }

    /** Terminates the exact entitled process after a verified handoff. */
    method TerminateAfterCommit(id: Identity, record: CloseRecord, byUser: bool)
      returns (result: Option<TerminateResult>,
               ghost p: ProbeAnswer, ghost t: TerminateAnswer, ghost verify: ProbeAnswer)
      modifies this, supervisor
      ensures Did(DoTerminate(id, record, byUser, p, t, verify))
      ensures result == ResultOf(Served(old(Value()), DoTerminate(id, record, byUser, p, t, verify)).1, p, t)
    {
      result, p, t, verify := None, ProbeUnavailable, TerminateFailed, ProbeUnavailable;
      if !byUser && actedOperation == Some(record.op) { return; }
      if !Entitled(id, record) { return; }
      if KeyOf(id) in mismatchedKeys { return; }
      var probe := Probe(id);
      p := probe;
      match probe {
        case NotRunning =>
          closeIdentity, closeOperation := Some(id), Some(record.op);
          NoteSafelyClosed();
          result := Some(AlreadyGone);
        case RunningMismatch =>
          DropCloseAttempt();
          result := Some(Mismatch);
        case ProbeUnavailable => result := Some(NoAdapter);
        case RunningMatch =>
          result, t, verify := TerminateVerified(id, record, byUser);
      }
    }

    /** The termination itself; never concluded from its own answer alone. */
    method TerminateVerified(id: Identity, record: CloseRecord, byUser: bool)
      returns (result: Option<TerminateResult>, ghost t: TerminateAnswer, ghost verify: ProbeAnswer)
      modifies this, supervisor
      ensures var s2 := old(Value()).(acted := Some(record.op), closing := Some(id),
                                      closeOp := Some(record.op), closed := false);
              var (s3, more) := AfterTerminate(s2, id, t, verify);
              && Value() == s3
              && supervisor.log == old(supervisor.log)
                                   + [Coordinator.Terminated(KeyOf(id), record, byUser)] + more
      ensures result == Some(Answered(t))
    {
      verify := ProbeUnavailable;
      actedOperation, closeIdentity, closeOperation := Some(record.op), Some(id), Some(record.op);
      safelyClosed := false;
      var answer := supervisor.Terminate(id, record, byUser);
      t := answer;
      match answer {
        case TerminatedIt =>
          var again := Probe(id);
          verify := again;
          if again == NotRunning { NoteSafelyClosed(); }
        case WasNotRunning => NoteSafelyClosed();
        case WrongIdentity => DropCloseAttempt();
        case TerminateFailed =>
      }
      result := Some(Answered(answer));
    }

    method FocusProcess(id: Identity) returns (focused: bool, ghost p: ProbeAnswer)
      modifies this, supervisor
      ensures Did(DoFocus(id, p))
    {
      focused, p := false, ProbeUnavailable;
      if KeyOf(id) in mismatchedKeys { return; }
      var probe := Probe(id);
      p := probe;
      if probe != RunningMatch { return; }
      supervisor.Focus(id);
      focused := true;
    }
  }

  // ----- the client's close path -----

  /** Every termination in the new part of the log is of the process this entitlement
      names, for its turn, and in managed mode. */
  ghost predicate Authorized(before: seq<Call>, after: seq<Call>, managed: bool, entitlement: Option<CloseRecord>) {
    && before <= after
    && forall i | |before| <= i < |after| && after[i].Terminated? ::
         && managed && entitlement.Some?
         && after[i].key == KeyOf(entitlement.value.identity)
         && SameEntitlement(after[i].record, entitlement.value)
  }

  predicate SameEntitlement(a: CloseRecord, b: CloseRecord) {
    a.op == b.op && a.sha256 == b.sha256 && a.source == b.source && a.identity == b.identity
  }

  lemma TerminationIsAuthorized(s: Session, log: seq<Call>, record: CloseRecord, byUser: bool,
                                p: ProbeAnswer, t: TerminateAnswer, verify: ProbeAnswer,
                                entitlement: CloseRecord)
    requires SameEntitlement(record, entitlement)
    ensures Authorized(log, log + Served(s, DoTerminate(record.identity, record, byUser, p, t, verify)).1,
                       true, Some(entitlement))
  {
  }

  // ----- a call of the close path is a stretch of a history -----

  /** The system as one client sees it between its calls. */
  predicate Shows(s: System, c: ClientId, managed: bool, game: GameId, fs: Fs, mem: Memory, desk: Desk) {
    && s.world.game == game && s.world.fs == fs && (c in s.managed <==> managed)
    && ClientOf(s.world, c).mem == mem && Free(ClientOf(s.world, c).task)
    && DeskOf(s, c) == desk
  }

  lemma UseShows(s: System, c: ClientId, managed: bool, game: GameId, fs: Fs, mem: Memory, desk: Desk, a: Ask)
    requires Shows(s, c, managed, game, fs, mem, desk) && MayAsk(s, c, a)
    ensures IsHistory(s, [Use(c, a)])
    ensures var (session, calls) := Served(desk.session, a);
            Shows(Ending(s, [Use(c, a)]), c, managed, game, fs, mem, Desk(session, desk.log + calls))
  {
    OneHappening(s, Use(c, a));
  }

  lemma MarkShows(s: System, c: ClientId, managed: bool, game: GameId, fs: Fs, mem: Memory, desk: Desk)
    requires Shows(s, c, managed, game, fs, mem, desk)
    ensures IsHistory(s, [Worldly(MarkClose(c))])
    ensures Shows(Ending(s, [Worldly(MarkClose(c))]), c, managed, game, fs, CloseRequested(mem), desk)
  {
    OneHappening(s, Worldly(MarkClose(c)));
  }

  ghost function Reconciles(pass: Pass, caps: FS.Capabilities, sys: Sys): seq<Event>
    requires Usable(sys)
  {
    [BeginReconcile(pass.client, pass)] + ReconcileActs(pass, caps, sys, FirstStep(pass, sys.mem))
  }

  lemma ReconcileShows(s: System, pass: Pass, caps: FS.Capabilities, sys: Sys, desk: Desk)
    requires Shows(s, pass.client, pass.managed, pass.game, sys.remote.fs, sys.mem, desk)
    requires pass.given.None? && Honest(sys.remote.schedule) && FS.Full(caps)
    ensures var hs := Lifted(Reconciles(pass, caps, sys));
            var sys' := ReconcileOn(caps, pass, sys, FirstStep(pass, sys.mem));
            && Honest(sys'.remote.schedule) && IsHistory(s, hs)
            && Shows(Ending(s, hs), pass.client, pass.managed, pass.game, sys'.remote.fs, sys'.mem, desk)
  {
    var begin, events := BeginReconcile(pass.client, pass), Reconciles(pass, caps, sys);
    var w1 := Next(s.world, begin);
    ReconciliationIsARun(w1, pass, caps, sys, FirstStep(pass, sys.mem));
    assert events[1..] == ReconcileActs(pass, caps, sys, FirstStep(pass, sys.mem));
    RunIsAHistory(s, events);
  }

  /** The entitlement's process is gone: reconciliation keeps the entitlement or drops it. */
  predicate KeepsOrDrops(mem: Memory, s: ReconcileStep, r: CloseRecord) {
    match s
    case Recover => mem.pending == Some(r)
    case ClearRecovered(_) => mem.pending == Some(r)
    case ReadAgain(_, recs) => recs.pending == Some(r)
    case ClearApplied(_, recs) => recs.pending == Some(r)
    case Persist(recs) => recs.pending == Some(r) || recs.pending.None?
    case Reconciled => mem.pending == Some(r) || mem.pending.None?
  }

  lemma {:induction false} PendingKept(caps: FS.Capabilities, pass: Pass, sys: Sys, s: ReconcileStep, r: CloseRecord)
    requires WellFormedReconcile(sys.mem, s) && Usable(sys) && KeepsOrDrops(sys.mem, s, r)
    requires pass.seen.Some? && !pass.seen.value.running
    ensures var pending := ReconcileOn(caps, pass, sys, s).mem.pending; pending == Some(r) || pending.None?
    decreases ReconcileRank(s)
  {
    match ReconcileAction(s)
    case Halt =>
    case Remote(op) =>
      var (remote, reply) := FS.Respond(caps, sys.remote, op);
      PendingKept(caps, pass, sys.(remote := remote), OnReconcileReply(pass, sys.mem, s, reply), r);
    case Local =>
      var (mem, s') := OnReconcileLocal(pass, sys.mem, s);
      PendingKept(caps, pass, sys.(mem := mem), s', r);
  }

  /** What the supervisor answered to a termination: the probe, the termination, and the
      probe after it. */
  datatype Answers = Answers(p: ProbeAnswer, t: TerminateAnswer, verify: ProbeAnswer)

  const UNASKED := Answers(ProbeUnavailable, TerminateFailed, ProbeUnavailable)

  function Termination(record: CloseRecord, byUser: bool, a: Answers): Ask {
    DoTerminate(record.identity, record, byUser, a.p, a.t, a.verify)
  }

  /** The termination was attempted, and the process is known to be gone or not the one. */
  predicate Gone(after: Session, a: Answers) {
    after.closed || a.p == RunningMismatch || (a.p == RunningMatch && a.t == WrongIdentity)
  }

  /** The process being closed was probed and is gone. */
  predicate FoundGone(s: Session, q: ProbeAnswer) {
    s.closing.Some? && !s.closed && q == NotRunning
  }

  /** One match of the client: its mode, its storage and records, its coordinator.

      Every method is shown to be a stretch of a history: `s` is the system before it, and
      the happenings it returns lead to the system after it. */
  class RelayMatch {
    const managed: bool
    const client: ClientId
    const player: PlayerId
    const game: GameId
    const storage: FS.FakeStorage
    const journal: DurableHandoffJournal
    const coordinator: ProcessCoordinator

    constructor (managed: bool, client: ClientId, player: PlayerId, game: GameId, storage: FS.FakeStorage,
                 journal: DurableHandoffJournal, coordinator: ProcessCoordinator)
      ensures this.managed == managed && this.client == client && this.player == player && this.game == game
      ensures this.storage == storage && this.journal == journal && this.coordinator == coordinator
    {
      this.managed, this.client, this.player, this.game := managed, client, player, game;
      this.storage, this.journal, this.coordinator := storage, journal, coordinator;
    }

    ghost predicate Valid()
      reads storage.faults, journal
    {
      storage.Valid() && journal.Valid()
    }

    /** The match is the client of `s`, over storage that can do everything and whose reads
        are not altered. */
    ghost predicate Mirrors(s: System)
      reads storage, storage.faults, journal, coordinator, coordinator.supervisor
    {
      && FS.Full(storage.capabilities) && Honest(storage.Value().schedule)
      && Shows(s, client, managed, game, storage.Value().fs, journal.Memory(),
               Desk(coordinator.Value(), coordinator.supervisor.log))
    }

    /** The reconciliation triggered by a process that is gone. */
    ghost function Exited(sys: Sys, id: Identity): (last: Sys)
      requires Usable(sys)
      ensures Usable(last)
    {
      var pass := Pass(client, player, game, managed, Some(Observation(id, false)), None);
      ReconcileOn(storage.capabilities, pass, sys, FirstStep(pass, sys.mem))
    }

    /** Storage and records after a termination of the stored entitlement: as they were when
        it was not attempted; otherwise the entitlement is marked, and spent by a
        reconciliation once the process is gone. */
    ghost function AfterClose(sys: Sys, before: Session, record: CloseRecord, byUser: bool, a: Answers)
      : (last: Sys)
      requires Usable(sys)
      ensures Usable(last)
    {
      var (after, calls) := Served(before, Termination(record, byUser, a));
      var noted := sys.(mem := CloseRequested(sys.mem));
      if calls == [] then sys else if Gone(after, a) then Exited(noted, record.identity) else noted
    }

    ghost function AfterWatch(sys: Sys, session: Session, q: ProbeAnswer): Sys
      requires Usable(sys)
    {
      if FoundGone(session, q) then Exited(sys, session.closing.value) else sys
    }

    /** Session and log are these. */
    ghost predicate Sits(session: Session, log: seq<Call>)
      reads coordinator, coordinator.supervisor
    {
      coordinator.Value() == session && coordinator.supervisor.log == log
    }

    /** Reconciliation once the entitled process is known to be gone. */
    method ReconcileExited(id: Identity, ghost s: System) returns (ghost hs: seq<Happening>)
      requires Valid()
      modifies storage, storage.faults, journal
      ensures Valid()
      ensures old(Mirrors(s)) ==> IsHistory(s, hs) && Mirrors(Ending(s, hs))
      ensures State(storage, journal) == Exited(old(State(storage, journal)), id)
      ensures old(journal.stored.pending).Some? ==>
                journal.stored.pending == old(journal.stored.pending) || journal.stored.pending.None?
    {
      var pass := Pass(client, player, game, managed, Some(Observation(id, false)), None);
      ghost var sys := State(storage, journal);
      hs := Lifted(Reconciles(pass, storage.capabilities, sys));
      if Mirrors(s) {
        ReconcileShows(s, pass, storage.capabilities, sys, Desk(coordinator.Value(), coordinator.supervisor.log));
      }
      if journal.stored.pending.Some? {
        PendingKept(storage.capabilities, pass, sys, FirstStep(pass, sys.mem), journal.stored.pending.value);
      }
      var intent := ReconcileMatch(storage, journal, pass);
    }

    /** `close_requested` is stored, when it was not already. */
    method NoteRequested(record: CloseRecord, ghost s: System) returns (ghost hs: seq<Happening>)
      requires Valid() && journal.stored.pending == Some(record)
      modifies journal
      ensures Valid() && journal.stored.pending == Some(record.(requested := true))
      ensures journal.Memory() == CloseRequested(old(journal.Memory()))
      ensures old(Mirrors(s)) ==> IsHistory(s, hs) && Mirrors(Ending(s, hs))
    {
      hs := [];
      if !record.requested {
        hs := [Worldly(MarkClose(client))];
        if Mirrors(s) {
          MarkShows(s, client, managed, game, storage.Value().fs, journal.Memory(),
                    Desk(coordinator.Value(), coordinator.supervisor.log));
        }
        journal.stored := journal.stored.(pending := Some(record.(requested := true)));
      }
    }

    /** Terminates the process of the stored entitlement, notes that this was requested, and
        spends the entitlement when the process is gone or another one has its pid. */
    method TerminatePendingClose(record: CloseRecord, byUser: bool, ghost s: System)
      returns (result: Option<TerminateResult>, ghost hs: seq<Happening>, ghost a: Answers)
      requires Valid() && managed && journal.stored.pending == Some(record)
      modifies storage, storage.faults, journal, coordinator, coordinator.supervisor
      ensures Valid()
      ensures old(Mirrors(s)) ==> IsHistory(s, hs) && Mirrors(Ending(s, hs))
      ensures Authorized(old(coordinator.supervisor.log), coordinator.supervisor.log, managed, Some(record))
      ensures journal.stored.pending.Some? ==> SameEntitlement(journal.stored.pending.value, record)
      ensures var (session, calls) := Served(old(coordinator.Value()), Termination(record, byUser, a));
              && Sits(session, old(coordinator.supervisor.log) + calls)
              && result == ResultOf(calls, a.p, a.t)
      ensures State(storage, journal) ==
              AfterClose(old(State(storage, journal)), old(coordinator.Value()), record, byUser, a)
    {
      ghost var live := Mirrors(s);
      result, hs, a := AskTermination(record, byUser, s);
      if result.None? { return; }
      ghost var s1 := if live then Ending(s, hs) else s;
      ghost var noted := NoteRequested(record, s1);
      ghost var s2 := if live then Ending(s1, noted) else s;
      if live { HistoriesJoin(s, hs, noted); }
      hs := hs + noted;
      if coordinator.safelyClosed || result.value == Mismatch || result.value == Answered(WrongIdentity) {
        ghost var spent := ReconcileExited(record.identity, s2);
        if live { HistoriesJoin(s, hs, spent); }
        hs := hs + spent;
      }
    }

    method AskTermination(record: CloseRecord, byUser: bool, ghost s: System)
      returns (result: Option<TerminateResult>, ghost hs: seq<Happening>, ghost answers: Answers)
      requires managed && journal.stored.pending == Some(record)
      modifies coordinator, coordinator.supervisor
      ensures old(Mirrors(s)) ==> IsHistory(s, hs) && Mirrors(Ending(s, hs))
      ensures Authorized(old(coordinator.supervisor.log), coordinator.supervisor.log, managed, Some(record))
      ensures var (session, calls) := Served(old(coordinator.Value()), Termination(record, byUser, answers));
              && Sits(session, old(coordinator.supervisor.log) + calls)
              && result == ResultOf(calls, answers.p, answers.t)
      ensures result.Some? ==>
                (Gone(coordinator.Value(), answers) <==>
                   coordinator.safelyClosed || result.value == Mismatch || result.value == Answered(WrongIdentity))
    {
      ghost var session, log := coordinator.Value(), coordinator.supervisor.log;
      ghost var p, t, verify;
      result, p, t, verify := coordinator.TerminateAfterCommit(record.identity, record, byUser);
      answers := Answers(p, t, verify);
      ghost var a := DoTerminate(record.identity, record, byUser, p, t, verify);
      TerminationIsAuthorized(session, log, record, byUser, p, t, verify, record);
      hs := [Use(client, a)];
      if old(Mirrors(s)) {
        UseShows(s, client, managed, game, storage.Value().fs, journal.Memory(), Desk(session, log), a);
      }
    }

    /** Acts on a close intent only when it names exactly the stored entitlement. */
    method ActOnCloseIntent(intent: Option<CloseRecord>, ghost s: System)
      returns (ghost hs: seq<Happening>, ghost a: Answers)
      requires Valid()
      modifies storage, storage.faults, journal, coordinator, coordinator.supervisor
      ensures Valid()
      ensures old(Mirrors(s)) ==> IsHistory(s, hs) && Mirrors(Ending(s, hs))
      ensures Authorized(old(coordinator.supervisor.log), coordinator.supervisor.log, managed,
                         old(journal.stored.pending))
      ensures !managed || intent.None? ==> coordinator.supervisor.log == old(coordinator.supervisor.log)
      ensures var pending := old(journal.stored.pending);
              if managed && intent.Some? && pending.Some? && SameEntitlement(intent.value, pending.value) then
                var (session, calls) := Served(old(coordinator.Value()), Termination(pending.value, false, a));
                && Sits(session, old(coordinator.supervisor.log) + calls)
                && State(storage, journal) ==
                   AfterClose(old(State(storage, journal)), old(coordinator.Value()), pending.value, false, a)
              else
                && Sits(old(coordinator.Value()), old(coordinator.supervisor.log))
                && State(storage, journal) == old(State(storage, journal))
    {
      hs, a := [], UNASKED;
      if intent.None? || !managed { return; }
      var pending := journal.stored.pending;
      if pending.None? || !SameEntitlement(intent.value, pending.value) { return; }
      var result;
      result, hs, a := TerminatePendingClose(pending.value, false, s);
    }

    /** Advances a pending close, and recovers it once after a restart. */
    method TrackCloseProgress(ghost s: System)
      returns (ghost hs: seq<Happening>, ghost a: Answers, ghost q: ProbeAnswer)
      requires Valid()
      modifies storage, storage.faults, journal, coordinator, coordinator.supervisor
      ensures Valid()
      ensures old(Mirrors(s)) ==> IsHistory(s, hs) && Mirrors(Ending(s, hs))
      ensures Authorized(old(coordinator.supervisor.log), coordinator.supervisor.log, managed,
                         old(journal.stored.pending))
      ensures var (session, log, sys) := (old(coordinator.Value()), old(coordinator.supervisor.log),
                                          old(State(storage, journal)));
              var pending := old(journal.stored.pending);
              var due := pending.Some? && pending.value.requested && managed;
              var served := if due then Served(session, Termination(pending.value, false, a)) else (session, []);
              var closed := if due then AfterClose(sys, session, pending.value, false, a) else sys;
              && Sits(Watched(served.0, q).0, log + served.1 + Watched(served.0, q).1)
              && State(storage, journal) == AfterWatch(closed, served.0, q)
    {
      ghost var live := Mirrors(s);
      hs, a := [], UNASKED;
      var pending := journal.stored.pending;
      if pending.Some? && pending.value.requested && managed {
        var result;
        result, hs, a := TerminatePendingClose(pending.value, false, s);
      }
      ghost var s1 := if live then Ending(s, hs) else s;
      ghost var watched;
      watched, q := WatchClose(s1);
      if live { HistoriesJoin(s, hs, watched); }
      hs := hs + watched;
    }

    /** Whether the process being closed is gone is only ever learnt from a probe. */
    method WatchClose(ghost s: System) returns (ghost hs: seq<Happening>, ghost q: ProbeAnswer)
      requires Valid()
      modifies storage, storage.faults, journal, coordinator, coordinator.supervisor
      ensures Valid()
      ensures old(Mirrors(s)) ==> IsHistory(s, hs) && Mirrors(Ending(s, hs))
      ensures Authorized(old(coordinator.supervisor.log), coordinator.supervisor.log, false, None)
      ensures var (session, calls) := Watched(old(coordinator.Value()), q);
              Sits(session, old(coordinator.supervisor.log) + calls)
      ensures State(storage, journal) == AfterWatch(old(State(storage, journal)), old(coordinator.Value()), q)
    {
      ghost var live := Mirrors(s);
      hs, q := [], ProbeUnavailable;
      if coordinator.closeIdentity.None? || coordinator.safelyClosed { return; }
      var id := coordinator.closeIdentity.value;
      var probe;
      probe, hs := AskProbe(id, s);
      q := probe;
      ghost var s1 := if live then Ending(s, hs) else s;
      ghost var rest := [];
      if probe == NotRunning {
        rest := ConcludeClose(id, s1);
      } else if probe == RunningMismatch {
        rest := [Use(client, DoDrop)];
        if live {
          UseShows(s1, client, managed, game, storage.Value().fs, journal.Memory(),
                   Desk(coordinator.Value(), coordinator.supervisor.log), DoDrop);
        }
        coordinator.DropCloseAttempt();
      }
      if live { HistoriesJoin(s, hs, rest); }
      hs := hs + rest;
    }

    method AskProbe(id: Identity, ghost s: System) returns (p: ProbeAnswer, ghost hs: seq<Happening>)
      modifies coordinator, coordinator.supervisor
      ensures old(Mirrors(s)) ==> IsHistory(s, hs) && Mirrors(Ending(s, hs))
      ensures coordinator.supervisor.log == old(coordinator.supervisor.log) + [Probed(KeyOf(id), p)]
      ensures coordinator.Value() == AfterProbe(old(coordinator.Value()), id, p)
    {
      ghost var desk := Desk(coordinator.Value(), coordinator.supervisor.log);
      p := coordinator.Probe(id);
      hs := [Use(client, DoProbe(id, p))];
      if old(Mirrors(s)) {
        UseShows(s, client, managed, game, storage.Value().fs, journal.Memory(), desk, DoProbe(id, p));
      }
    }

    method ConcludeClose(id: Identity, ghost s: System) returns (ghost hs: seq<Happening>)
      requires Valid()
      modifies storage, storage.faults, journal, coordinator
      ensures Valid()
      ensures old(Mirrors(s)) ==> IsHistory(s, hs) && Mirrors(Ending(s, hs))
      ensures coordinator.Value() == NotedClosed(old(coordinator.Value()))
      ensures State(storage, journal) == Exited(old(State(storage, journal)), id)
    {
      ghost var live := Mirrors(s);
      hs := ReconcileExited(id, s);
      if live {
        var s1 := Ending(s, hs);
        UseShows(s1, client, managed, game, storage.Value().fs, journal.Memory(),
                 Desk(coordinator.Value(), coordinator.supervisor.log), DoNoteClosed);
        HistoriesJoin(s, hs, [Use(client, DoNoteClosed)]);
      }
      coordinator.NoteSafelyClosed();
      hs := hs + [Use(client, DoNoteClosed)];
    }

    /** The manual close: managed matches terminate, standard ones only ask. */
    method RequestCivClose(ghost s: System)
      returns (ghost hs: seq<Happening>, ghost q: ProbeAnswer, ghost a: Answers, ghost c: CloseAnswer)
      requires Valid()
      modifies storage, storage.faults, journal, coordinator, coordinator.supervisor
      ensures Valid()
      ensures old(Mirrors(s)) ==> IsHistory(s, hs) && Mirrors(Ending(s, hs))
      ensures Authorized(old(coordinator.supervisor.log), coordinator.supervisor.log, managed,
                         old(journal.stored.pending))
      ensures old(journal.stored.pending).None? ==>
                coordinator.supervisor.log == old(coordinator.supervisor.log)
      ensures var (session, log, sys) := (old(coordinator.Value()), old(coordinator.supervisor.log),
                                          old(State(storage, journal)));
              var pending := old(journal.stored.pending);
              if pending.None? then Sits(session, log) && State(storage, journal) == sys
              else
                var record := pending.value;
                var probed, log1 := AfterProbe(session, record.identity, q), log + [Probed(KeyOf(record.identity), q)];
                if q != RunningMatch then Sits(probed, log1) && State(storage, journal) == sys
                else if managed then
                  var (session', calls) := Served(probed, Termination(record, true, a));
                  && Sits(session', log1 + calls)
                  && State(storage, journal) == AfterClose(sys, probed, record, true, a)
                else
                  var (session', calls) := Served(probed, DoClose(record.identity, record.op, true, a.p, c));
                  && Sits(session', log1 + calls)
                  && State(storage, journal) ==
                     (if AskedToClose(KeyOf(record.identity)) in calls && c == CloseAccepted
                      then sys.(mem := CloseRequested(sys.mem)) else sys)
    {
      ghost var live := Mirrors(s);
      hs, q, a, c := [], ProbeUnavailable, UNASKED, CloseRefused;
      if journal.stored.pending.None? { return; }
      var record := journal.stored.pending.value;
      var probe;
      probe, hs := AskProbe(record.identity, s);
      q := probe;
      if probe != RunningMatch { return; }
      ghost var s1 := if live then Ending(s, hs) else s;
      ghost var rest;
      if managed {
        var result;
        result, rest, a := TerminatePendingClose(record, true, s1);
      } else {
        ghost var p;
        rest, p, c := AskGracefulClose(record, s1);
        a := a.(p := p);
      }
      if live { HistoriesJoin(s, hs, rest); }
      hs := hs + rest;
    }

    method AskGracefulClose(record: CloseRecord, ghost s: System)
      returns (ghost hs: seq<Happening>, ghost p: ProbeAnswer, ghost c: CloseAnswer)
      requires Valid() && !managed && journal.stored.pending == Some(record)
      modifies journal, coordinator, coordinator.supervisor
      ensures Valid()
      ensures old(Mirrors(s)) ==> IsHistory(s, hs) && Mirrors(Ending(s, hs))
      ensures Authorized(old(coordinator.supervisor.log), coordinator.supervisor.log, managed, Some(record))
      ensures var (session, calls) :=
                Served(old(coordinator.Value()), DoClose(record.identity, record.op, true, p, c));
              && Sits(session, old(coordinator.supervisor.log) + calls)
              && State(storage, journal) ==
                 (if AskedToClose(KeyOf(record.identity)) in calls && c == CloseAccepted
                  then old(State(storage, journal)).(mem := CloseRequested(old(journal.Memory())))
                  else old(State(storage, journal)))
    {
      ghost var live := Mirrors(s);
      ghost var desk := Desk(coordinator.Value(), coordinator.supervisor.log);
      var asked;
      asked, p, c := coordinator.RequestClose(record.identity, record.op, true);
      ghost var a := DoClose(record.identity, record.op, true, p, c);
      hs := [Use(client, a)];
      if live { UseShows(s, client, managed, game, storage.Value().fs, journal.Memory(), desk, a); }
      if asked == Some(CloseAccepted) {
        ghost var s1 := if live then Ending(s, hs) else s;
        ghost var noted := NoteRequested(record, s1);
        if live { HistoriesJoin(s, hs, noted); }
        hs := hs + noted;
      }
    }
  }
}
