/** One computer's process table and launch guard, and the guarded launch over them. */
module Launch {
  import opened Domain
  import opened Handoff
  import opened Guard

  /** An identity as far as it is compared: pid, creation token, normalized executable. */
  datatype Key = Key(pid: nat, token: nat, exe: Executable)

  function KeyOf(id: Identity): Key {
    Key(id.pid, id.token, NORMAL(id.exe))
  }

  // ----- what a scan finds -----

  function EntryOf(id: Identity): ScanEntry {
    ScanEntry(id.pid, Some(id.exe), Some(BASENAME(NORMAL(id.exe))))
  }

  /** The listing of a process table and its scripted entries: all of them, nothing else. */
  ghost predicate ListingOf(entries: seq<ScanEntry>, processes: map<Key, Identity>, extras: seq<ScanEntry>) {
    && (forall k | k in processes :: EntryOf(processes[k]) in entries)
    && (forall e | e in extras :: e in entries)
    && (forall e | e in entries :: e in extras || exists k | k in processes :: e == EntryOf(processes[k]))
  }

  /** A registered process or scripted entry with this pid is exactly the executable. */
  ghost predicate RunsAs(processes: map<Key, Identity>, extras: seq<ScanEntry>, target: Executable, pid: nat) {
    || (exists k | k in processes :: NORMAL(processes[k].exe) == target && processes[k].pid == pid)
    || (exists e | e in extras :: Exact(e, target) && e.pid == pid)
  }

  ghost predicate Runs(processes: map<Key, Identity>, extras: seq<ScanEntry>, target: Executable) {
    exists pid :: RunsAs(processes, extras, target, pid)
  }

  /** A scripted entry with this pid has the executable's name and no path. */
  ghost predicate MayRunAs(extras: seq<ScanEntry>, target: Executable, pid: nat) {
    exists e | e in extras :: LooksLike(e, target) && e.pid == pid
  }

  ghost predicate MayRun(extras: seq<ScanEntry>, target: Executable) {
    exists pid :: MayRunAs(extras, target, pid)
  }

  /** The scan is decided by the process table and the scripted entries. */
  lemma ScanFinds(processes: map<Key, Identity>, extras: seq<ScanEntry>, target: Executable,
                  entries: seq<ScanEntry>, found: ScanResult)
    requires Classifies(entries, target, found) && ListingOf(entries, processes, extras)
    ensures found.ExactMatch? <==> Runs(processes, extras, target)
    ensures found.Indeterminate? <==> !Runs(processes, extras, target) && MayRun(extras, target)
    ensures found.ExactMatch? ==> RunsAs(processes, extras, target, found.pid)
    ensures found.Indeterminate? ==> MayRunAs(extras, target, found.pid)
  {
    if Runs(processes, extras, target) { ExactIsListed(processes, extras, target, entries); }
    if MayRun(extras, target) {
      var pid :| MayRunAs(extras, target, pid);
      var e :| e in extras && LooksLike(e, target) && e.pid == pid;
      assert e in entries;
    }
    if !found.NoMatch? {
      var i :| 0 <= i < |entries| && entries[i].pid == found.pid
               && (if found.ExactMatch? then Exact(entries[i], target) else LooksLike(entries[i], target));
      assert entries[i] in entries;
      if found.ExactMatch? {
        assert RunsAs(processes, extras, target, found.pid);
      } else {
        assert MayRunAs(extras, target, found.pid);
      }
    }
  }

  lemma ExactIsListed(processes: map<Key, Identity>, extras: seq<ScanEntry>, target: Executable,
                      entries: seq<ScanEntry>)
    requires Runs(processes, extras, target) && ListingOf(entries, processes, extras)
    ensures exists e :: e in entries && Exact(e, target)
  {
    var pid :| RunsAs(processes, extras, target, pid);
    if k :| k in processes && NORMAL(processes[k].exe) == target {
      assert EntryOf(processes[k]) in entries && Exact(EntryOf(processes[k]), target);
    } else {
      var e :| e in extras && Exact(e, target) && e.pid == pid;
      assert e in entries;
    }
  }

  datatype AcquireOutcome = Acquired | AcquiredAbandoned | Busy | Unavailable

  datatype Acquisition = Acquisition(outcome: AcquireOutcome, handle: nat)

  predicate Held(a: Acquisition) {
    a.outcome == Acquired || a.outcome == AcquiredAbandoned
  }

  class FakeMachine {
    var nextPid: nat
    var nextToken: nat
    var processes: map<Key, Identity>
    var extraEntries: seq<ScanEntry>
    var guardUnavailable: bool
    var externallyHeld: bool
    var abandoned: bool
    var heldHandle: Option<nat>
    var nextHandle: nat
    var acquisitions: nat
    var releases: nat
    var releaseFails: bool

    constructor (firstPid: nat, firstToken: nat)
      ensures processes == map[] && heldHandle == None && acquisitions == releases == 0
    {
      nextPid, nextToken, nextHandle := firstPid, firstToken, 0;
      processes, extraEntries := map[], [];
      guardUnavailable, externallyHeld, abandoned, releaseFails := false, false, false, false;
      heldHandle, acquisitions, releases := None, 0, 0;
    }

    /** The guard can be taken: it is usable and nobody holds it. */
    ghost predicate Available()
      reads this
    {
      !guardUnavailable && !externallyHeld && heldHandle.None?
    }

    method Acquire() returns (a: Acquisition)
      modifies this
      ensures acquisitions == old(acquisitions) + 1
      ensures Held(a) <==> old(Available())
      ensures Held(a) ==> heldHandle == Some(a.handle) && !abandoned
      ensures a.outcome == Unavailable <==> guardUnavailable
      ensures a.outcome == AcquiredAbandoned <==> old(Available()) && old(abandoned)
      ensures releaseFails == old(releaseFails)
      ensures !Held(a) ==> heldHandle == old(heldHandle)
      ensures processes == old(processes) && extraEntries == old(extraEntries) && releases == old(releases)
      ensures guardUnavailable == old(guardUnavailable) && externallyHeld == old(externallyHeld)
      ensures nextPid == old(nextPid) && nextToken == old(nextToken)
    {
      acquisitions := acquisitions + 1;
      if guardUnavailable { return Acquisition(Unavailable, 0); }
      if externallyHeld || heldHandle.Some? { return Acquisition(Busy, 0); }
      var handle := nextHandle;
      nextHandle := nextHandle + 1;
      heldHandle := Some(handle);
      if abandoned {
        abandoned := false;
        return Acquisition(AcquiredAbandoned, handle);
      }
      return Acquisition(AcquireOutcome.Acquired, handle);
    }

    method ReleaseGuard(a: Acquisition) returns (failed: bool)
      modifies this
      ensures processes == old(processes) && acquisitions == old(acquisitions)
      ensures nextPid == old(nextPid) && extraEntries == old(extraEntries)
      ensures Held(a) && old(heldHandle) == Some(a.handle) ==>
                heldHandle == None && releases == old(releases) + 1 && failed == old(releaseFails)
      ensures !(Held(a) && old(heldHandle) == Some(a.handle)) ==>
                heldHandle == old(heldHandle) && releases == old(releases) && !failed
    {
      if !Held(a) || heldHandle != Some(a.handle) { return false; }
      releases := releases + 1;
      heldHandle := None;
      return releaseFails;
    }

    /** Every registered process, with its path, and the scripted entries, and nothing else. */
    method ScanEntries() returns (entries: seq<ScanEntry>)
      ensures ListingOf(entries, processes, extraEntries)
    {
      entries := [];
      var rest := processes.Keys;
      while rest != {}
        invariant rest <= processes.Keys
        invariant forall k | k in processes && k !in rest :: EntryOf(processes[k]) in entries
        invariant forall e | e in entries :: exists k | k in processes :: e == EntryOf(processes[k])
        decreases |rest|
      {
        var k :| k in rest;
        var id := processes[k];
        entries := entries + [ScanEntry(id.pid, Some(id.exe), Some(BASENAME(NORMAL(id.exe))))];
        rest := rest - {k};
      }
      entries := entries + extraEntries;
    }
  }

  /** A process of this executable is registered, or a scripted entry shows one. */
  ghost predicate Listed(processes: map<Key, Identity>, extras: seq<ScanEntry>, target: Executable) {
    || (exists k | k in processes :: NORMAL(processes[k].exe) == target)
    || (exists e | e in extras :: Exact(e, target) || LooksLike(e, target))
  }

  /** A scan shows all that runs, and no pid is given twice. */
  ghost predicate AllListed(running: map<nat, Process>, processes: map<Key, Identity>, extras: seq<ScanEntry>,
                            nextPid: nat)
  {
    forall pid | pid in running :: pid < nextPid && Listed(processes, extras, NORMAL(running[pid].path))
  }

  predicate Alive(running: map<nat, Process>, k: Key, id: Identity) {
    k == KeyOf(id) && k.pid in running && running[k.pid] == Process(id.exe, true)
  }

  ghost predicate AllRun(running: map<nat, Process>, processes: map<Key, Identity>) {
    forall k | k in processes :: Alive(running, k, processes[k])
  }

  predicate OnePerPid(processes: map<Key, Identity>) {
    forall k, l | k in processes && l in processes && k.pid == l.pid :: k == l
  }

  /** The process table is that of `m`: what was launched is registered there under its pid. */
  ghost predicate Table(m: Machine, processes: map<Key, Identity>, extras: seq<ScanEntry>, nextPid: nat) {
    AllListed(m.running, processes, extras, nextPid) && AllRun(m.running, processes) && OnePerPid(processes)
  }

  /** Then at most one registered process per executable, in every state the moves reach. */
  lemma RegisteredOnce(m: Machine, processes: map<Key, Identity>, extras: seq<ScanEntry>, nextPid: nat,
                       k: Key, l: Key)
    requires Sound(m) && Table(m, processes, extras, nextPid) && k in processes && l in processes
    requires NORMAL(processes[k].exe) == NORMAL(processes[l].exe)
    ensures k == l
  {
    assert Alive(m.running, k, processes[k]) && Alive(m.running, l, processes[l]);
  }

  /** Registering a launched process is a spawn of the machine. */
  lemma LaunchIsASpawn(m: Machine, processes: map<Key, Identity>, extras: seq<ScanEntry>, i: nat, id: Identity)
    requires Table(m, processes, extras, id.pid) && PhaseOf(m, i) == Cleared(id.exe)
    ensures May(m, Spawn(i, Some(id.pid)))
    ensures Table(After(m, Spawn(i, Some(id.pid))), processes[KeyOf(id) := id], extras, id.pid + 1)
  {
    FreshPid(m.running, processes, extras, id);
    LaunchIsListed(m.running, processes, extras, id);
    LaunchRuns(m.running, processes, id);
  }

  lemma FreshPid(running: map<nat, Process>, processes: map<Key, Identity>, extras: seq<ScanEntry>, id: Identity)
    requires AllListed(running, processes, extras, id.pid) && AllRun(running, processes)
    ensures id.pid !in running && forall k | k in processes :: k.pid != id.pid
  {
    forall k | k in processes ensures k.pid != id.pid {
      assert Alive(running, k, processes[k]);
    }
  }

  lemma LaunchRuns(running: map<nat, Process>, processes: map<Key, Identity>, id: Identity)
    requires AllRun(running, processes) && OnePerPid(processes)
    requires forall k | k in processes :: k.pid != id.pid
    ensures AllRun(running[id.pid := Process(id.exe, true)], processes[KeyOf(id) := id])
    ensures OnePerPid(processes[KeyOf(id) := id])
  {
    var processes' := processes[KeyOf(id) := id];
    forall k | k in processes'
      ensures Alive(running[id.pid := Process(id.exe, true)], k, processes'[k])
    {
      assert k != KeyOf(id) ==> Alive(running, k, processes[k]);
    }
  }

  lemma LaunchIsListed(running: map<nat, Process>, processes: map<Key, Identity>, extras: seq<ScanEntry>, id: Identity)
    requires AllListed(running, processes, extras, id.pid) && KeyOf(id) !in processes
    ensures AllListed(running[id.pid := Process(id.exe, true)], processes[KeyOf(id) := id], extras, id.pid + 1)
  {
    var running', processes' := running[id.pid := Process(id.exe, true)], processes[KeyOf(id) := id];
    assert KeyOf(id) in processes';
    forall pid | pid in running'
      ensures pid < id.pid + 1 && Listed(processes', extras, NORMAL(running'[pid].path))
    {
      if pid != id.pid { ListedStays(processes, extras, KeyOf(id), id, NORMAL(running[pid].path)); }
    }
  }

  lemma ListedStays(processes: map<Key, Identity>, extras: seq<ScanEntry>, k: Key, id: Identity, target: Executable)
    requires k !in processes && Listed(processes, extras, target)
    ensures Listed(processes[k := id], extras, target)
  {
    if l :| l in processes && NORMAL(processes[l].exe) == target {
      assert l in processes[k := id];
    }
  }

  datatype LaunchOutcome = Launched | SpawnFailure | ExitedImmediately | IdentityUnverified | AdapterUnavailable

  datatype CleanupOutcome = Released | ReleaseFailed

  datatype GuardedOutcome =
    | Spawned(identity: Identity) | ExistingCivDetected(pid: nat) | ScanIndeterminate(pid: nat)
    | GuardBusy | GuardUnavailable | Failed(reason: LaunchOutcome)

  /** The outcome of a scan that ran, and of the launch that a clear one allows; `scripted`
      is what becomes of the launch. */
  ghost predicate Fits(processes: map<Key, Identity>, extras: seq<ScanEntry>, target: Executable,
                       scripted: LaunchOutcome, o: GuardedOutcome)
  {
    var runs, may := Runs(processes, extras, target), MayRun(extras, target);
    && (o.ExistingCivDetected? <==> runs)
    && (o.ExistingCivDetected? ==> RunsAs(processes, extras, target, o.pid))
    && (o.ScanIndeterminate? <==> !runs && may)
    && (o.ScanIndeterminate? ==> MayRunAs(extras, target, o.pid))
    && (o.Spawned? <==> !runs && !may && scripted == Launched)
    && (o.Failed? <==> !runs && !may && scripted != Launched)
    && (o.Failed? ==> o.reason == scripted)
  }

  /** A result, or the exception of the scan or the launch. */
  datatype Guarded =
    | Result(outcome: GuardedOutcome, recovered: bool, cleanup: Option<CleanupOutcome>)
    | Raised(cleanupFailed: bool)

  /** One Relay instance's supervisor.  `outcome` scripts the spawn; the two flags let the
      scan or the launch raise instead. */
  class FakeProcessSupervisor {
    const machine: FakeMachine
    var outcome: LaunchOutcome
    var scanRaises: bool
    var launchRaises: bool
    var launches: nat

    constructor (machine: FakeMachine)
      ensures this.machine == machine && launches == 0
    {
      this.machine := machine;
      outcome, scanRaises, launchRaises, launches := Launched, false, false, 0;
    }

    ghost predicate Registers(m: Machine)
      reads this, machine
    {
      Table(m, machine.processes, machine.extraEntries, machine.nextPid)
    }

    /** Instance `i` is about to launch: a guard that is free here is free in `m`. */
    ghost predicate Mirrors(m: Machine, i: nat, path: RawPath)
      reads this, machine
    {
      && Registers(m) && PhaseOf(m, i).Resting?
      && (machine.Available() ==> NORMAL(path) !in m.holders)
    }

    /** Spawns at most one process, of the given executable. */
    method LaunchProcess(path: RawPath) returns (raised: bool, o: LaunchOutcome, identity: Option<Identity>)
      modifies this`launches, machine
      ensures launches == old(launches) + 1
      ensures machine.heldHandle == old(machine.heldHandle) && machine.releases == old(machine.releases)
      ensures machine.acquisitions == old(machine.acquisitions) && machine.releaseFails == old(machine.releaseFails)
      ensures raised <==> launchRaises
      ensures o == outcome && (identity.Some? <==> !raised && o == Launched)
      ensures identity.Some? ==>
                identity.value.exe == path
                && machine.processes == old(machine.processes)[KeyOf(identity.value) := identity.value]
      ensures identity.Some? ==>
                identity.value.pid == old(machine.nextPid) && machine.nextPid == old(machine.nextPid) + 1
      ensures identity.None? ==>
                machine.processes == old(machine.processes) && machine.nextPid == old(machine.nextPid)
      ensures machine.extraEntries == old(machine.extraEntries)
    {
      launches := launches + 1;
      if launchRaises { return true, outcome, None; }
      if outcome != Launched { return false, outcome, None; }
      var id := Identity(machine.nextPid, machine.nextToken, path);
      machine.nextPid, machine.nextToken := machine.nextPid + 1, machine.nextToken + 1;
      machine.processes := machine.processes[KeyOf(id) := id];
      return false, Launched, Some(id);
    }

    /** No registered process and no scripted entry is, or looks like, the executable. */
    ghost predicate Clear(path: RawPath)
      reads this, machine
    {
      && !Runs(machine.processes, machine.extraEntries, NORMAL(path))
      && !MayRun(machine.extraEntries, NORMAL(path))
    }

    method ScanAndLaunch(path: RawPath, ghost m: Machine, ghost i: nat)
      returns (raised: bool, o: GuardedOutcome, ghost moves: seq<Move>)
      modifies this`launches, machine
      ensures machine.heldHandle == old(machine.heldHandle) && machine.releases == old(machine.releases)
      ensures machine.acquisitions == old(machine.acquisitions) && machine.releaseFails == old(machine.releaseFails)
      ensures launches == old(launches) || launches == old(launches) + 1
      ensures launches == old(launches) + 1 <==> !scanRaises && old(Clear(path))
      ensures raised <==> scanRaises || (old(Clear(path)) && launchRaises)
      ensures !raised ==>
                Fits(old(machine.processes), old(machine.extraEntries), NORMAL(path), outcome, o)
      ensures !raised && o.Spawned? ==>
                launches == old(launches) + 1 && o.identity.exe == path
                && machine.processes == old(machine.processes)[KeyOf(o.identity) := o.identity]
      ensures raised || !o.Spawned? ==> machine.processes == old(machine.processes)
      ensures o != GuardBusy && o != GuardUnavailable
      ensures old(Registers(m)) && PhaseOf(m, i) == Guarding(path) ==>
                && MayAll(m, moves) && Registers(AfterAll(m, moves))
                && !PhaseOf(AfterAll(m, moves), i).Resting? && AfterAll(m, moves).holders == m.holders
    {
      moves := [];
      if scanRaises { return true, Failed(SpawnFailure), moves; }
      var entries := machine.ScanEntries();
      var found := ClassifyScanEntries(entries, path);
      ScanFinds(machine.processes, machine.extraEntries, NORMAL(path), entries, found);
      ghost var scan := Scan(i, entries, found);
      ghost var live := Registers(m) && PhaseOf(m, i) == Guarding(path);
      moves := [scan];
      if live {
        ScanShowsAll(m, entries);
        OneMove(m, scan);
      }
      match found {
        case ExactMatch(pid) => return false, ExistingCivDetected(pid), moves;
        case Indeterminate(pid) => return false, ScanIndeterminate(pid), moves;
        case NoMatch =>
          var identity, reason;
          raised, reason, identity := LaunchProcess(path);
          o := if identity.Some? then Spawned(identity.value) else Failed(reason);
          ghost var spawn := Spawn(i, if identity.Some? then Some(identity.value.pid) else None);
          if live {
            if identity.Some? {
              LaunchIsASpawn(After(m, scan), old(machine.processes), machine.extraEntries, i, identity.value);
            }
            OneMove(After(m, scan), spawn);
            MovesJoin(m, moves, [spawn]);
          }
          moves := moves + [spawn];
      }
    }

    lemma ScanShowsAll(m: Machine, entries: seq<ScanEntry>)
      requires Registers(m) && ListingOf(entries, machine.processes, machine.extraEntries)
      ensures Lists(entries, m.running)
    {
      forall pid | pid in m.running
        ensures exists e | e in entries ::
                  Exact(e, NORMAL(m.running[pid].path)) || LooksLike(e, NORMAL(m.running[pid].path))
      {
        assert Listed(machine.processes, machine.extraEntries, NORMAL(m.running[pid].path));
        if k :| k in machine.processes && NORMAL(machine.processes[k].exe) == NORMAL(m.running[pid].path) {
          var e := EntryOf(machine.processes[k]);
          assert e in entries && Exact(e, NORMAL(m.running[pid].path));
        }
      }
    }

    /** The guarded launch: a guard that was acquired is released exactly once, exceptions
        included; a process is spawned exactly when the guard was free and usable and the scan
        ran and was clear; every outcome is given exactly when its condition held; a failing
        release changes nothing else about the result.  The launch is a
        sequence of moves of instance `i` of the machine `m`. */
    method GuardedLaunch(path: RawPath, ghost m: Machine, ghost i: nat)
      returns (r: Guarded, ghost moves: seq<Move>)
      modifies this`launches, machine
      ensures machine.acquisitions == old(machine.acquisitions) + 1
      ensures machine.releases == old(machine.releases) + (if old(machine.Available()) then 1 else 0)
      ensures machine.heldHandle == if old(machine.Available()) then None else old(machine.heldHandle)
      ensures launches == old(launches) || launches == old(launches) + 1
      ensures launches == old(launches) + 1 <==>
                old(machine.Available()) && !scanRaises && old(Clear(path))
      ensures r.Raised? <==>
                old(machine.Available()) && (scanRaises || (old(Clear(path)) && launchRaises))
      ensures r.Result? ==>
                && (r.outcome == GuardUnavailable <==> old(machine.guardUnavailable))
                && (r.outcome == GuardBusy <==>
                      !old(machine.guardUnavailable) && (old(machine.externallyHeld) || old(machine.heldHandle).Some?))
                && (old(machine.Available()) ==>
                      Fits(old(machine.processes), old(machine.extraEntries), NORMAL(path), outcome, r.outcome))
      ensures r.Result? && r.outcome.Spawned? ==>
                launches == old(launches) + 1 && r.outcome.identity.exe == path
                && machine.processes == old(machine.processes)[KeyOf(r.outcome.identity) := r.outcome.identity]
      ensures !(r.Result? && r.outcome.Spawned?) ==> machine.processes == old(machine.processes)
      ensures !old(machine.Available()) ==>
                r.Result? && r.cleanup.None? && (r.outcome == GuardBusy || r.outcome == GuardUnavailable)
      ensures old(machine.Available()) && r.Result? ==>
                r.cleanup.Some? && r.outcome != GuardBusy && r.outcome != GuardUnavailable
                && r.recovered == old(machine.abandoned)
                && r.cleanup == Some(if old(machine.releaseFails) then ReleaseFailed else Released)
      ensures r.Raised? ==> r.cleanupFailed == old(machine.releaseFails)
      ensures old(Mirrors(m, i, path)) ==> MayAll(m, moves) && Mirrors(AfterAll(m, moves), i, path)
    {
      ghost var live := Mirrors(m, i, path);
      moves := [];
      var acquisition := machine.Acquire();
      if acquisition.outcome == Unavailable { return Result(GuardUnavailable, false, None), moves; }
      if acquisition.outcome == Busy { return Result(GuardBusy, false, None), moves; }
      ghost var take := Move.Acquire(i, path);
      ghost var m1 := if live then After(m, take) else m;
      var raised, primary;
      raised, primary, moves := ScanAndLaunch(path, m1, i);
      var cleanupFailed := machine.ReleaseGuard(acquisition);
      if live { LaunchEnds(m, i, path, moves); }
      moves := [take] + moves + [Release(i)];
      if raised { return Raised(cleanupFailed), moves; }
      return Result(primary, acquisition.outcome == AcquiredAbandoned,
                    Some(if cleanupFailed then ReleaseFailed else Released)), moves;
    }

    /** Taking and releasing the guard around the moves of a launch. */
    lemma LaunchEnds(m: Machine, i: nat, path: RawPath, moves: seq<Move>)
      requires May(m, Move.Acquire(i, path))
      requires var m1 := After(m, Move.Acquire(i, path));
               MayAll(m1, moves) && !PhaseOf(AfterAll(m1, moves), i).Resting?
               && Registers(AfterAll(m1, moves))
               && NORMAL(path) in AfterAll(m1, moves).holders && AfterAll(m1, moves).holders[NORMAL(path)] == i
      ensures var all := [Move.Acquire(i, path)] + moves + [Release(i)];
              && MayAll(m, all) && Registers(AfterAll(m, all))
              && PhaseOf(AfterAll(m, all), i).Resting? && NORMAL(path) !in AfterAll(m, all).holders
    {
      var take, leave := Move.Acquire(i, path), Release(i);
      OneMove(m, take);
      MovesJoin(m, [take], moves);
      OneMove(AfterAll(m, [take] + moves), leave);
      MovesJoin(m, [take] + moves, [leave]);
    }
  }
}
