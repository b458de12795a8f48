/** The guarded launch: acquire the machine's guard, scan, spawn, release. */
module Guard {
  import opened Domain
  import opened Evidence
  import opened Handoff

  type RawPath = nat
  type Executable = nat
  type ShortName = nat

  /** Path normalization and the case-folded file name of a normalized path: arbitrary
      fixed functions. */
  const NORMAL: RawPath -> Executable
  const BASENAME: Executable -> ShortName

  /** A process as the scan reports it; `None` where the backend could not tell. */
  datatype ScanEntry = ScanEntry(pid: nat, path: Option<RawPath>, name: Option<ShortName>)

  datatype ScanResult = NoMatch | ExactMatch(pid: nat) | Indeterminate(pid: nat)

  predicate Exact(e: ScanEntry, target: Executable) {
    e.path.Some? && NORMAL(e.path.value) == target
  }

  predicate LooksLike(e: ScanEntry, target: Executable) {
    e.path.None? && e.name == Some(BASENAME(target))
  }

  /** The first entry that exactly is the target; failing that, the first that merely looks
      like it; failing both, no match. */
  ghost predicate Classifies(entries: seq<ScanEntry>, target: Executable, r: ScanResult) {
    match r
    case ExactMatch(pid) =>
      exists i :: 0 <= i < |entries| && Exact(entries[i], target) && entries[i].pid == pid
                  && forall j | 0 <= j < i :: !Exact(entries[j], target)
    case Indeterminate(pid) =>
      && (forall e | e in entries :: !Exact(e, target))
      && exists i :: 0 <= i < |entries| && LooksLike(entries[i], target) && entries[i].pid == pid
                     && forall j | 0 <= j < i :: !LooksLike(entries[j], target)
    case NoMatch => forall e | e in entries :: !Exact(e, target) && !LooksLike(e, target)
  }

  method ClassifyScanEntries(entries: seq<ScanEntry>, path: RawPath) returns (r: ScanResult)
    ensures Classifies(entries, NORMAL(path), r)
  {
    var target := NORMAL(path);
    var doubtful: Option<ScanEntry> := None;
    for i := 0 to |entries|
      invariant forall j | 0 <= j < i :: !Exact(entries[j], target)
      invariant doubtful.None? ==> forall j | 0 <= j < i :: !LooksLike(entries[j], target)
      invariant doubtful.Some? ==>
                  exists k :: 0 <= k < i && LooksLike(entries[k], target) && entries[k] == doubtful.value
                              && forall j | 0 <= j < k :: !LooksLike(entries[j], target)
    {
      var e := entries[i];
      if e.path.Some? {
        if NORMAL(e.path.value) == target { return ExactMatch(e.pid); }
        continue;
      }
      if e.name == Some(BASENAME(target)) && doubtful.None? { doubtful := Some(e); }
    }
    return if doubtful.Some? then Indeterminate(doubtful.value.pid) else NoMatch;
  }

  /** Every list has one classification. */
  lemma ClassificationIsUnique(entries: seq<ScanEntry>, target: Executable, r: ScanResult, r': ScanResult)
    requires Classifies(entries, target, r) && Classifies(entries, target, r')
    ensures r == r'
  {
  }

  // ----- one machine -----

  /** A running process; `launched` when a Relay instance spawned it. */
  datatype Process = Process(path: RawPath, launched: bool)

  /** The scan lists every running process, by its path or at least by its name. */
  ghost predicate Lists(entries: seq<ScanEntry>, running: map<nat, Process>) {
    forall pid | pid in running ::
      exists e | e in entries ::
        Exact(e, NORMAL(running[pid].path)) || LooksLike(e, NORMAL(running[pid].path))
  }

  lemma NoMatchMeansNone(entries: seq<ScanEntry>, running: map<nat, Process>, target: Executable, pid: nat)
    requires Lists(entries, running) && Classifies(entries, target, NoMatch) && pid in running
    ensures NORMAL(running[pid].path) != target
  {
  }

  // ----- any number of Relay instances -----

  datatype Phase = Resting | Guarding(path: RawPath) | Cleared(path: RawPath) | Leaving(path: RawPath)

  /** `holders` says which instance holds the guard of an executable. */
  datatype Machine = Machine(running: map<nat, Process>, holders: map<Executable, nat>, phases: map<nat, Phase>)

  datatype Move =
    | Acquire(who: nat, path: RawPath)
    | Scan(who: nat, entries: seq<ScanEntry>, found: ScanResult)
    | Spawn(who: nat, spawned: Option<nat>)
    | Release(who: nat)
    | Die(who: nat)
    | Exit(pid: nat)
    | StartByHand(pid: nat, path: RawPath)

  function PhaseOf(m: Machine, i: nat): Phase {
    if i in m.phases then m.phases[i] else Resting
  }

  ghost predicate May(m: Machine, mv: Move) {
    match mv
    case Acquire(i, p) => PhaseOf(m, i).Resting? && NORMAL(p) !in m.holders
    case Scan(i, entries, found) =>
      && PhaseOf(m, i).Guarding? && Lists(entries, m.running)
      && Classifies(entries, NORMAL(PhaseOf(m, i).path), found)
    case Spawn(i, pid) => PhaseOf(m, i).Cleared? && (pid.Some? ==> pid.value !in m.running)
    // also when the scan or the launch raised
    case Release(i) => !PhaseOf(m, i).Resting?
    case Die(_) | Exit(_) => true
    case StartByHand(pid, _) => pid !in m.running
  }

  function Freed(m: Machine, i: nat): map<Executable, nat> {
    map e | e in m.holders && m.holders[e] != i :: m.holders[e]
  }

  ghost function After(m: Machine, mv: Move): Machine
    requires May(m, mv)
  {
    match mv
    case Acquire(i, p) =>
      m.(holders := m.holders[NORMAL(p) := i], phases := m.phases[i := Guarding(p)])
    case Scan(i, _, found) =>
      var p := PhaseOf(m, i).path;
      m.(phases := m.phases[i := if found.NoMatch? then Cleared(p) else Leaving(p)])
    case Spawn(i, pid) =>
      var p := PhaseOf(m, i).path;
      m.(phases := m.phases[i := Leaving(p)],
         running := if pid.Some? then m.running[pid.value := Process(p, true)] else m.running)
    // a crashed holder's guard is abandoned: the system hands it to the next waiter
    case Release(i) => m.(phases := m.phases[i := Resting], holders := Freed(m, i))
    case Die(i) => m.(phases := m.phases[i := Resting], holders := Freed(m, i))
    case Exit(pid) => m.(running := m.running - {pid})
    case StartByHand(pid, p) => m.(running := m.running[pid := Process(p, false)])
  }

  ghost predicate MayAll(m: Machine, moves: seq<Move>)
    decreases |moves|
  {
    moves == [] || (May(m, moves[0]) && MayAll(After(m, moves[0]), moves[1..]))
  }

  ghost function AfterAll(m: Machine, moves: seq<Move>): Machine
    requires MayAll(m, moves)
    decreases |moves|
  {
    if moves == [] then m else AfterAll(After(m, moves[0]), moves[1..])
  }

  lemma OneMove(m: Machine, mv: Move)
    requires May(m, mv)
    ensures MayAll(m, [mv]) && AfterAll(m, [mv]) == After(m, mv)
  {
    assert [mv][1..] == [];
    assert MayAll(After(m, mv), []) && AfterAll(After(m, mv), []) == After(m, mv);
  }

  lemma {:induction false} MovesJoin(m: Machine, first: seq<Move>, second: seq<Move>)
    requires MayAll(m, first) && MayAll(AfterAll(m, first), second)
    ensures MayAll(m, first + second) && AfterAll(m, first + second) == AfterAll(AfterAll(m, first), second)
    decreases |first|
  {
    if first == [] {
      assert first + second == second;
    } else {
      assert (first + second)[1..] == first[1..] + second;
      MovesJoin(After(m, first[0]), first[1..], second);
    }
  }

  predicate LaunchedOf(m: Machine, pid: nat, target: Executable) {
    pid in m.running && m.running[pid].launched && NORMAL(m.running[pid].path) == target
  }

  /** Whoever is past acquisition holds the guard of its executable; a cleared instance
      knows that no launched process of it runs; at most one such process ever does. */
  ghost predicate Sound(m: Machine) {
    && (forall i | i in m.phases && !m.phases[i].Resting? ::
          NORMAL(m.phases[i].path) in m.holders && m.holders[NORMAL(m.phases[i].path)] == i)
    && (forall i, pid | i in m.phases && m.phases[i].Cleared? :: !LaunchedOf(m, pid, NORMAL(m.phases[i].path)))
    && (forall p, q | p in m.running && q in m.running && m.running[p].launched && m.running[q].launched
                      && NORMAL(m.running[p].path) == NORMAL(m.running[q].path) :: p == q)
  }

  lemma ScanKeepsSound(m: Machine, mv: Move)
    requires Sound(m) && May(m, mv) && mv.Scan?
    ensures Sound(After(m, mv))
  {
    var target := NORMAL(PhaseOf(m, mv.who).path);
    if mv.found.NoMatch? {
      forall pid ensures !LaunchedOf(m, pid, target) {
        if pid in m.running { NoMatchMeansNone(mv.entries, m.running, target, pid); }
      }
    }
    var m' := After(m, mv);
    forall i, pid | i in m'.phases && m'.phases[i].Cleared?
      ensures !LaunchedOf(m', pid, NORMAL(m'.phases[i].path))
    {
      if i == mv.who {
        assert !LaunchedOf(m, pid, target);
      } else {
        assert i in m.phases && m.phases[i].Cleared?;
        assert !LaunchedOf(m, pid, NORMAL(m.phases[i].path));
      }
    }
  }

  lemma SpawnKeepsSound(m: Machine, mv: Move)
    requires Sound(m) && May(m, mv) && mv.Spawn?
    ensures Sound(After(m, mv))
  {
    var m' := After(m, mv);
    var target := NORMAL(PhaseOf(m, mv.who).path);
    assert mv.who in m.phases && m.phases[mv.who].Cleared?;
    forall i, pid | i in m'.phases && m'.phases[i].Cleared?
      ensures !LaunchedOf(m', pid, NORMAL(m'.phases[i].path))
    {
      assert i != mv.who && i in m.phases && m.phases[i].Cleared?;
      assert NORMAL(m.phases[i].path) != target;
      assert !LaunchedOf(m, pid, NORMAL(m.phases[i].path));
    }
    forall p, q | p in m'.running && q in m'.running && m'.running[p].launched && m'.running[q].launched
                  && NORMAL(m'.running[p].path) == NORMAL(m'.running[q].path)
      ensures p == q
    {
      if mv.spawned.Some? {
        assert !LaunchedOf(m, p, target) && !LaunchedOf(m, q, target);
      }
    }
  }

  lemma MoveKeepsSound(m: Machine, mv: Move)
    requires Sound(m) && May(m, mv)
    ensures Sound(After(m, mv))
  {
    if mv.Scan? {
      ScanKeepsSound(m, mv);
    } else if mv.Spawn? {
      SpawnKeepsSound(m, mv);
    } else {
      var m' := After(m, mv);
      forall i, pid | i in m'.phases && m'.phases[i].Cleared?
        ensures !LaunchedOf(m', pid, NORMAL(m'.phases[i].path))
      {
        assert i in m.phases && m.phases[i] == m'.phases[i];
        assert !LaunchedOf(m, pid, NORMAL(m.phases[i].path));
      }
    }
  }

  lemma {:induction false} MovesKeepSound(m: Machine, moves: seq<Move>)
    requires Sound(m) && MayAll(m, moves)
    ensures Sound(AfterAll(m, moves))
    decreases |moves|
  {
    if moves != [] {
      MoveKeepsSound(m, moves[0]);
      MovesKeepSound(After(m, moves[0]), moves[1..]);
    }
  }

  /** One Civ per executable: however Relay instances interleave, crash, and are joined by
      processes started by hand, at most one process they launched runs per executable. */
  lemma OneCivPerExecutable(moves: seq<Move>, p: nat, q: nat, target: Executable)
    requires MayAll(Machine(map[], map[], map[]), moves)
    requires var m := AfterAll(Machine(map[], map[], map[]), moves);
             LaunchedOf(m, p, target) && LaunchedOf(m, q, target)
    ensures p == q
  {
    MovesKeepSound(Machine(map[], map[], map[]), moves);
  }
}
