/** The clients of one match with their process coordinators: every run of the shared world
    in which clients also probe, launch, close and terminate processes.

    The entitlement that licenses a termination is the client's stored record in the world;
    the session and the log of the calls that reached the supervisor stand beside it. */
module Closing {
  import opened Domain
  import opened Handoff
  import opened Evidence
  import opened World
  import opened Invariant
  import opened Runs
  import opened Outcomes
  import opened Guard
  import opened Launch
  import opened Coordinator

  /** A client's coordinator session, and every call that ever reached its supervisor. */
  datatype Desk = Desk(session: Session, log: seq<Call>)

  datatype System = System(world: World, managed: set<ClientId>, desks: map<ClientId, Desk>)

  /** `CutShort` is a use of the coordinator during which the client crashes, after the
      first `reached` of its calls. */
  datatype Happening =
    | Worldly(event: Event)
    | ChangeMode(who: ClientId, managed: bool)
    | Use(who: ClientId, ask: Ask)
    | CutShort(who: ClientId, ask: Ask, reached: nat)

  const NO_DESK := Desk(FRESH, [])

  function DeskOf(s: System, c: ClientId): Desk {
    if c in s.desks then s.desks[c] else NO_DESK
  }

  function Pending(s: System, c: ClientId): Option<CloseRecord> {
    ClientOf(s.world, c).mem.pending
  }

  function Opening(game: GameId): System {
    System(Start(game), {}, map[])
  }

  /** What the client's close path may ask of its coordinator: to terminate the process of
      the stored entitlement, in managed mode; to close it gracefully, in standard mode. */
  predicate MayAsk(s: System, c: ClientId, a: Ask) {
    match a
    case DoTerminate(id, record, _, _, _, _) =>
      c in s.managed && Pending(s, c) == Some(record) && id == record.identity
    case DoClose(id, op, _, _, _) =>
      c !in s.managed && Pending(s, c).Some? && id == Pending(s, c).value.identity
      && op == Pending(s, c).value.op
    case _ => true
  }

  predicate Allowed(s: System, h: Happening) {
    match h
    case Worldly(e) => Enabled(s.world, e)
    case ChangeMode(_, _) => true
    case Use(c, a) => MayAsk(s, c, a)
    case CutShort(c, a, n) => MayAsk(s, c, a) && n <= |Served(DeskOf(s, c).session, a).1|
  }

  function Restarted(d: Desk): Desk { d.(session := FRESH) }

  function Seat(s: System, c: ClientId, d: Desk): System {
    s.(desks := s.desks[c := d])
  }

  function Happened(s: System, h: Happening): System
    requires Allowed(s, h)
  {
    match h
    case Worldly(e) =>
      var s' := s.(world := Next(s.world, e));
      if e.Crash? then Seat(s', e.who, Restarted(DeskOf(s, e.who))) else s'
    case ChangeMode(c, managed) => s.(managed := if managed then s.managed + {c} else s.managed - {c})
    case Use(c, a) =>
      var (session, calls) := Served(DeskOf(s, c).session, a);
      Seat(s, c, Desk(session, DeskOf(s, c).log + calls))
    case CutShort(c, a, n) =>
      var calls := Served(DeskOf(s, c).session, a).1;
      Seat(s.(world := Next(s.world, Crash(c))), c, Desk(FRESH, DeskOf(s, c).log + calls[..n]))
  }

  ghost predicate IsHistory(s: System, hs: seq<Happening>)
    decreases |hs|
  {
    hs == [] || (Allowed(s, hs[0]) && IsHistory(Happened(s, hs[0]), hs[1..]))
  }

  ghost function Ending(s: System, hs: seq<Happening>): System
    requires IsHistory(s, hs)
    decreases |hs|
  {
    if hs == [] then s else Ending(Happened(s, hs[0]), hs[1..])
  }

  // ----- a history is a run of the world -----

  /** What a happening is in the world. */
  function InWorld(h: Happening): seq<Event> {
    match h
    case Worldly(e) => [e]
    case CutShort(c, _, _) => [Crash(c)]
    case _ => []
  }

  ghost function AllInWorld(hs: seq<Happening>): seq<Event> {
    if hs == [] then [] else InWorld(hs[0]) + AllInWorld(hs[1..])
  }

  /** So every theorem about runs of the world holds of every history. */
  lemma {:induction false} HistoryIsARun(s: System, hs: seq<Happening>)
    requires IsHistory(s, hs)
    ensures IsRun(s.world, AllInWorld(hs)) && Final(s.world, AllInWorld(hs)) == Ending(s, hs).world
    decreases |hs|
  {
    if hs != [] {
      HistoryIsARun(Happened(s, hs[0]), hs[1..]);
      var events, rest := AllInWorld(hs), AllInWorld(hs[1..]);
      if InWorld(hs[0]) == [] {
        assert events == rest;
      } else {
        assert events[0] == InWorld(hs[0])[0] && events[1..] == rest;
      }
    }
  }

  lemma ChainGrows(w: World, e: Event)
    requires Enabled(w, e)
    ensures w.chain <= Next(w, e).chain
  {
  }

  /** The chain and every log only grow. */
  lemma {:induction false} HistoryGrows(s: System, hs: seq<Happening>, c: ClientId)
    requires IsHistory(s, hs)
    ensures s.world.chain <= Ending(s, hs).world.chain
    ensures DeskOf(s, c).log <= DeskOf(Ending(s, hs), c).log
    decreases |hs|
  {
    if hs != [] {
      var s1 := Happened(s, hs[0]);
      if hs[0].Worldly? { ChainGrows(s.world, hs[0].event); }
      assert DeskOf(s, c).log <= DeskOf(s1, c).log;
      HistoryGrows(s1, hs[1..], c);
    }
  }

  lemma {:induction false} PartOfHistory(s: System, hs: seq<Happening>, n: nat)
    requires IsHistory(s, hs) && n <= |hs|
    ensures IsHistory(s, hs[..n]) && IsHistory(Ending(s, hs[..n]), hs[n..])
    ensures Ending(Ending(s, hs[..n]), hs[n..]) == Ending(s, hs)
    decreases |hs|
  {
    if n == 0 {
      assert hs[..0] == [] && hs[0..] == hs;
    } else {
      PartOfHistory(Happened(s, hs[0]), hs[1..], n - 1);
      assert hs[..n][0] == hs[0] && hs[..n][1..] == hs[1..][..n - 1] && hs[n..] == hs[1..][n - 1..];
    }
  }

  lemma OneHappening(s: System, h: Happening)
    requires Allowed(s, h)
    ensures IsHistory(s, [h]) && Ending(s, [h]) == Happened(s, h)
  {
    assert [h][1..] == [];
    assert IsHistory(Happened(s, h), []) && Ending(Happened(s, h), []) == Happened(s, h);
  }

  lemma {:induction false} HistoriesJoin(s: System, first: seq<Happening>, second: seq<Happening>)
    requires IsHistory(s, first) && IsHistory(Ending(s, first), second)
    ensures IsHistory(s, first + second) && Ending(s, first + second) == Ending(Ending(s, first), second)
    decreases |first|
  {
    if first == [] {
      assert first + second == second;
    } else {
      assert (first + second)[1..] == first[1..] + second;
      HistoriesJoin(Happened(s, first[0]), first[1..], second);
    }
  }

  function Lifted(events: seq<Event>): seq<Happening> {
    if events == [] then [] else [Worldly(events[0])] + Lifted(events[1..])
  }

  /** And a run of the world without crashes is a history. */
  lemma {:induction false} RunIsAHistory(s: System, events: seq<Event>)
    requires IsRun(s.world, events) && forall e | e in events :: !e.Crash?
    ensures IsHistory(s, Lifted(events))
    ensures Ending(s, Lifted(events)) == s.(world := Final(s.world, events))
    decreases |events|
  {
    if events != [] {
      assert events[0] in events;
      assert forall e | e in events[1..] :: e in events;
      RunIsAHistory(Happened(s, Worldly(events[0])), events[1..]);
      assert Lifted(events)[1..] == Lifted(events[1..]);
    }
  }

  // ----- what licensed a call -----

  /** The client's mode and stored entitlement license this call. */
  predicate Licenses(s: System, c: ClientId, call: Call) {
    match call
    case Terminated(key, record, _) =>
      c in s.managed && Pending(s, c) == Some(record) && key == KeyOf(record.identity)
    case AskedToClose(key) =>
      c !in s.managed && Pending(s, c).Some? && key == KeyOf(Pending(s, c).value.identity)
    case _ => true
  }

  lemma ServedIsLicensed(s: System, c: ClientId, a: Ask, i: nat)
    requires MayAsk(s, c, a) && i < |Served(DeskOf(s, c).session, a).1|
    ensures Licenses(s, c, Served(DeskOf(s, c).session, a).1[i])
  {
  }

  lemma HappeningIsLicensed(s: System, h: Happening, c: ClientId, i: nat)
    requires Allowed(s, h) && |DeskOf(s, c).log| <= i < |DeskOf(Happened(s, h), c).log|
    ensures Licenses(s, c, DeskOf(Happened(s, h), c).log[i])
  {
    ServedIsLicensed(s, c, h.ask, i - |DeskOf(s, c).log|);
  }

  /** Some state of the history licensed this call of the client. */
  ghost predicate LicensedAt(s: System, hs: seq<Happening>, n: nat, c: ClientId, call: Call) {
    n <= |hs| && IsHistory(s, hs[..n]) && Licenses(Ending(s, hs[..n]), c, call)
  }

  lemma {:induction false} CallWasLicensed(s: System, hs: seq<Happening>, c: ClientId, i: nat) returns (n: nat)
    requires IsHistory(s, hs) && |DeskOf(s, c).log| <= i < |DeskOf(Ending(s, hs), c).log|
    ensures LicensedAt(s, hs, n, c, DeskOf(Ending(s, hs), c).log[i])
    decreases |hs|
  {
    var s1 := Happened(s, hs[0]);
    HistoryGrows(s1, hs[1..], c);
    if i < |DeskOf(s1, c).log| {
      HappeningIsLicensed(s, hs[0], c, i);
      n := 0;
      assert hs[..0] == [];
    } else {
      var k := CallWasLicensed(s1, hs[1..], c, i);
      n := k + 1;
      assert hs[..n][0] == hs[0] && hs[..n][1..] == hs[1..][..k];
    }
  }

  // ----- no close before commit -----

  /** In every history, every termination that ever reached a client's supervisor, and every
      graceful close, was licensed when it was sent: by managed mode and exactly the stored
      entitlement, or by standard mode and the entitlement's process. */
  lemma EveryCallWasLicensed(game: GameId, hs: seq<Happening>, c: ClientId, i: nat) returns (n: nat)
    requires IsHistory(Opening(game), hs) && i < |DeskOf(Ending(Opening(game), hs), c).log|
    ensures LicensedAt(Opening(game), hs, n, c, DeskOf(Ending(Opening(game), hs), c).log[i])
  {
    n := CallWasLicensed(Opening(game), hs, c, i);
  }

  lemma HistoryIsReachable(game: GameId, hs: seq<Happening>)
    requires IsHistory(Opening(game), hs)
    ensures Reachable(Ending(Opening(game), hs).world)
  {
    HistoryIsARun(Opening(game), hs);
  }

  lemma CommittedStays(chain: seq<Block>, chain': seq<Block>, c: ClientId, r: CloseRecord)
    requires chain <= chain' && CommittedTurn(chain, c, r.op, r.sha256, r.source)
    ensures CommittedTurn(chain', c, r.op, r.sha256, r.source)
  {
  }

  lemma LicenseIsCommitted(game: GameId, hs: seq<Happening>, n: nat, c: ClientId)
    requires IsHistory(Opening(game), hs) && n <= |hs| && IsHistory(Opening(game), hs[..n])
    requires Pending(Ending(Opening(game), hs[..n]), c).Some?
    ensures var r := Pending(Ending(Opening(game), hs[..n]), c).value;
            CommittedTurn(Ending(Opening(game), hs).world.chain, c, r.op, r.sha256, r.source)
  {
    var mid := Ending(Opening(game), hs[..n]);
    PartOfHistory(Opening(game), hs, n);
    HistoryIsReachable(game, hs[..n]);
    EntitlementIsCommitted(mid.world, c);
    HistoryGrows(mid, hs[n..], c);
    CommittedStays(mid.world.chain, Ending(Opening(game), hs).world.chain, c, Pending(mid, c).value);
  }

  /** No close before commit: in every history of any number of clients, under every fault,
      crash and interleaving, each process a client had terminated is the one an entitlement
      names, and the turn it names is in the chain, installed by this client under that
      operation with that hash. */
  lemma NoCloseBeforeCommit(game: GameId, hs: seq<Happening>, c: ClientId, i: nat)
    requires IsHistory(Opening(game), hs) && i < |DeskOf(Ending(Opening(game), hs), c).log|
    requires DeskOf(Ending(Opening(game), hs), c).log[i].Terminated?
    ensures var end := Ending(Opening(game), hs);
            var call := DeskOf(end, c).log[i];
            && call.key == KeyOf(call.record.identity)
            && CommittedTurn(end.world.chain, c, call.record.op, call.record.sha256, call.record.source)
    ensures var call := DeskOf(Ending(Opening(game), hs), c).log[i];
            exists n: nat :: n <= |hs| && LicensedAt(Opening(game), hs, n, c, call)
  {
    var n := EveryCallWasLicensed(game, hs, c, i);
    LicenseIsCommitted(game, hs, n, c);
  }

  /** A client that was never in managed mode never had a process terminated. */
  lemma StandardModeNeverTerminates(game: GameId, hs: seq<Happening>, c: ClientId)
    requires IsHistory(Opening(game), hs)
    requires forall n :: 0 <= n <= |hs| && IsHistory(Opening(game), hs[..n]) ==>
               c !in Ending(Opening(game), hs[..n]).managed
    ensures forall call | call in DeskOf(Ending(Opening(game), hs), c).log :: !call.Terminated?
  {
    var log := DeskOf(Ending(Opening(game), hs), c).log;
    forall i | 0 <= i < |log| ensures !log[i].Terminated? {
      var n := EveryCallWasLicensed(game, hs, c, i);
    }
  }

  /** A graceful close is only ever asked of the process of a committed turn. */
  lemma NoGracefulCloseBeforeCommit(game: GameId, hs: seq<Happening>, c: ClientId, i: nat)
    requires IsHistory(Opening(game), hs) && i < |DeskOf(Ending(Opening(game), hs), c).log|
    requires DeskOf(Ending(Opening(game), hs), c).log[i].AskedToClose?
    ensures exists r: CloseRecord :: KeyOf(r.identity) == DeskOf(Ending(Opening(game), hs), c).log[i].key
              && CommittedTurn(Ending(Opening(game), hs).world.chain, c, r.op, r.sha256, r.source)
  {
    var n := EveryCallWasLicensed(game, hs, c, i);
    LicenseIsCommitted(game, hs, n, c);
    var r := Pending(Ending(Opening(game), hs[..n]), c).value;
    assert KeyOf(r.identity) == DeskOf(Ending(Opening(game), hs), c).log[i].key;
  }
}
