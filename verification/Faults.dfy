/** The scheduled faults of the fake storage: each fires at its own call, once. */
module Faults {
  import opened Domain
  import opened Storage

  datatype OpKind =
    | WriteOp | ReadOp | MkdirOp | ListOp | RemoveFileOp | RemoveDirOp | PublishOp | ReplaceOp

  datatype Moment = BeforeIt | AfterIt

  /** `occurrence` is the 1-based number of the call that should fail. */
  datatype FaultSpec = FaultSpec(operation: OpKind, moment: Moment, occurrence: nat)

  datatype Schedule = Schedule(
    faults: seq<FaultSpec>, corruptions: seq<nat>, counts: map<OpKind, nat>)

  const NO_CALLS: map<OpKind, nat> :=
    map[WriteOp := 0, ReadOp := 0, MkdirOp := 0, ListOp := 0, RemoveFileOp := 0,
        RemoveDirOp := 0, PublishOp := 0, ReplaceOp := 0]

  function KindOf(op: Op): OpKind {
    match op
    case Mkdir(_) => MkdirOp
    case Write(_, _, _) => WriteOp
    case Read(_) => ReadOp
    case List(_) => ListOp
    case RemoveFile(_) => RemoveFileOp
    case RemoveDir(_) => RemoveDirOp
    case Publish(_, _) => PublishOp
    case AtomicReplace(_, _) => ReplaceOp
  }

  // ----- the schedule as a value -----

  function Without<T(==,!new)>(s: seq<T>, x: T): (r: seq<T>)
    ensures forall y :: y in r <==> y in s && y != x
  {
    if s == [] then []
    else if s[0] == x then Without(s[1..], x)
    else [s[0]] + Without(s[1..], x)
  }

  predicate Unrepeated<T(==)>(s: seq<T>) {
    s == [] || (s[0] !in s[1..] && Unrepeated(s[1..]))
  }

  lemma {:induction false} UnrepeatedGrows<T>(s: seq<T>, x: T)
    requires Unrepeated(s) && x !in s
    ensures Unrepeated(s + [x])
  {
    if s == [] {
      assert (s + [x])[1..] == [];
    } else {
      UnrepeatedGrows(s[1..], x);
      assert (s + [x])[1..] == s[1..] + [x];
    }
  }

  lemma {:induction false} WithoutAbsent<T(!new)>(s: seq<T>, x: T)
    requires x !in s
    ensures Without(s, x) == s
  {
    if s != [] {
      assert s[0] in s;
      WithoutAbsent(s[1..], x);
    }
  }

  lemma {:induction false} WithoutUnrepeated<T(!new)>(s: seq<T>, x: T)
    requires Unrepeated(s)
    ensures Unrepeated(Without(s, x))
  {
    if s != [] {
      WithoutUnrepeated(s[1..], x);
      assert s[0] != x ==> Without(s, x)[1..] == Without(s[1..], x);
    }
  }

  lemma {:induction false} WithoutAt<T(!new)>(s: seq<T>, i: nat)
    requires Unrepeated(s) && i < |s|
    ensures Without(s, s[i]) == s[..i] + s[i + 1..]
  {
    if i == 0 {
      WithoutAbsent(s[1..], s[0]);
    } else {
      WithoutAt(s[1..], i - 1);
      assert s[1..][..i - 1] == s[1..i] && s[1..][i..] == s[i + 1..];
    }
  }

  predicate Counted(counts: map<OpKind, nat>) {
    forall k: OpKind :: k in counts
  }

  lemma NoCallsAreCounted()
    ensures Counted(NO_CALLS)
  {
    forall k: OpKind ensures k in NO_CALLS {
      assert k.WriteOp? || k.ReadOp? || k.MkdirOp? || k.ListOp? || k.RemoveFileOp?
             || k.RemoveDirOp? || k.PublishOp? || k.ReplaceOp?;
    }
  }

  /** No read is going to be altered. */
  predicate Honest(s: Schedule) {
    Counted(s.counts) && s.corruptions == []
  }

  predicate Faultless(s: Schedule) {
    Honest(s) && s.faults == []
  }

  predicate Orderly(s: Schedule) {
    Counted(s.counts) && Unrepeated(s.faults) && Unrepeated(s.corruptions)
  }

  /** Nothing pending is duplicated or already passed, so all of it can still fire. */
  predicate Pending(s: Schedule) {
    && Orderly(s)
    && (forall f | f in s.faults :: f.occurrence > s.counts[f.operation])
    && (forall n | n in s.corruptions :: n > s.counts[ReadOp])
  }

  /** The fault the next call of this kind runs into. */
  function Draw(s: Schedule, k: OpKind): Fault
    requires Counted(s.counts)
  {
    var n := s.counts[k] + 1;
    if FaultSpec(k, BeforeIt, n) in s.faults then Before
    else if FaultSpec(k, AfterIt, n) in s.faults then After
    else if k == ReadOp && n in s.corruptions then Corrupt
    else NoFault
  }

  /** The schedule after one complete call: whatever was scheduled for it is gone. */
  function Spent(s: Schedule, k: OpKind): Schedule
    requires Counted(s.counts)
  {
    var n := s.counts[k] + 1;
    Schedule(Without(Without(s.faults, FaultSpec(k, BeforeIt, n)), FaultSpec(k, AfterIt, n)),
             if k == ReadOp then Without(s.corruptions, n) else s.corruptions,
             s.counts[k := n])
  }

  /** A completed call leaves only faults that can still fire. */
  lemma SpentStaysPending(s: Schedule, k: OpKind)
    requires Pending(s)
    ensures Pending(Spent(s, k))
  {
    SpentOrderly(s, k);
    forall f | f in Spent(s, k).faults ensures f.occurrence > Spent(s, k).counts[f.operation] {
      StillAhead(s, k, f);
    }
  }

  lemma SpentOrderly(s: Schedule, k: OpKind)
    requires Orderly(s)
    ensures Orderly(Spent(s, k))
  {
    var n := s.counts[k] + 1;
    var before, after := FaultSpec(k, BeforeIt, n), FaultSpec(k, AfterIt, n);
    WithoutUnrepeated(s.faults, before);
    WithoutUnrepeated(Without(s.faults, before), after);
    WithoutUnrepeated(s.corruptions, n);
  }

  lemma StillAhead(s: Schedule, k: OpKind, f: FaultSpec)
    requires Pending(s) && f in Spent(s, k).faults
    ensures f.occurrence > Spent(s, k).counts[f.operation]
  {
    match f.moment
    case BeforeIt => assert f in s.faults && f != FaultSpec(k, BeforeIt, s.counts[k] + 1);
    case AfterIt => assert f in s.faults && f != FaultSpec(k, AfterIt, s.counts[k] + 1);
  }

  function SpentAll(s: Schedule, calls: seq<OpKind>): (r: Schedule)
    requires Counted(s.counts)
    ensures Counted(r.counts)
    decreases |calls|
  {
    if calls == [] then s else SpentAll(Spent(s, calls[0]), calls[1..])
  }

  lemma {:induction false} CallsAreCounted(s: Schedule, calls: seq<OpKind>, k: OpKind)
    requires Counted(s.counts)
    ensures SpentAll(s, calls).counts[k] == s.counts[k] + multiset(calls)[k]
    decreases |calls|
  {
    if calls != [] {
      CallsAreCounted(Spent(s, calls[0]), calls[1..], k);
      assert calls == [calls[0]] + calls[1..];
    }
  }

  /** Each call sees exactly what was scheduled for its own number at the start, however
      the calls of other kinds are interleaved: every fault fires at its call and only
      there. */
  lemma {:induction false} FaultsFireOnce(s: Schedule, calls: seq<OpKind>, k: OpKind)
    requires Pending(s)
    ensures var last := SpentAll(s, calls);
            && Pending(last) && last.counts[k] >= s.counts[k]
            && Draw(last, k) == Draw(s.(counts := s.counts[k := last.counts[k]]), k)
    decreases |calls|
  {
    if calls == [] {
      assert s.counts[k := s.counts[k]] == s.counts;
    } else {
      SpentStaysPending(s, calls[0]);
      FaultsFireOnce(Spent(s, calls[0]), calls[1..], k);
      LaterDrawsAgree(s, calls[0], k, SpentAll(s, calls).counts[k]);
    }
  }

  lemma LaterDrawsAgree(s: Schedule, j: OpKind, k: OpKind, count: nat)
    requires Pending(s) && count >= Spent(s, j).counts[k]
    ensures var t := Spent(s, j);
            Draw(t.(counts := t.counts[k := count]), k) == Draw(s.(counts := s.counts[k := count]), k)
  {
  }

  // ----- the controller -----

  class FaultController {
    var faults: seq<FaultSpec>
    var corruptions: seq<nat>
    var counts: map<OpKind, nat>

    ghost function Value(): Schedule
      reads this
    {
      Schedule(faults, corruptions, counts)
    }

    constructor ()
      ensures Value() == Schedule([], [], NO_CALLS) && Pending(Value())
    {
      faults, corruptions, counts := [], [], NO_CALLS;
      NoCallsAreCounted();
    }

    /** Schedules a fault, unless its call has passed or it is scheduled already. */
    method Inject(operation: OpKind, moment: Moment, occurrence: nat) returns (ok: bool)
      requires Pending(Value())
      modifies this
      ensures Pending(Value())
      ensures ok <==> occurrence > old(counts)[operation]
                      && FaultSpec(operation, moment, occurrence) !in old(faults)
      ensures ok ==> Value() == old(Value()).(faults := old(faults) + [FaultSpec(operation, moment, occurrence)])
      ensures !ok ==> Value() == old(Value())
    {
      if occurrence <= counts[operation] { return false; }
      var spec := FaultSpec(operation, moment, occurrence);
      for i := 0 to |faults|
        invariant spec !in faults[..i]
      {
        if faults[i] == spec { return false; }
      }
      UnrepeatedGrows(faults, spec);
      faults := faults + [spec];
      return true;
    }

    method InjectReadCorruption(occurrence: nat) returns (ok: bool)
      requires Pending(Value())
      modifies this
      ensures Pending(Value())
      ensures ok <==> occurrence > old(counts)[ReadOp] && occurrence !in old(corruptions)
      ensures ok ==> Value() == old(Value()).(corruptions := old(corruptions) + [occurrence])
      ensures !ok ==> Value() == old(Value())
    {
      if occurrence <= counts[ReadOp] { return false; }
      for i := 0 to |corruptions|
        invariant occurrence !in corruptions[..i]
      {
        if corruptions[i] == occurrence { return false; }
      }
      UnrepeatedGrows(corruptions, occurrence);
      corruptions := corruptions + [occurrence];
      return true;
    }

    /** Removes all configured faults and starts counting anew. */
    method Reset()
      modifies this
      ensures Value() == Schedule([], [], NO_CALLS) && Pending(Value())
    {
      faults, corruptions, counts := [], [], NO_CALLS;
      NoCallsAreCounted();
    }

    /** Finds and removes the one fault scheduled for this moment. */
    method TakeFault(spec: FaultSpec) returns (taken: bool)
      requires Unrepeated(faults)
      modifies `faults
      ensures taken <==> spec in old(faults)
      ensures faults == Without(old(faults), spec) && Unrepeated(faults)
    {
      WithoutUnrepeated(faults, spec);
      for i := 0 to |faults|
        invariant faults == old(faults) && spec !in faults[..i]
      {
        if faults[i] == spec {
          WithoutAt(faults, i);
          faults := faults[..i] + faults[i + 1..];
          return true;
        }
      }
      WithoutAbsent(faults, spec);
      return false;
    }

    /** What a begun call has left to run into. */
    ghost predicate InCall(start: Schedule, k: OpKind)
      reads this
    {
      && Orderly(start) && Unrepeated(faults) && Draw(start, k) != Before
      && counts == start.counts[k := start.counts[k] + 1]
      && faults == Without(start.faults, FaultSpec(k, BeforeIt, start.counts[k] + 1))
    }

    method Begin(k: OpKind) returns (before: bool)
      requires Orderly(Value())
      modifies this
      ensures before <==> Draw(old(Value()), k) == Before
      ensures before ==> Value() == Spent(old(Value()), k) && Orderly(Value())
      ensures !before ==> InCall(old(Value()), k) && corruptions == old(corruptions)
    {
      var n := counts[k] + 1;
      counts := counts[k := n];
      before := TakeFault(FaultSpec(k, BeforeIt, n));
      SpentOrderly(old(Value()), k);
      if before { RetireUnreachable(k, n); }
    }

    method RetireUnreachable(k: OpKind, n: nat)
      modifies `faults, `corruptions
      ensures faults == Without(old(faults), FaultSpec(k, AfterIt, n))
      ensures corruptions == if k == ReadOp then Without(old(corruptions), n) else old(corruptions)
    {
      faults := Without(faults, FaultSpec(k, AfterIt, n));
      if k == ReadOp { corruptions := Without(corruptions, n); }
    }

    /** The call failed with an ordinary error: nothing scheduled for it stays. */
    method Abort(k: OpKind, ghost start: Schedule)
      requires InCall(start, k) && corruptions == start.corruptions
      modifies this
      ensures Value() == Spent(start, k) && Orderly(Value())
    {
      SpentOrderly(start, k);
      RetireUnreachable(k, counts[k]);
    }

    /** The current read returns altered bytes if that was scheduled. */
    method CorruptReadPayload(data: Content, ghost start: Schedule) returns (bad: Option<Content>)
      requires InCall(start, ReadOp) && corruptions == start.corruptions
      modifies `corruptions
      ensures bad == if counts[ReadOp] in start.corruptions then Some(Corrupted(data)) else None
      ensures corruptions == Without(start.corruptions, counts[ReadOp])
    {
      var n := counts[ReadOp];
      for i := 0 to |corruptions|
        invariant corruptions == start.corruptions && n !in corruptions[..i]
      {
        if corruptions[i] == n {
          WithoutAt(corruptions, i);
          corruptions := corruptions[..i] + corruptions[i + 1..];
          return Some(Corrupted(data));
        }
      }
      WithoutAbsent(corruptions, n);
      return None;
    }

    /** The call took effect: is its response lost? */
    method Finish(k: OpKind, ghost start: Schedule) returns (after: bool)
      requires InCall(start, k)
      requires corruptions == if k == ReadOp then Without(start.corruptions, counts[k]) else start.corruptions
      modifies this
      ensures after <==> Draw(start, k) == After
      ensures Value() == Spent(start, k) && Orderly(Value())
    {
      SpentOrderly(start, k);
      after := TakeFault(FaultSpec(k, AfterIt, counts[k]));
    }
  }
}
