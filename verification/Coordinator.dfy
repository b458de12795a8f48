/** The process coordinator of one match: what it may ever ask the supervisor to do.

    `Served` is one operation as a function of the supervisor's answers; the class below
    is proved against it, and the properties hold of any sequence of operations. */
module Coordinator {
  import opened Domain
  import opened Handoff
  import opened Guard
  import opened Launch

  datatype ProbeAnswer = RunningMatch | RunningMismatch | NotRunning | ProbeUnavailable

  datatype TerminateAnswer = TerminatedIt | WasNotRunning | WrongIdentity | TerminateFailed

  datatype CloseAnswer = CloseAccepted | CloseRefused

  /** A call that reached the supervisor. */
  datatype Call =
    | Probed(key: Key, answer: ProbeAnswer)
    | LaunchTried
    | AskedToClose(key: Key)
    | Terminated(key: Key, record: CloseRecord, byUser: bool)
    | Focused(key: Key)

  datatype Session = Session(
    running: Option<Identity>, alive: bool, mismatched: set<Key>,
    closing: Option<Identity>, closeOp: Option<OperationId>, acted: Option<OperationId>, closed: bool)

  const FRESH := Session(None, false, {}, None, None, None, false)

  /** An operation, with what the supervisor would answer. */
  datatype Ask =
    | DoProbe(id: Identity, p: ProbeAnswer)
    | DoLaunch(launched: Option<Identity>)
    | DoClose(id: Identity, op: OperationId, repeat: bool, p: ProbeAnswer, c: CloseAnswer)
    | DoTerminate(id: Identity, record: CloseRecord, byUser: bool,
                  p: ProbeAnswer, t: TerminateAnswer, verify: ProbeAnswer)
    | DoFocus(id: Identity, p: ProbeAnswer)
    | DoNoteClosed
    | DoDrop

  function AfterProbe(s: Session, id: Identity, p: ProbeAnswer): Session {
    var same := s.running.Some? && KeyOf(s.running.value) == KeyOf(id);
    match p
    case RunningMatch => s.(running := Some(id), alive := true)
    case RunningMismatch =>
      s.(mismatched := s.mismatched + {KeyOf(id)}, alive := if same then false else s.alive)
    case NotRunning => s.(alive := if same then false else s.alive)
    case ProbeUnavailable => s
  }

  function NotedClosed(s: Session): Session { s.(closed := true, alive := false) }

  function Dropped(s: Session): Session { s.(closing := None) }

  function Entitled(id: Identity, record: CloseRecord): bool {
    KeyOf(id) == KeyOf(record.identity)
  }

  function AfterTerminate(s: Session, id: Identity, t: TerminateAnswer, verify: ProbeAnswer): (Session, seq<Call>) {
    match t
    case TerminatedIt =>
      var s' := AfterProbe(s, id, verify);
      (if verify == NotRunning then NotedClosed(s') else s', [Probed(KeyOf(id), verify)])
    case WasNotRunning => (NotedClosed(s), [])
    case WrongIdentity => (Dropped(s), [])
    case TerminateFailed => (s, [])
  }

  /** One operation: the new session and the calls that reached the supervisor, in order. */
  function Served(s: Session, a: Ask): (Session, seq<Call>) {
    match a
    case DoProbe(id, p) => (AfterProbe(s, id, p), [Probed(KeyOf(id), p)])
    case DoLaunch(launched) =>
      if s.alive then (s, [])
      else if launched.None? then (s, [LaunchTried])
      else (s.(running := launched, alive := true, closing := None, closed := false), [LaunchTried])
    case DoClose(id, op, repeat, p, c) =>
      if (!repeat && s.closeOp == Some(op)) || KeyOf(id) in s.mismatched then (s, [])
      else
        var s1 := AfterProbe(s, id, p);
        if p != RunningMatch then (s1, [Probed(KeyOf(id), p)])
        else
          (if c == CloseAccepted then s1.(closing := Some(id), closeOp := Some(op), closed := false) else s1,
           [Probed(KeyOf(id), p), AskedToClose(KeyOf(id))])
    case DoTerminate(id, record, byUser, p, t, verify) =>
      if (!byUser && s.acted == Some(record.op)) || !Entitled(id, record) || KeyOf(id) in s.mismatched
      then (s, [])
      else
        var s1 := AfterProbe(s, id, p);
        var probed := [Probed(KeyOf(id), p)];
        (match p
         case NotRunning =>
           (NotedClosed(s1.(closing := Some(id), closeOp := Some(record.op))), probed)
         case RunningMismatch => (Dropped(s1), probed)
         case ProbeUnavailable => (s1, probed)
         case RunningMatch =>
           var s2 := s1.(acted := Some(record.op), closing := Some(id), closeOp := Some(record.op), closed := false);
           var (s3, more) := AfterTerminate(s2, id, t, verify);
           (s3, probed + [Terminated(KeyOf(id), record, byUser)] + more))
    case DoFocus(id, p) =>
      if KeyOf(id) in s.mismatched then (s, [])
      else
        var s1 := AfterProbe(s, id, p);
        (s1, [Probed(KeyOf(id), p)] + (if p == RunningMatch then [Focused(KeyOf(id))] else []))
    case DoNoteClosed => (NotedClosed(s), [])
    case DoDrop => (Dropped(s), [])
  }

  /** The watch over a close in progress: a probe of the process, while it is not known to
      be gone. */
  function Watched(s: Session, q: ProbeAnswer): (Session, seq<Call>) {
    if s.closing.None? || s.closed then (s, [])
    else
      var id := s.closing.value;
      var s1 := AfterProbe(s, id, q);
      (if q == NotRunning then NotedClosed(s1) else if q == RunningMismatch then Dropped(s1) else s1,
       [Probed(KeyOf(id), q)])
  }

  function ServedAll(s: Session, log: seq<Call>, asks: seq<Ask>): (Session, seq<Call>)
    decreases |asks|
  {
    if asks == [] then (s, log)
    else var (s', calls) := Served(s, asks[0]); ServedAll(s', log + calls, asks[1..])
  }

  // ----- a reused pid is never touched -----

  predicate Touches(c: Call, k: Key) {
    (c.AskedToClose? || c.Terminated? || c.Focused?) && c.key == k
  }

  /** No call touches an identity after a probe reported a mismatch for it. */
  predicate NeverTouched(log: seq<Call>) {
    forall i, j :: 0 <= i < j < |log| && log[i].Probed? && log[i].answer == RunningMismatch
                   ==> !Touches(log[j], log[i].key)
  }

  predicate Remembers(s: Session, log: seq<Call>) {
    forall i :: 0 <= i < |log| && log[i].Probed? && log[i].answer == RunningMismatch
                ==> log[i].key in s.mismatched
  }

  lemma AskNeverTouches(s: Session, log: seq<Call>, a: Ask)
    requires NeverTouched(log) && Remembers(s, log)
    ensures var (s', calls) := Served(s, a); NeverTouched(log + calls) && Remembers(s', log + calls)
  {
  }

  lemma {:induction false} SequenceNeverTouches(s: Session, log: seq<Call>, asks: seq<Ask>)
    requires NeverTouched(log) && Remembers(s, log)
    ensures NeverTouched(ServedAll(s, log, asks).1)
    decreases |asks|
  {
    if asks != [] {
      AskNeverTouches(s, log, asks[0]);
      SequenceNeverTouches(Served(s, asks[0]).0, log + Served(s, asks[0]).1, asks[1..]);
    }
  }

  /** A pid proved reused is never closed, terminated or focused again. */
  lemma MismatchIsNeverTouched(asks: seq<Ask>)
    ensures NeverTouched(ServedAll(FRESH, [], asks).1)
  {
    SequenceNeverTouches(FRESH, [], asks);
  }

  // ----- how often a termination is repeated -----

  function LastTerminated(log: seq<Call>): Option<OperationId> {
    if log == [] then None
    else
      var c := log[|log| - 1];
      if c.Terminated? then Some(c.record.op) else LastTerminated(log[..|log| - 1])
  }

  /** An automatic termination never repeats the operation of the termination before it. */
  predicate NoAutomaticRepeat(log: seq<Call>) {
    forall i :: 0 <= i < |log| && log[i].Terminated? && !log[i].byUser
                ==> LastTerminated(log[..i]) != Some(log[i].record.op)
  }

  lemma LastTerminatedAppend(log: seq<Call>, c: Call)
    ensures LastTerminated(log + [c]) == if c.Terminated? then Some(c.record.op) else LastTerminated(log)
  {
    assert (log + [c])[..|log|] == log;
  }

  lemma RepeatAppend(log: seq<Call>, c: Call)
    requires NoAutomaticRepeat(log)
    requires c.Terminated? && !c.byUser ==> LastTerminated(log) != Some(c.record.op)
    ensures NoAutomaticRepeat(log + [c])
  {
    forall i | 0 <= i < |log + [c]| && (log + [c])[i].Terminated? && !(log + [c])[i].byUser
      ensures LastTerminated((log + [c])[..i]) != Some((log + [c])[i].record.op)
    {
      if i < |log| {
        assert (log + [c])[..i] == log[..i];
      } else {
        assert (log + [c])[..i] == log;
      }
    }
  }

  lemma {:induction false} CallsAppend(log: seq<Call>, calls: seq<Call>)
    requires NoAutomaticRepeat(log)
    requires forall i :: 0 <= i < |calls| && calls[i].Terminated? && !calls[i].byUser ==>
               LastTerminated(log) != Some(calls[i].record.op)
               && forall j :: 0 <= j < i ==> !calls[j].Terminated?
    ensures NoAutomaticRepeat(log + calls)
    decreases |calls|
  {
    if calls == [] {
      assert log + calls == log;
    } else {
      var before, c := calls[..|calls| - 1], calls[|calls| - 1];
      CallsAppend(log, before);
      assert log + calls == (log + before) + [c];
      if c.Terminated? && !c.byUser {
        assert forall j :: 0 <= j < |before| ==> !before[j].Terminated?;
        LastAppended(log, before);
      }
      RepeatAppend(log + before, c);
    }
  }

  lemma {:induction false} LastAppended(log: seq<Call>, calls: seq<Call>)
    ensures LastTerminated(log + calls) ==
              if exists c :: c in calls && c.Terminated? then LastTerminated(calls) else LastTerminated(log)
    decreases |calls|
  {
    if calls == [] {
      assert log + calls == log;
    } else {
      var before, c := calls[..|calls| - 1], calls[|calls| - 1];
      assert calls == before + [c];
      LastAppended(log, before);
      assert log + calls == (log + before) + [c];
      LastTerminatedAppend(log + before, c);
      assert c.Terminated? ==> c in calls;
    }
  }

  /** An operation terminates at most once, after its probe, and remembers it. */
  lemma TerminatesOnce(s: Session, a: Ask)
    ensures var (s', calls) := Served(s, a);
            || (s'.acted == s.acted && forall c :: c in calls ==> !c.Terminated?)
            || (&& a.DoTerminate? && 2 <= |calls| <= 3 && !calls[0].Terminated?
                && calls[1] == Terminated(KeyOf(a.id), a.record, a.byUser)
                && (|calls| == 3 ==> !calls[2].Terminated?)
                && s'.acted == Some(a.record.op) && (!a.byUser ==> s.acted != Some(a.record.op)))
  {
  }

  lemma LastOfCalls(calls: seq<Call>)
    requires 2 <= |calls| <= 3 && !calls[0].Terminated? && calls[1].Terminated?
    requires |calls| == 3 ==> !calls[2].Terminated?
    ensures LastTerminated(calls) == Some(calls[1].record.op)
  {
    if |calls| == 3 { assert calls[..2] == [calls[0], calls[1]]; }
  }

  lemma AskNeverRepeats(s: Session, log: seq<Call>, a: Ask)
    requires NoAutomaticRepeat(log) && LastTerminated(log) == s.acted
    ensures var (s', calls) := Served(s, a);
            NoAutomaticRepeat(log + calls) && LastTerminated(log + calls) == s'.acted
  {
    var calls := Served(s, a).1;
    TerminatesOnce(s, a);
    CallsAppend(log, calls);
    LastAppended(log, calls);
    if exists c :: c in calls && c.Terminated? {
      LastOfCalls(calls);
    }
  }

  lemma {:induction false} SequenceNeverRepeats(s: Session, log: seq<Call>, asks: seq<Ask>)
    requires NoAutomaticRepeat(log) && LastTerminated(log) == s.acted
    ensures NoAutomaticRepeat(ServedAll(s, log, asks).1)
    decreases |asks|
  {
    if asks != [] {
      AskNeverRepeats(s, log, asks[0]);
      SequenceNeverRepeats(Served(s, asks[0]).0, log + Served(s, asks[0]).1, asks[1..]);
    }
  }

  /** No automatic termination repeats the operation of the one just before it. */
  lemma AutomaticTerminationNeverRepeats(asks: seq<Ask>)
    ensures NoAutomaticRepeat(ServedAll(FRESH, [], asks).1)
  {
    SequenceNeverRepeats(FRESH, [], asks);
  }

  lemma {:induction false} LastTerminatedIs(log: seq<Call>, i: nat)
    requires i < |log| && log[i].Terminated? && LastTerminated(log) != Some(log[i].record.op)
    ensures exists k :: i < k < |log| && log[k].Terminated? && log[k].record.op != log[i].record.op
    decreases |log|
  {
    var last := |log| - 1;
    if log[last].Terminated? {
      assert last != i;
    } else {
      LastTerminatedIs(log[..last], i);
      var k :| i < k < last && log[..last][k].Terminated? && log[..last][k].record.op != log[..last][i].record.op;
      assert log[k].Terminated?;
    }
  }

  /** So an operation is terminated automatically at most once, except when a termination
      for another operation came in between. */
  lemma RepeatNeedsAnotherOperation(asks: seq<Ask>, i: nat, j: nat)
    requires var log := ServedAll(FRESH, [], asks).1;
             && i < j < |log| && log[i].Terminated? && log[j].Terminated? && !log[j].byUser
             && log[i].record.op == log[j].record.op
    ensures var log := ServedAll(FRESH, [], asks).1;
            exists k :: i < k < j && log[k].Terminated? && log[k].record.op != log[i].record.op
  {
    var log := ServedAll(FRESH, [], asks).1;
    AutomaticTerminationNeverRepeats(asks);
    LastTerminatedIs(log[..j], i);
    var k :| i < k < j && log[..j][k].Terminated? && log[..j][k].record.op != log[..j][i].record.op;
    assert log[k].Terminated?;
  }

  // ----- exactly when a termination is sent -----

  /** A probe in the log found another process under this identity's pid. */
  ghost predicate ProvedReused(log: seq<Call>, k: Key) {
    exists i :: 0 <= i < |log| && log[i] == Probed(k, RunningMismatch)
  }

  /** The session remembers of its log the last terminated operation and the reused keys. */
  ghost predicate Summarizes(s: Session, log: seq<Call>) {
    && LastTerminated(log) == s.acted
    && forall k :: k in s.mismatched <==> ProvedReused(log, k)
  }

  lemma ReusedAppend(log: seq<Call>, calls: seq<Call>, k: Key)
    ensures ProvedReused(log + calls, k) <==> ProvedReused(log, k) || ProvedReused(calls, k)
  {
    if ProvedReused(log, k) {
      var i :| 0 <= i < |log| && log[i] == Probed(k, RunningMismatch);
      assert (log + calls)[i] == Probed(k, RunningMismatch);
    }
    if ProvedReused(calls, k) {
      var i :| 0 <= i < |calls| && calls[i] == Probed(k, RunningMismatch);
      assert (log + calls)[|log| + i] == Probed(k, RunningMismatch);
    }
  }

  lemma AskLearns(s: Session, a: Ask, k: Key)
    ensures var (s', calls) := Served(s, a);
            k in s'.mismatched <==> k in s.mismatched || ProvedReused(calls, k)
  {
    var (s', calls) := Served(s, a);
    if k in s'.mismatched && k !in s.mismatched {
      assert |calls| > 0 && (calls[0] == Probed(k, RunningMismatch)
                             || (|calls| == 3 && calls[2] == Probed(k, RunningMismatch)));
    }
  }

  lemma AskSummarizes(s: Session, log: seq<Call>, a: Ask)
    requires Summarizes(s, log) && NoAutomaticRepeat(log)
    ensures var (s', calls) := Served(s, a);
            Summarizes(s', log + calls) && NoAutomaticRepeat(log + calls)
  {
    var (s', calls) := Served(s, a);
    AskNeverRepeats(s, log, a);
    forall k ensures k in s'.mismatched <==> ProvedReused(log + calls, k) {
      AskLearns(s, a, k);
      ReusedAppend(log, calls, k);
    }
  }

  lemma {:induction false} SequenceSummarizes(s: Session, log: seq<Call>, asks: seq<Ask>)
    requires Summarizes(s, log) && NoAutomaticRepeat(log)
    ensures var (s', log') := ServedAll(s, log, asks); Summarizes(s', log')
    decreases |asks|
  {
    if asks != [] {
      AskSummarizes(s, log, asks[0]);
      SequenceSummarizes(Served(s, asks[0]).0, log + Served(s, asks[0]).1, asks[1..]);
    }
  }

  /** After any sequence of operations, a termination request reaches the supervisor if and
      only if it names the entitled process, a fresh probe finds exactly that process, no
      earlier probe found its pid reused, and -- when no user asked for it -- the last
      termination sent was for another operation. */
  lemma TerminationIsSentExactlyWhen(asks: seq<Ask>, id: Identity, r: CloseRecord, byUser: bool,
                                     p: ProbeAnswer, t: TerminateAnswer, verify: ProbeAnswer)
    ensures var (s, log) := ServedAll(FRESH, [], asks);
            var calls := Served(s, DoTerminate(id, r, byUser, p, t, verify)).1;
            (exists c :: c in calls && c.Terminated?) <==>
              && Entitled(id, r) && p == RunningMatch && !ProvedReused(log, KeyOf(id))
              && (byUser || LastTerminated(log) != Some(r.op))
  {
    var s := ServedAll(FRESH, [], asks).0;
    SequenceSummarizes(FRESH, [], asks);
    var calls := Served(s, DoTerminate(id, r, byUser, p, t, verify)).1;
    if |calls| >= 2 { assert calls[1] in calls; }
  }

  lemma {:induction false} LaterTermination(log: seq<Call>, i: nat, op: OperationId)
    requires i < |log| && log[i].Terminated? && log[i].record.op == op
    requires forall j :: i < j < |log| && log[j].Terminated? ==> log[j].record.op != op
    ensures LastTerminated(log) != Some(op) <==> exists k :: i < k < |log| && log[k].Terminated?
    decreases |log|
  {
    var last := |log| - 1;
    if !log[last].Terminated? {
      LaterTermination(log[..last], i, op);
      if exists k :: i < k < |log| && log[k].Terminated? {
        var k :| i < k < |log| && log[k].Terminated?;
        assert log[..last][k].Terminated?;
      }
      if exists k :: i < k < last && log[..last][k].Terminated? {
        var k :| i < k < last && log[..last][k].Terminated?;
        assert log[k].Terminated?;
      }
    }
  }

  /** An operation that was terminated last at `i` is terminated automatically again if and
      only if a termination for another operation was sent in between. */
  lemma RepeatIsSentExactlyWhen(asks: seq<Ask>, i: nat, id: Identity, r: CloseRecord,
                                t: TerminateAnswer, verify: ProbeAnswer)
    requires var log := ServedAll(FRESH, [], asks).1;
             && i < |log| && log[i].Terminated? && log[i].record.op == r.op
             && (forall j :: i < j < |log| && log[j].Terminated? ==> log[j].record.op != r.op)
             && Entitled(id, r) && !ProvedReused(log, KeyOf(id))
    ensures var (s, log) := ServedAll(FRESH, [], asks);
            var calls := Served(s, DoTerminate(id, r, false, RunningMatch, t, verify)).1;
            (exists c :: c in calls && c.Terminated?) <==> exists k :: i < k < |log| && log[k].Terminated?
  {
    TerminationIsSentExactlyWhen(asks, id, r, false, RunningMatch, t, verify);
    LaterTermination(ServedAll(FRESH, [], asks).1, i, r.op);
  }

  // ----- exactly when the other calls are sent -----

  /** A process is brought to the front if and only if a fresh probe finds exactly it and no
      earlier probe found its pid reused. */
  lemma FocusIsSentExactlyWhen(asks: seq<Ask>, id: Identity, p: ProbeAnswer)
    ensures var (s, log) := ServedAll(FRESH, [], asks);
            Focused(KeyOf(id)) in Served(s, DoFocus(id, p)).1 <==>
              p == RunningMatch && !ProvedReused(log, KeyOf(id))
  {
    SequenceSummarizes(FRESH, [], asks);
  }

  /** The same for a graceful close, which is moreover not repeated unless the user asks:
      an accepted one, or a termination that got past its probe, counts as the close of its
      operation, a refused one does not. */
  lemma GracefulCloseIsSentExactlyWhen(asks: seq<Ask>, id: Identity, op: OperationId, repeat: bool,
                                       p: ProbeAnswer, c: CloseAnswer)
    ensures var (s, log) := ServedAll(FRESH, [], asks);
            var (s', calls) := Served(s, DoClose(id, op, repeat, p, c));
            && (AskedToClose(KeyOf(id)) in calls <==>
                  && p == RunningMatch && !ProvedReused(log, KeyOf(id))
                  && (repeat || s.closeOp != Some(op)))
            && (AskedToClose(KeyOf(id)) in calls && c == CloseAccepted ==>
                  s'.closing == Some(id) && s'.closeOp == Some(op) && !s'.closed)
            && (AskedToClose(KeyOf(id)) !in calls || c == CloseRefused ==>
                  s'.closing == s.closing && s'.closeOp == s.closeOp && s'.closed == s.closed)
  {
    SequenceSummarizes(FRESH, [], asks);
  }

  lemma CloseIsNotRepeated(s: Session, a: Ask, id: Identity, op: OperationId, p: ProbeAnswer, c: CloseAnswer)
    requires || (a.DoClose? && a.op == op && a.c == CloseAccepted && AskedToClose(KeyOf(a.id)) in Served(s, a).1)
             || (a.DoTerminate? && a.record.op == op && exists k :: k in Served(s, a).1 && k.Terminated?)
    ensures Served(Served(s, a).0, DoClose(id, op, false, p, c)).1 == []
  {
    if a.DoTerminate? { TerminatesOnce(s, a); }
  }

  /** A launch is tried if and only if the session's own process is not known to run.  It is
      known to after a probe that finds it and after a launch that succeeds; it is no longer
      once a probe of that process finds it gone or replaced. */
  lemma LaunchIsTriedExactlyWhen(s: Session, id: Identity, p: ProbeAnswer, launched: Option<Identity>,
                                 again: Option<Identity>)
    ensures Served(s, DoLaunch(launched)).1 == (if s.alive then [] else [LaunchTried])
    ensures var probed := Served(s, DoProbe(id, p)).0;
            var own := s.running.Some? && KeyOf(s.running.value) == KeyOf(id);
            Served(probed, DoLaunch(launched)).1 == [LaunchTried] <==>
              p != RunningMatch && (!s.alive || (own && (p == NotRunning || p == RunningMismatch)))
    ensures launched.Some? ==> Served(Served(s, DoLaunch(launched)).0, DoLaunch(again)).1 == []
    ensures launched.None? ==> Served(s, DoLaunch(launched)).0 == s
    ensures Served(Served(s, DoNoteClosed).0, DoLaunch(launched)).1 == [LaunchTried]
  {
  }

  // ----- what counts as closed -----

  /** A close is concluded if and only if the caller has just established it, or a
      termination found the process not running. */
  lemma ClosedExactlyWhen(s: Session, a: Ask)
    requires !s.closed
    ensures Served(s, a).0.closed <==>
              || a.DoNoteClosed?
              || (&& a.DoTerminate?
                  && (|| Probed(KeyOf(a.id), NotRunning) in Served(s, a).1
                      || (a.t == WasNotRunning && exists c :: c in Served(s, a).1 && c.Terminated?)))
  {
    if a.DoTerminate? {
      var calls := Served(s, a).1;
      TerminatesOnce(s, a);
      if |calls| >= 1 { assert calls[0] in calls; }
      if |calls| >= 2 { assert calls[1] in calls; }
      if |calls| == 3 { assert calls[2] in calls; }
    }
  }

  /** A close in progress is given up if and only if the caller says so, another process was
      launched, or its identity turned out to be another process's. */
  lemma WatchEndsExactlyWhen(s: Session, a: Ask)
    requires s.closing.Some?
    ensures var (s', calls) := Served(s, a);
            s'.closing.None? <==>
              || a.DoDrop?
              || (a.DoLaunch? && a.launched.Some? && LaunchTried in calls)
              || (&& a.DoTerminate?
                  && (|| (a.p == RunningMismatch && calls != [])
                      || (a.t == WrongIdentity && exists c :: c in calls && c.Terminated?)))
    ensures forall q :: Watched(s, q).0.closing.None? <==>
              Watched(s, q).1 == [Probed(KeyOf(s.closing.value), RunningMismatch)]
  {
    if a.DoTerminate? {
      TerminatesOnce(s, a);
      if |Served(s, a).1| >= 2 { assert Served(s, a).1[1] in Served(s, a).1; }
    }
  }

  /** A termination that was sent and confirmed is concluded at once, or watched: the next
      watch probes that process and concludes exactly when it is gone. */
  lemma SentTerminationIsWatched(s: Session, a: Ask, q: ProbeAnswer)
    requires a.DoTerminate? && a.t == TerminatedIt && exists c :: c in Served(s, a).1 && c.Terminated?
    ensures var s' := Served(s, a).0;
            && s'.closing == Some(a.id) && s'.closeOp == Some(a.record.op)
            && (s'.closed <==> a.verify == NotRunning)
            && (!s'.closed ==>
                  && Watched(s', q).1 == [Probed(KeyOf(a.id), q)]
                  && (Watched(s', q).0.closed <==> q == NotRunning))
  {
    TerminatesOnce(s, a);
  }
}
