/** Removal of temporary orphans, and operator repair of an abandoned lock. */
module Cleanup {
  import opened Domain
  import opened Storage
  import opened Filters
  import opened Faults
  import Invariant
  import FS = FakeStorage
  import opened RemoteReads

  datatype CandidateAction =
    | Removed | Missing | Protected | WrongKindObject | TransportLost | PathViolation | Skipped

  datatype Item = Item(candidate: Path, action: CandidateAction)

  datatype CleanupOutcome = Completed | LockUnsafe | PathViolated | CleanupInterrupted

  predicate ProtectedBy(p: Path, protected: Option<OperationId>) {
    Temporary(p) && protected == Some(p.op)
  }

  /** The operation named by a readable lock. */
  function ProtectedOperation(i: Inspection): Option<OperationId> {
    if i.Readable? then Some(i.document.op) else None
  }

  predicate Unsafe(i: Inspection) {
    i.Unanswered? || i.Malformed? || i.NoDocument? || i.LockIsFile? || i.DocumentIsDirectory?
  }

  /** The tree lost exactly `removed`, which are temporary candidates of other operations. */
  predicate LostOnly(fs: Fs, fs': Fs, removed: set<Path>, candidates: seq<Path>, protected: Option<OperationId>) {
    && fs'.dirs == fs.dirs && fs'.files == fs.files - removed && removed <= fs.files.Keys
    && forall p | p in removed :: p in candidates && Temporary(p) && !ProtectedBy(p, protected)
  }

  /** What an item says about its candidate. */
  predicate Truthful(fs: Fs, removed: set<Path>, item: Item, protected: Option<OperationId>) {
    match item.action
    case Removed => item.candidate in removed
    case Protected => ProtectedBy(item.candidate, protected)
    case Missing => item.candidate !in fs.files || item.candidate in removed
    case WrongKindObject => item.candidate in fs.dirs
    case TransportLost | PathViolation | Skipped => true
  }

  /** A definite finding about a candidate. */
  predicate Judged(item: Item) {
    item.action.Removed? || item.action.Missing? || item.action.Protected? || item.action.WrongKindObject?
  }

  /** What was removed is reported so, or as lost when the response to the removal was. */
  ghost predicate Reported(removed: set<Path>, items: seq<Item>) {
    forall p | p in removed :: Item(p, Removed) in items || Item(p, TransportLost) in items
  }

  /** The candidates that a complete cleanup removes. */
  function Removable(fs: Fs, candidates: seq<Path>, protected: Option<OperationId>): set<Path> {
    set p | p in candidates && p in fs.files && p !in fs.dirs && !ProtectedBy(p, protected)
  }

  /** Definite findings, one lost response, and the rest skipped. */
  predicate Interrupted(items: seq<Item>) {
    exists k :: 0 <= k < |items| && items[k].action.TransportLost?
                && (forall j | 0 <= j < k :: Judged(items[j]))
                && (forall j | k < j < |items| :: items[j].action.Skipped?)
  }

  function Labelled(candidates: seq<Path>, a: CandidateAction): (items: seq<Item>)
    ensures |items| == |candidates|
    ensures forall i | 0 <= i < |items| :: items[i] == Item(candidates[i], a)
  {
    seq(|candidates|, i requires 0 <= i < |candidates| => Item(candidates[i], a))
  }

  function Inside(): Path -> bool { (p: Path) => Temporary(p) }
  function Outside(): Path -> bool { (p: Path) => !Temporary(p) }

  method ResolveCandidates(candidates: seq<Path>) returns (resolved: seq<Path>, violations: seq<Item>)
    ensures resolved == Filter(candidates, Inside())
    ensures violations == Labelled(Filter(candidates, Outside()), PathViolation)
    ensures violations == [] <==> forall p | p in candidates :: Temporary(p)
    ensures violations == [] ==> resolved == candidates
    ensures |resolved| + |violations| == |candidates|
  {
    resolved, violations := [], [];
    for i := 0 to |candidates|
      invariant resolved == Filter(candidates[..i], Inside())
      invariant violations == Labelled(Filter(candidates[..i], Outside()), PathViolation)
      invariant |resolved| + |violations| == i
    {
      var p := candidates[i];
      assert candidates[..i + 1] == candidates[..i] + [p];
      FilterAppend(candidates[..i], [p], Inside());
      FilterAppend(candidates[..i], [p], Outside());
      if Temporary(p) {
        resolved := resolved + [p];
      } else {
        violations := violations + [Item(p, PathViolation)];
      }
    }
    assert candidates[..|candidates|] == candidates;
    SplitByKind(candidates);
  }

  lemma SplitByKind(candidates: seq<Path>)
    ensures Filter(candidates, Outside()) == [] <==> forall p | p in candidates :: Temporary(p)
    ensures Filter(candidates, Outside()) == [] ==> Filter(candidates, Inside()) == candidates
  {
    if forall p | p in candidates :: Temporary(p) {
      FilterNone(candidates, Outside());
      FilterAll(candidates, Inside());
    } else {
      var p :| p in candidates && !Temporary(p);
      assert p in Filter(candidates, Outside());
    }
  }

  /** The lock was looked at before anything else, and this is what was seen. */
  ghost predicate Looked(caps: FS.Capabilities, before: FS.Remote, mid: FS.Remote, seen: Seen) {
    Saw(caps, before, mid, seen) && Sensible(seen)
  }

  /** There is a lock, and it names nobody. */
  predicate Unjudgeable(fs: Fs) {
    LockDir in fs.files || (LockDir in fs.dirs && Invariant.DocIn(fs).None?)
  }

  function Holder(fs: Fs): Option<OperationId> {
    var document := Invariant.DocIn(fs);
    if document.Some? then Some(document.value.op) else None
  }

  /** The temporary objects of the operation that `lock.json` names are still there. */
  predicate SparesHolder(fs: Fs, fs': Fs) {
    forall p | p in fs.files && ProtectedBy(p, Holder(fs)) :: p in fs'.files && fs'.files[p] == fs.files[p]
  }

  /** An answered inspection whose reads were not altered finds the lock unsafe exactly when
      it is there and names nobody, and otherwise protects exactly the operation it names. */
  lemma UnsafeExactlyWhen(fs: Fs, seen: Seen)
    requires WellFormed(fs) && Sensible(seen) && Informed(fs, seen, true)
    ensures var i := InspectionOf(seen);
            && (!i.Unanswered? ==> (Unsafe(i) <==> Unjudgeable(fs)))
            && (Unjudgeable(fs) ==> Unsafe(i))
            && (!Unsafe(i) ==> ProtectedOperation(i) == Holder(fs))
  {
    assert LockJson in fs.dirs + fs.files.Keys ==> LockDir in fs.dirs;
  }

  /** Undisturbed, the lock is judged, and judged unsafe exactly when it names nobody. */
  lemma CalmJudgement(caps: FS.Capabilities, before: FS.Remote, after: FS.Remote, seen: Seen)
    requires Saw(caps, before, after, seen) && Sensible(seen) && FS.Undisturbed(caps, before)
    ensures FS.Undisturbed(caps, after) && after.fs == before.fs
    ensures Unsafe(InspectionOf(seen)) <==> Unjudgeable(before.fs)
  {
    CalmInspection(caps, before, after, seen);
    InspectionInforms(caps, before, after, seen);
    UnsafeExactlyWhen(before.fs, seen);
  }

  /** Nothing happens when a candidate escapes `temporary/`; nothing is removed when the lock
      cannot be judged; otherwise the candidates are removed that the lock does not protect,
      each accounted for, up to the first lost response.  On the tree: no temporary object of
      the operation that holds the lock is removed, unless the read of the lock was altered. */
  method CleanupTemporaryOrphans(storage: FS.FakeStorage, candidates: seq<Path>)
    returns (outcome: CleanupOutcome, items: seq<Item>, ghost seen: Seen, ghost mid: FS.Remote,
             ghost removed: set<Path>)
    requires storage.Valid()
    modifies storage, storage.faults
    ensures storage.Valid() && |items| == |candidates|
    ensures outcome == PathViolated <==> exists p | p in candidates :: !Temporary(p)
    ensures outcome == PathViolated ==>
              storage.Value() == old(storage.Value())
              && items == Labelled(Filter(candidates, Outside()), PathViolation)
                          + Labelled(Filter(candidates, Inside()), Skipped)
    ensures outcome != PathViolated ==> Looked(storage.capabilities, old(storage.Value()), mid, seen)
    ensures outcome == LockUnsafe <==>
              (forall p | p in candidates :: Temporary(p)) && Unsafe(InspectionOf(seen))
    ensures outcome == LockUnsafe ==> items == Labelled(candidates, Skipped)
    ensures outcome == PathViolated || outcome == LockUnsafe ==> removed == {}
    ensures var protected := ProtectedOperation(InspectionOf(seen));
            && LostOnly(old(storage.Value()).fs, storage.Value().fs, removed, candidates, protected)
            && Reported(removed, items)
            && (forall item | item in items :: Truthful(old(storage.Value()).fs, removed, item, protected))
            && (outcome == Completed ==>
                  removed == Removable(old(storage.Value()).fs, candidates, protected)
                  && forall item | item in items :: Judged(item))
    ensures outcome == CleanupInterrupted ==> Interrupted(items)
    ensures WellFormed(old(storage.Value()).fs) && old(storage.Value()).schedule.corruptions == [] ==>
              && SparesHolder(old(storage.Value()).fs, storage.Value().fs)
              && (Unjudgeable(old(storage.Value()).fs) ==> storage.Value().fs == old(storage.Value()).fs)
    ensures outcome != PathViolated ==> forall i | 0 <= i < |items| :: items[i].candidate == candidates[i]
    ensures FS.Undisturbed(storage.capabilities, old(storage.Value()))
            && (forall p | p in candidates :: Temporary(p)) ==>
              && (outcome == LockUnsafe <==> Unjudgeable(old(storage.Value()).fs))
              && (outcome == Completed <==> !Unjudgeable(old(storage.Value()).fs))
              && (outcome == Completed ==>
                    removed == Removable(old(storage.Value()).fs, candidates, Holder(old(storage.Value()).fs)))
  {
    removed := {};
    mid := storage.Value();
    seen := Seen(Failed(NotFound), mid, Failed(NotFound), mid, Failed(NotFound));
    var resolved, violations := ResolveCandidates(candidates);
    if violations != [] {
      return PathViolated, violations + Labelled(resolved, Skipped), seen, mid, removed;
    }
    ghost var looks;
    var lock;
    lock, looks := InspectUploadLock(storage);
    seen, mid := looks, storage.Value();
    InspectionInforms(storage.capabilities, old(storage.Value()), mid, seen);
    if WellFormed(storage.Value().fs) && old(storage.Value()).schedule.corruptions == [] {
      UnsafeExactlyWhen(storage.Value().fs, seen);
    }
    if FS.Undisturbed(storage.capabilities, old(storage.Value())) {
      CalmJudgement(storage.capabilities, old(storage.Value()), storage.Value(), seen);
    }
    if Unsafe(lock) { return LockUnsafe, Labelled(resolved, Skipped), seen, mid, removed; }
    outcome, items, removed := RemoveAll(storage, resolved, ProtectedOperation(lock));
  }

  /** What a deletion's reply says about the file. */
  predicate Deleted(fs: Fs, fs': Fs, p: Path, r: Reply) {
    && (fs' == fs || (p in fs.files && p !in fs.dirs && fs' == fs.(files := fs.files - {p})))
    && match r
       case Failed(NotFound) => fs' == fs && p !in fs.files
       case Failed(WrongKind) => fs' == fs && p in fs.dirs
       case Failed(_) => true
       case _ => fs' != fs
  }

  lemma DeletionTells(caps: FS.Capabilities, r: FS.Remote, p: Path)
    requires Counted(r.schedule.counts)
    ensures var (r', reply) := FS.Respond(caps, r, RemoveFile(p));
            && Deleted(r.fs, r'.fs, p, reply)
            && (Faultless(r.schedule) ==> Faultless(r'.schedule) && ActionFor(reply) != TransportLost)
  {
    assert p in r.fs.files ==> p !in r.fs.files - {p};
  }

  function ActionFor(r: Reply): CandidateAction {
    match r
    case Failed(NotFound) => Missing
    case Failed(WrongKind) => WrongKindObject
    case Failed(_) => TransportLost
    case _ => Removed
  }

  /** The first `i` candidates are dealt with. */
  ghost predicate SoFar(fs0: Fs, fs: Fs, removed: set<Path>, resolved: seq<Path>, i: nat,
                        protected: Option<OperationId>, items: seq<Item>)
    requires i <= |resolved|
  {
    && LostOnly(fs0, fs, removed, resolved, protected) && removed !! fs0.dirs
    && Reported(removed, items) && Removable(fs0, resolved[..i], protected) <= removed
    && |items| == i && (forall j | 0 <= j < i :: items[j].candidate == resolved[j])
    && forall item | item in items :: Truthful(fs0, removed, item, protected)
  }

  lemma RemovableNext(fs: Fs, resolved: seq<Path>, i: nat, protected: Option<OperationId>)
    requires i < |resolved|
    ensures Removable(fs, resolved[..i + 1], protected) <= Removable(fs, resolved[..i], protected) + {resolved[i]}
    ensures resolved[i] !in fs.files || resolved[i] in fs.dirs || ProtectedBy(resolved[i], protected) ==>
              Removable(fs, resolved[..i + 1], protected) <= Removable(fs, resolved[..i], protected)
  {
    assert resolved[..i + 1] == resolved[..i] + [resolved[i]];
  }

  lemma ProtectedNext(fs0: Fs, fs: Fs, removed: set<Path>, resolved: seq<Path>, i: nat,
                      protected: Option<OperationId>, items: seq<Item>)
    requires i < |resolved| && SoFar(fs0, fs, removed, resolved, i, protected, items)
    requires ProtectedBy(resolved[i], protected)
    ensures SoFar(fs0, fs, removed, resolved, i + 1, protected, items + [Item(resolved[i], Protected)])
  {
    RemovableNext(fs0, resolved, i, protected);
  }

  /** One deletion removed its file, or nothing, and its item says which as far as known. */
  lemma DeletedNext(fs0: Fs, fs: Fs, fs': Fs, removed: set<Path>, resolved: seq<Path>, i: nat,
                    protected: Option<OperationId>, items: seq<Item>, r: Reply)
    returns (removed': set<Path>)
    requires i < |resolved| && SoFar(fs0, fs, removed, resolved, i, protected, items)
    requires Temporary(resolved[i]) && !ProtectedBy(resolved[i], protected)
    requires Deleted(fs, fs', resolved[i], r)
    ensures LostOnly(fs0, fs', removed', resolved, protected) && removed' !! fs0.dirs
    ensures removed' == if fs' == fs then removed else removed + {resolved[i]}
    ensures Reported(removed', items + [Item(resolved[i], ActionFor(r))])
    ensures forall item | item in items + [Item(resolved[i], ActionFor(r))] ::
              Truthful(fs0, removed', item, protected)
    ensures ActionFor(r) != TransportLost ==>
              SoFar(fs0, fs', removed', resolved, i + 1, protected, items + [Item(resolved[i], ActionFor(r))])
  {
    var p, item := resolved[i], Item(resolved[i], ActionFor(r));
    removed' := if fs' == fs then removed else removed + {p};
    assert fs' != fs ==> fs'.files == fs0.files - removed';
    var items' := items + [item];
    assert items'[i] == item;
    forall q | q in removed' ensures Item(q, Removed) in items' || Item(q, TransportLost) in items' {
      if q in removed {
        assert Item(q, Removed) in items || Item(q, TransportLost) in items;
      }
    }
    RemovableNext(fs0, resolved, i, protected);
  }

  /** A cleanup that loses a response skips the rest. */
  lemma RestIsSkipped(fs0: Fs, removed: set<Path>, resolved: seq<Path>, i: nat, protected: Option<OperationId>,
                      items: seq<Item>, all: seq<Item>)
    requires i < |resolved| && |items| == i && forall item | item in items :: Judged(item)
    requires forall j | 0 <= j < i :: items[j].candidate == resolved[j]
    requires Reported(removed, items + [Item(resolved[i], TransportLost)])
    requires forall item | item in items :: Truthful(fs0, removed, item, protected)
    requires all == items + [Item(resolved[i], TransportLost)] + Labelled(resolved[i + 1..], Skipped)
    ensures Interrupted(all) && Reported(removed, all) && |all| == |resolved|
    ensures forall j | 0 <= j < |all| :: all[j].candidate == resolved[j]
    ensures forall item | item in all :: Truthful(fs0, removed, item, protected)
  {
    assert all[i].action.TransportLost?;
    assert forall item | item in items + [Item(resolved[i], TransportLost)] :: item in all;
  }

  method RemoveAll(storage: FS.FakeStorage, resolved: seq<Path>, protected: Option<OperationId>)
    returns (outcome: CleanupOutcome, items: seq<Item>, ghost removed: set<Path>)
    requires storage.Valid() && forall p | p in resolved :: Temporary(p)
    modifies storage, storage.faults
    ensures storage.Valid() && |items| == |resolved|
    ensures outcome == Completed || outcome == CleanupInterrupted
    ensures LostOnly(old(storage.Value()).fs, storage.Value().fs, removed, resolved, protected)
    ensures Reported(removed, items)
    ensures forall i | 0 <= i < |items| :: items[i].candidate == resolved[i]
    ensures forall item | item in items :: Truthful(old(storage.Value()).fs, removed, item, protected)
    ensures outcome == Completed ==>
              removed == Removable(old(storage.Value()).fs, resolved, protected)
              && forall item | item in items :: Judged(item)
    ensures outcome == CleanupInterrupted ==> Interrupted(items)
    ensures Faultless(old(storage.Value()).schedule) ==> outcome == Completed
  {
    items, removed := [], {};
    ghost var fs0 := storage.Value().fs;
    for i := 0 to |resolved|
      invariant storage.Valid() && SoFar(fs0, storage.Value().fs, removed, resolved, i, protected, items)
      invariant forall item | item in items :: Judged(item)
      invariant Faultless(old(storage.Value()).schedule) ==> Faultless(storage.Value().schedule)
    {
      var p := resolved[i];
      if ProtectedBy(p, protected) {
        ProtectedNext(fs0, storage.Value().fs, removed, resolved, i, protected, items);
        items := items + [Item(p, Protected)];
        continue;
      }
      ghost var was := storage.Value();
      var r := storage.DeleteFile(p);
      DeletionTells(storage.capabilities, was, p);
      removed := DeletedNext(fs0, was.fs, storage.Value().fs, removed, resolved, i, protected, items, r);
      if r == Failed(NotFound) {
        items := items + [Item(p, Missing)];
      } else if r == Failed(WrongKind) {
        items := items + [Item(p, WrongKindObject)];
      } else if r.Failed? {
        ghost var judged := items;
        items := items + [Item(p, TransportLost)] + Labelled(resolved[i + 1..], Skipped);
        RestIsSkipped(fs0, removed, resolved, i, protected, judged, items);
        return CleanupInterrupted, items, removed;
      } else {
        items := items + [Item(p, Removed)];
      }
    }
    assert resolved[..|resolved|] == resolved;
    outcome := Completed;
  }

  // ----- operator repair -----

  datatype RepairOutcome =
    | NotConfirmed | NotRepairable | LockAbsent | LockChanged | RepairInterrupted
    | ManualRepairRequired | LockRemoved

  /** The tree without the lock, whatever kind of object stood in its place. */
  function Unlocked(fs: Fs): Fs {
    Fs(fs.dirs - {LockDir, LockJson}, fs.files - {LockDir, LockJson})
  }

  /** The lock is the previewed one: the same bytes, or the same entries. */
  predicate AsPreviewed(fs: Fs, preview: Inspection) {
    match preview
    case Readable(_, raw) => LockJson in fs.files && fs.files[LockJson] == raw
    case Malformed(raw) => LockJson in fs.files && fs.files[LockJson] == raw
    case NoDocument => LockJson !in fs.files
    case LockIsFile(raw) => LockDir in fs.files && fs.files[LockDir] == raw
    case DocumentIsDirectory(entries) => LockJson in fs.dirs && Children(fs, LockJson) == entries
    case Absent | Unanswered => false
  }

  /** An inspection whose reads were not corrupted saw what is stored; even a corrupted one
      saw of which kind the objects are. */
  lemma InspectionIsTrue(fs: Fs, seen: Seen, exact: bool)
    requires Sensible(seen) && Informed(fs, seen, exact)
    ensures var i := InspectionOf(seen);
            && (exact && !i.Absent? && !i.Unanswered? ==> AsPreviewed(fs, i))
            && (!i.Absent? && !i.Unanswered? ==> OfKind(fs, i))
  {
  }

  /** What a removal may do to the lock. */
  predicate LockOp(op: Op) {
    (op.RemoveFile? || op.RemoveDir?) && (op.path == LockDir || op.path == LockJson)
  }

  function Dropped(fs: Fs, op: Op): Fs
    requires LockOp(op)
  {
    if op.RemoveFile? then Fs(fs.dirs, fs.files - {op.path}) else Fs(fs.dirs - {op.path}, fs.files)
  }

  lemma RemovalDrops(caps: FS.Capabilities, r: FS.Remote, op: Op)
    requires Counted(r.schedule.counts) && LockOp(op)
    ensures var (r', reply) := FS.Respond(caps, r, op);
            r'.fs == Dropped(r.fs, op) || (reply.Failed? && r'.fs == r.fs)
    ensures Unlocked(Dropped(r.fs, op)) == Unlocked(r.fs)
  {
  }

  /** Removing what is there, without a fault. */
  lemma CalmRemoval(caps: FS.Capabilities, r: FS.Remote, op: Op)
    requires FS.Full(caps) && Faultless(r.schedule) && LockOp(op) && OpError(r.fs, op).None?
    ensures var (r', reply) := FS.Respond(caps, r, op);
            r'.fs == Dropped(r.fs, op) && Faultless(r'.schedule) && reply == Ok
  {
  }

  /** A lock is removed only when it was confirmed and still is exactly as previewed; on
      every other definite outcome nothing is touched; nothing but the lock ever is. */
  method RepairAbandonedUploadLock(storage: FS.FakeStorage, preview: Inspection, confirmed: bool)
    returns (outcome: RepairOutcome)
    requires storage.Valid()
    modifies storage, storage.faults
    ensures storage.Valid()
    ensures outcome == LockRemoved ==> confirmed
    ensures outcome == LockRemoved && WellFormed(old(storage.Value()).fs) ==>
              storage.Value().fs == Unlocked(old(storage.Value()).fs)
    ensures outcome == LockRemoved && old(storage.Value()).schedule.corruptions == [] ==>
              AsPreviewed(old(storage.Value()).fs, preview)
    ensures outcome == NotConfirmed || outcome == NotRepairable || outcome == LockAbsent ==>
              storage.Value().fs == old(storage.Value()).fs
    ensures Unlocked(storage.Value().fs) == Unlocked(old(storage.Value()).fs)
    ensures outcome == NotConfirmed <==> !confirmed
    ensures outcome == NotRepairable <==> confirmed && preview.Unanswered?
    ensures FS.Undisturbed(storage.capabilities, old(storage.Value())) && confirmed && !preview.Unanswered? ==>
              && (outcome == LockRemoved <==> preview == Found(old(storage.Value()).fs) && !preview.Absent?)
              && (outcome == LockAbsent <==> preview == Found(old(storage.Value()).fs) && preview.Absent?)
              && (outcome == LockChanged <==> preview != Found(old(storage.Value()).fs))
              && (outcome == LockChanged ==> storage.Value().fs == old(storage.Value()).fs)
  {
    if !confirmed { return NotConfirmed; }
    if preview.Unanswered? { return NotRepairable; }
    var now, seen := InspectUploadLock(storage);
    InspectionInforms(storage.capabilities, old(storage.Value()), storage.Value(), seen);
    if FS.Undisturbed(storage.capabilities, old(storage.Value())) {
      CalmInspection(storage.capabilities, old(storage.Value()), storage.Value(), seen);
    }
    if preview.Absent? { return if now.Absent? then LockAbsent else LockChanged; }
    if now.Unanswered? { return RepairInterrupted; }
    if now != preview { return LockChanged; }
    InspectionIsTrue(storage.Value().fs, seen, old(storage.Value()).schedule.corruptions == []);
    outcome := RemoveInspected(storage, now);
  }

  /** The lock is of the kind that was found. */
  predicate OfKind(fs: Fs, i: Inspection) {
    match i
    case LockIsFile(_) => LockDir in fs.files
    case DocumentIsDirectory(_) => LockDir in fs.dirs && LockJson in fs.dirs
    case Readable(_, _) | Malformed(_) => LockDir in fs.dirs && LockJson in fs.files
    case NoDocument => LockDir in fs.dirs && LockJson !in fs.files && LockJson !in fs.dirs
    case Absent | Unanswered => false
  }

  method RemoveInspected(storage: FS.FakeStorage, now: Inspection) returns (outcome: RepairOutcome)
    requires storage.Valid() && OfKind(Fs(storage.directories, storage.files), now)
    modifies storage, storage.faults
    ensures storage.Valid()
    ensures outcome != NotConfirmed && outcome != NotRepairable && outcome != LockAbsent
    ensures outcome == LockRemoved && WellFormed(old(storage.Value()).fs) ==>
              storage.Value().fs == Unlocked(old(storage.Value()).fs)
    ensures Unlocked(storage.Value().fs) == Unlocked(old(storage.Value()).fs)
    ensures FS.Undisturbed(storage.capabilities, old(storage.Value())) && now == Found(old(storage.Value()).fs) ==>
              outcome == LockRemoved
  {
    if now.LockIsFile? {
      outcome := RemoveLockFile(storage);
    } else if now.DocumentIsDirectory? {
      FoundIsEmpty(storage.Value().fs);
      outcome := RemoveDocumentDirectory(storage, now.entries);
    } else {
      if WellFormed(storage.Value().fs) { LockKinds(storage.Value().fs); }
      outcome := RemoveLock(storage, !now.NoDocument?);
    }
  }

  /** Nothing can stand below a document, nor anything but the document in the lock. */
  lemma FoundIsEmpty(fs: Fs)
    ensures Children(fs, LockJson) == {}
    ensures LockJson !in fs.files && LockJson !in fs.dirs ==> Children(fs, LockDir) == {}
  {
  }

  /** Files and directories of the lock's paths, in a well-formed tree. */
  lemma LockKinds(fs: Fs)
    requires WellFormed(fs)
    ensures LockDir in fs.files ==> LockDir !in fs.dirs && LockJson !in fs.files && LockJson !in fs.dirs
    ensures LockJson in fs.files ==> LockJson !in fs.dirs
  {
    assert LockJson in fs.dirs + fs.files.Keys ==> LockDir in fs.dirs;
  }

  /** Undisturbed, the document and then the directory can be removed. */
  lemma CalmLockRemoval(caps: FS.Capabilities, r: FS.Remote, document: bool)
    requires FS.Undisturbed(caps, r) && LockDir in r.fs.dirs && (document || LockJson !in r.fs.dirs)
    requires document <==> LockJson in r.fs.files
    ensures var (mid, reply) := if document then FS.Respond(caps, r, RemoveFile(LockJson)) else (r, Ok);
            && reply == Ok && Faultless(mid.schedule)
            && FS.Respond(caps, mid, RemoveDir(LockDir)).1 == Ok
  {
    LockKinds(r.fs);
    if document { CalmRemoval(caps, r, RemoveFile(LockJson)); }
    var mid := if document then FS.Respond(caps, r, RemoveFile(LockJson)).0 else r;
    FoundIsEmpty(mid.fs);
    CalmRemoval(caps, mid, RemoveDir(LockDir));
  }

  method RemoveLock(storage: FS.FakeStorage, document: bool) returns (outcome: RepairOutcome)
    requires storage.Valid() && LockDir in storage.directories
    requires document <==> LockJson in storage.files
    requires document || LockJson !in storage.directories
    modifies storage, storage.faults
    ensures storage.Valid()
    ensures outcome == LockRemoved || outcome == LockChanged || outcome == RepairInterrupted
    ensures outcome == LockRemoved && WellFormed(old(storage.Value()).fs) ==>
              storage.Value().fs == Unlocked(old(storage.Value()).fs)
    ensures FS.Undisturbed(storage.capabilities, old(storage.Value())) ==> outcome == LockRemoved
    ensures Unlocked(storage.Value().fs) == Unlocked(old(storage.Value()).fs)
  {
    ghost var start := storage.Value();
    if FS.Undisturbed(storage.capabilities, start) {
      CalmLockRemoval(storage.capabilities, start, document);
    }
    if document {
      var r := storage.DeleteFile(LockJson);
      RemovalDrops(storage.capabilities, old(storage.Value()), RemoveFile(LockJson));
      if r == Failed(NotFound) { return LockChanged; }
      if r.Failed? { return RepairInterrupted; }
    }
    ghost var mid := storage.Value();
    var r := storage.DeleteDirectory(LockDir);
    RemovalDrops(storage.capabilities, mid, RemoveDir(LockDir));
    if r.Failed? { return RepairInterrupted; }
    RemovedIsEmpty(storage.capabilities, mid);
    if WellFormed(old(storage.Value()).fs) { LockKinds(old(storage.Value()).fs); }
    return LockRemoved;
  }

  /** A directory that was removed had nothing in it. */
  lemma RemovedIsEmpty(caps: FS.Capabilities, r: FS.Remote)
    requires Counted(r.schedule.counts) && !FS.Respond(caps, r, RemoveDir(LockDir)).1.Failed?
    ensures LockJson !in r.fs.dirs && LockJson !in r.fs.files && LockDir !in r.fs.files
  {
    assert LockJson in r.fs.dirs + r.fs.files.Keys ==> LockJson in Children(r.fs, LockDir);
  }

  /** A file in place of the lock directory: that file is removed, and nothing else. */
  method RemoveLockFile(storage: FS.FakeStorage) returns (outcome: RepairOutcome)
    requires storage.Valid() && LockDir in storage.files
    modifies storage, storage.faults
    ensures storage.Valid()
    ensures outcome == LockRemoved || outcome == LockChanged || outcome == RepairInterrupted
    ensures outcome == LockRemoved && WellFormed(old(storage.Value()).fs) ==>
              storage.Value().fs == Unlocked(old(storage.Value()).fs)
    ensures FS.Undisturbed(storage.capabilities, old(storage.Value())) ==> outcome == LockRemoved
    ensures Unlocked(storage.Value().fs) == Unlocked(old(storage.Value()).fs)
  {
    var r := storage.DeleteFile(LockDir);
    RemovalDrops(storage.capabilities, old(storage.Value()), RemoveFile(LockDir));
    if r == Failed(WrongKind) { return LockChanged; }
    if r.Failed? { return RepairInterrupted; }
    if WellFormed(old(storage.Value()).fs) { LockKinds(old(storage.Value()).fs); }
    return LockRemoved;
  }

  lemma CalmDocumentRemoval(caps: FS.Capabilities, r: FS.Remote)
    requires FS.Undisturbed(caps, r) && LockDir in r.fs.dirs && LockJson in r.fs.dirs
    ensures var (mid, reply) := FS.Respond(caps, r, RemoveDir(LockJson));
            && reply == Ok && Faultless(mid.schedule)
            && FS.Respond(caps, mid, RemoveDir(LockDir)).1 == Ok
  {
    LockKinds(r.fs);
    FoundIsEmpty(r.fs);
    CalmRemoval(caps, r, RemoveDir(LockJson));
    var mid := FS.Respond(caps, r, RemoveDir(LockJson)).0;
    FoundIsEmpty(mid.fs);
    CalmRemoval(caps, mid, RemoveDir(LockDir));
  }

  /** Both removals take nothing but the lock, and all of it when both succeed. */
  lemma DirectoriesRemoved(caps: FS.Capabilities, r: FS.Remote, mid: FS.Remote, last: FS.Remote,
                           first: Reply, second: Reply)
    requires Counted(r.schedule.counts) && (mid, first) == FS.Respond(caps, r, RemoveDir(LockJson))
    requires Counted(mid.schedule.counts) && (last, second) == FS.Respond(caps, mid, RemoveDir(LockDir))
    requires WellFormed(r.fs) ==> LockDir in r.fs.dirs && LockJson in r.fs.dirs
    ensures Unlocked(mid.fs) == Unlocked(r.fs) == Unlocked(last.fs)
    ensures !first.Failed? && !second.Failed? && WellFormed(r.fs) ==> last.fs == Unlocked(r.fs)
  {
    RemovalDrops(caps, r, RemoveDir(LockJson));
    RemovalDrops(caps, mid, RemoveDir(LockDir));
    if !second.Failed? { RemovedIsEmpty(caps, mid); }
  }

  /** A directory in place of the document: removed only while it is empty. */
  method RemoveDocumentDirectory(storage: FS.FakeStorage, entries: set<Path>) returns (outcome: RepairOutcome)
    requires storage.Valid() && LockDir in storage.directories && LockJson in storage.directories
    modifies storage, storage.faults
    ensures storage.Valid()
    ensures outcome != NotConfirmed && outcome != NotRepairable && outcome != LockAbsent
    ensures entries != {} ==> outcome == ManualRepairRequired && storage.Value() == old(storage.Value())
    ensures outcome == LockRemoved && WellFormed(old(storage.Value()).fs) ==>
              storage.Value().fs == Unlocked(old(storage.Value()).fs)
    ensures Unlocked(storage.Value().fs) == Unlocked(old(storage.Value()).fs)
    ensures FS.Undisturbed(storage.capabilities, old(storage.Value())) && entries == {} ==> outcome == LockRemoved
  {
    if entries != {} { return ManualRepairRequired; }
    ghost var start := storage.Value();
    if FS.Undisturbed(storage.capabilities, start) { CalmDocumentRemoval(storage.capabilities, start); }
    var r := storage.DeleteDirectory(LockJson);
    ghost var mid, first := storage.Value(), r;
    if r.Failed? {
      RemovalDrops(storage.capabilities, start, RemoveDir(LockJson));
      return WrongKindRemoval(r.error);
    }
    r := storage.DeleteDirectory(LockDir);
    DirectoriesRemoved(storage.capabilities, start, mid, storage.Value(), first, r);
    return if r.Failed? then WrongKindRemoval(r.error) else LockRemoved;
  }

  function WrongKindRemoval(e: Failure): RepairOutcome {
    if e == NotEmpty then ManualRepairRequired
    else if e == WrongKind then LockChanged
    else RepairInterrupted
  }
}
