/** Why an undisturbed turn does not commit: the first obstacle on the tree decides between
    a hard integrity failure and a failure that keeps the lock. */
module Obstacles {
  import opened Domain
  import opened Storage
  import opened Handoff
  import opened Invariant
  import opened HandoffSafety
  import opened NoRepair
  import opened Alone

  /** The first of two obstacles. */
  function First(a: Option<Outcome>, b: Option<Outcome>): Option<Outcome> {
    if a.Some? then a else b
  }

  /** A directory to write into: a file in its place is a hard failure, its absence is not. */
  function NeedsDir(fs: Fs, p: Path): Option<Outcome> {
    if p in fs.files then Some(HardIntegrityFailure)
    else if p !in fs.dirs then Some(TransportFailure)
    else None
  }

  /** A name that must be free or hold exactly these bytes, as far as a fingerprint tells. */
  function NeedsName(fs: Fs, p: Path, fp: Fingerprint): Option<Outcome> {
    if p in fs.dirs || !Matches(fs, p, fp) then Some(HardIntegrityFailure) else None
  }

  /** A name whose old bytes may be overwritten. */
  function NeedsFile(fs: Fs, p: Path): Option<Outcome> {
    if p in fs.dirs then Some(HardIntegrityFailure) else None
  }

  function SaveObstacle(fs: Fs, req: Request, raw: Content): Option<Outcome>
    requires Candidate(req, raw)
  {
    First(NeedsDir(fs, SavesDir), NeedsName(fs, FinalPath(req, raw), FINGERPRINT(req.bytes)))
  }

  function ManifestObstacle(fs: Fs, req: Request): Option<Outcome> {
    NeedsFile(fs, TmpManifest(req.op))
  }

  function ArchiveObstacle(fs: Fs, req: Request, raw: Content): Option<Outcome>
    requires Candidate(req, raw)
  {
    First(NeedsDir(fs, HistoryDir),
          First(NeedsName(fs, ArchivePath(raw), FINGERPRINT(raw)), ManifestObstacle(fs, req)))
  }

  function HistoryObstacle(fs: Fs, req: Request, raw: Content): Option<Outcome>
    requires Candidate(req, raw)
  {
    First(NeedsName(fs, TmpHistory(req.op), FINGERPRINT(raw)), ArchiveObstacle(fs, req, raw))
  }

  /** In the order the call meets them: the staged save, the save's name, the staged
      archive, the archive's name, the staged manifest. */
  function TurnObstacle(fs: Fs, req: Request, raw: Content): Option<Outcome>
    requires Candidate(req, raw)
  {
    First(First(NeedsDir(fs, TemporaryDir), NeedsFile(fs, TmpUpload(req.op, req.ext))),
          First(SaveObstacle(fs, req, raw), HistoryObstacle(fs, req, raw)))
  }

  /** What is known on arrival at a stage. */
  predicate Arrived(fs: Fs, req: Request, stage: Stage, raw: Content)
    requires Candidate(req, raw)
  {
    var up, save := TmpUpload(req.op, req.ext), FINGERPRINT(req.bytes);
    var hist, archive := TmpHistory(req.op), FINGERPRINT(raw);
    && (!stage.UpCompare? && !stage.UpWrite? ==> TemporaryDir in fs.dirs)
    && match stage
       case UpCompare => true
       case UpWrite(o) => up !in fs.dirs && (up in fs.files <==> o)
       case UpVerify | PubMove => Stored(fs, up, save)
       case PubReuse => SavesDir in fs.dirs && FinalPath(req, raw) in fs.files
       case PubCheck | FinalCheck => Stored(fs, FinalPath(req, raw), save)
       case HistCompare => true
       case HistWrite => hist !in fs.files && hist !in fs.dirs
       case HistRace => false
       case HistVerify | HistMove => Stored(fs, hist, archive)
       case HistReuse => HistoryDir in fs.dirs && ArchivePath(raw) in fs.files
       case HistCheck => Stored(fs, ArchivePath(raw), archive)
       case StageManifest => true
       case OwnList | OwnRead | Replace => TmpManifest(req.op) in fs.files
       case OwnKind(_) => false
  }

  /** The obstacle still ahead at a stage. */
  function Ahead(fs: Fs, req: Request, stage: Stage, raw: Content): Option<Outcome>
    requires Candidate(req, raw)
  {
    match stage
    case UpCompare | UpWrite(_) => TurnObstacle(fs, req, raw)
    case UpVerify | PubMove => First(SaveObstacle(fs, req, raw), HistoryObstacle(fs, req, raw))
    case PubReuse =>
      First(NeedsName(fs, FinalPath(req, raw), FINGERPRINT(req.bytes)), HistoryObstacle(fs, req, raw))
    case PubCheck | FinalCheck | HistCompare | HistWrite | HistRace => HistoryObstacle(fs, req, raw)
    case HistVerify | HistMove => ArchiveObstacle(fs, req, raw)
    case HistReuse => First(NeedsName(fs, ArchivePath(raw), FINGERPRINT(raw)), ManifestObstacle(fs, req))
    case HistCheck | StageManifest => ManifestObstacle(fs, req)
    case OwnList | OwnRead | OwnKind(_) | Replace => None
  }

  /** After a step: work goes on towards the same obstacle, or the call has met it. */
  predicate Meets(fs: Fs, req: Request, raw: Content, ahead: Option<Outcome>, s: Step)
    requires Candidate(req, raw)
  {
    if s.Work? then Arrived(fs, req, s.stage, raw) && Ahead(fs, req, s.stage, raw) == ahead
    else Gave(req, s) && ahead == Some(s.result.outcome)
         && (s.Returned? <==> s.result.outcome == TransportFailure)
  }

  lemma StagingMeets(fs: Fs, req: Request, stage: Stage, raw: Content)
    requires WellFormed(fs) && Candidate(req, raw) && Arrived(fs, req, stage, raw)
    requires stage.UpWrite? || stage.UpVerify?
    ensures var (fs', r) := Exec(fs, WorkOp(req, stage, raw), NoFault);
            Meets(fs', req, raw, Ahead(fs, req, stage, raw), OnUpload(req, stage, raw, r))
  {
    var up := TmpUpload(req.op, req.ext);
    assert up in fs.dirs + fs.files.Keys ==> TemporaryDir in fs.dirs;
  }

  lemma FirstMeets(fs: Fs, req: Request, raw: Content)
    requires WellFormed(fs) && Candidate(req, raw) && Arrived(fs, req, UpCompare, raw)
    ensures var (fs', r) := Exec(fs, WorkOp(req, UpCompare, raw), NoFault);
            Meets(fs', req, raw, Ahead(fs, req, UpCompare, raw), OnUpload(req, UpCompare, raw, r))
  {
    var up := TmpUpload(req.op, req.ext);
    assert up in fs.dirs + fs.files.Keys ==> TemporaryDir in fs.dirs;
  }

  lemma PublishMeets(fs: Fs, req: Request, raw: Content)
    requires WellFormed(fs) && Candidate(req, raw) && Arrived(fs, req, PubMove, raw)
    ensures var (fs', r) := Exec(fs, WorkOp(req, PubMove, raw), NoFault);
            Meets(fs', req, raw, Ahead(fs, req, PubMove, raw), OnUpload(req, PubMove, raw, r))
  {
    var save := FinalPath(req, raw);
    assert save in fs.dirs + fs.files.Keys ==> SavesDir in fs.dirs;
    assert TmpUpload(req.op, req.ext) in fs.files ==> TmpUpload(req.op, req.ext) !in fs.dirs;
  }

  lemma PublishedMeets(fs: Fs, req: Request, stage: Stage, raw: Content)
    requires WellFormed(fs) && Candidate(req, raw) && Arrived(fs, req, stage, raw)
    requires stage.PubReuse? || stage.PubCheck? || stage.FinalCheck?
    ensures var (fs', r) := Exec(fs, WorkOp(req, stage, raw), NoFault);
            Meets(fs', req, raw, Ahead(fs, req, stage, raw), OnUpload(req, stage, raw, r))
  {
  }

  lemma ComparingMeets(fs: Fs, req: Request, raw: Content)
    requires WellFormed(fs) && Candidate(req, raw) && Arrived(fs, req, HistCompare, raw)
    ensures var (fs', r) := Exec(fs, WorkOp(req, HistCompare, raw), NoFault);
            Meets(fs', req, raw, Ahead(fs, req, HistCompare, raw), OnArchive(req, HistCompare, raw, r))
  {
  }

  lemma KeepingMeets(fs: Fs, req: Request, stage: Stage, raw: Content)
    requires WellFormed(fs) && Candidate(req, raw) && Arrived(fs, req, stage, raw)
    requires stage.HistWrite? || stage.HistVerify?
    ensures var (fs', r) := Exec(fs, WorkOp(req, stage, raw), NoFault);
            Meets(fs', req, raw, Ahead(fs, req, stage, raw), OnArchive(req, stage, raw, r))
  {
  }

  lemma MovingMeets(fs: Fs, req: Request, raw: Content)
    requires WellFormed(fs) && Candidate(req, raw) && Arrived(fs, req, HistMove, raw)
    ensures var (fs', r) := Exec(fs, WorkOp(req, HistMove, raw), NoFault);
            Meets(fs', req, raw, Ahead(fs, req, HistMove, raw), OnArchive(req, HistMove, raw, r))
  {
    var h := ArchivePath(raw);
    assert h in fs.dirs + fs.files.Keys ==> HistoryDir in fs.dirs;
  }

  lemma ArchivedMeets(fs: Fs, req: Request, stage: Stage, raw: Content)
    requires WellFormed(fs) && Candidate(req, raw) && Arrived(fs, req, stage, raw)
    requires stage.HistReuse? || stage.HistCheck?
    ensures var (fs', r) := Exec(fs, WorkOp(req, stage, raw), NoFault);
            Meets(fs', req, raw, Ahead(fs, req, stage, raw), OnArchive(req, stage, raw, r))
  {
  }

  lemma StagedMeets(fs: Fs, req: Request, raw: Content)
    requires WellFormed(fs) && Candidate(req, raw) && Arrived(fs, req, StageManifest, raw)
    ensures var (fs', r) := Exec(fs, WorkOp(req, StageManifest, raw), NoFault);
            Meets(fs', req, raw, Ahead(fs, req, StageManifest, raw), OnCommit(req, StageManifest, raw, r))
  {
  }

  lemma OwnedMeets(fs: Fs, req: Request, stage: Stage, raw: Content)
    requires WellFormed(fs) && Candidate(req, raw) && Arrived(fs, req, stage, raw) && Holds(fs, req)
    requires stage.OwnList? || stage.OwnRead?
    ensures var (fs', r) := Exec(fs, WorkOp(req, stage, raw), NoFault);
            Meets(fs', req, raw, Ahead(fs, req, stage, raw), OnCommit(req, stage, raw, r))
  {
    OwnershipTrack(fs, req, stage, raw);
  }

  lemma WorkMeets(fs: Fs, req: Request, stage: Stage, raw: Content)
    requires WellFormed(fs) && Candidate(req, raw) && Arrived(fs, req, stage, raw) && Holds(fs, req)
    requires stage != Replace
    ensures var (fs', r) := Exec(fs, WorkOp(req, stage, raw), NoFault);
            Meets(fs', req, raw, Ahead(fs, req, stage, raw), OnWork(req, stage, raw, r))
  {
    match stage
    case UpCompare => FirstMeets(fs, req, raw);
    case UpWrite(_) | UpVerify => StagingMeets(fs, req, stage, raw);
    case PubMove => PublishMeets(fs, req, raw);
    case PubReuse | PubCheck | FinalCheck => PublishedMeets(fs, req, stage, raw);
    case HistCompare => ComparingMeets(fs, req, raw);
    case HistWrite | HistVerify => KeepingMeets(fs, req, stage, raw);
    case HistMove => MovingMeets(fs, req, raw);
    case HistReuse | HistCheck => ArchivedMeets(fs, req, stage, raw);
    case StageManifest => StagedMeets(fs, req, raw);
    case OwnList | OwnRead => OwnedMeets(fs, req, stage, raw);
  }

  /** How a call ends that met an obstacle, or none. */
  ghost predicate EndsAt(req: Request, run: Run, ahead: Option<Outcome>, last: Run)
    requires last.step.Returned?
  {
    match ahead
    case None => last.step.result.outcome == Committed
    case Some(o) =>
      && last.step.result.outcome == o && !last.step.result.changed && SameManifest(run.fs, last.fs)
      && (if o == TransportFailure then Holds(last.fs, req) && last.mem == run.mem else Clean(last))
  }

  /** From any stage of the work: the first obstacle ahead is the answer. */
  lemma {:induction false} ObstacleDecides(req: Request, run: Run, raw: Content)
    requires Steady(req, run, raw) && run.step.Work? && Arrived(run.fs, req, run.step.stage, raw)
    ensures EndsAt(req, run, Ahead(run.fs, req, run.step.stage, raw), Finally(req, run))
    decreases Rank(run.step)
  {
    if run.step.stage == Replace {
      CommitsExactlyOnTrack(req, run, raw);
    } else {
      var next := StepAlone(req, run);
      WorkMeets(run.fs, req, run.step.stage, raw);
      SteadyStep(req, run, raw);
      WorkFrame(run.fs, req, run.step.stage, raw);
      if next.step.Work? { ObstacleDecides(req, next, raw); } else { MetEnds(req, run, next, raw); }
    }
  }

  lemma MetEnds(req: Request, run: Run, next: Run, raw: Content)
    requires Steady(req, run, raw) && run.step.Work? && run.step.stage != Replace
    requires next == StepAlone(req, run) && Steady(req, next, raw) && SameManifest(run.fs, next.fs)
    requires Gave(req, next.step) && (next.step.Returned? <==> next.step.result.outcome == TransportFailure)
    ensures EndsAt(req, run, Some(next.step.result.outcome), Finally(req, run))
  {
    assert Finally(req, run) == Finally(req, next);
    if next.step.RelList? {
      ReleaseEnds(req, next, raw);
    } else {
      OnlyLockSteps(req, run.step);
      ElsewhereKeepsLock(run.fs, ActionOf(req, run.step).op, NoFault);
    }
  }

  /** No obstacle is exactly the room the commit needs. */
  lemma NoObstacleIsRoom(fs: Fs, req: Request, raw: Content)
    requires WellFormed(fs) && Candidate(req, raw)
    ensures TurnObstacle(fs, req, raw).None? <==> WorkLeft(fs, req, UpCompare, raw)
  {
    assert forall p | p in {TemporaryDir, SavesDir, HistoryDir} && p in fs.dirs :: p !in fs.files;
  }
}
