/** `initialize_match` as a machine, one storage operation per step. */
module Initialize {
  import opened Domain
  import opened Storage
  import Handoff

  datatype Config = Config(game: GameId, displayName: nat, players: seq<PlayerId>)

  predicate ValidConfig(cfg: Config) {
    |cfg.players| > 0 && Distinct(cfg.players)
  }

  datatype InitOutcome =
    | Created | JoinedExisting | IncompleteOrConflicting | InvalidExisting
    | GameIdMismatch | CapabilityMissing | TransportFailed

  datatype InitResult = InitResult(outcome: InitOutcome, manifest: Option<Manifest>)

  datatype InitStep =
    | MakeRoot
    | MakeSub(index: nat)
    | StageZero
    | Install
    | ClassifyExisting
    | ClassifyUncertain
    | Finished(result: InitResult)

  const SUBDIRECTORIES: seq<Path> := [SavesDir, TemporaryDir, LocksDir, HistoryDir]

  function ZeroManifest(cfg: Config): (m: Manifest)
    requires ValidConfig(cfg)
    ensures ValidManifest(m) && m.sequence == 0 && m.gameId == cfg.game
    ensures m.players == cfg.players && m.current == cfg.players[0]
  {
    Manifest(cfg.game, cfg.displayName, cfg.players, 0, cfg.players[0], None, None, [], None, None)
  }

  function ZeroPayload(cfg: Config): Content
    requires ValidConfig(cfg)
  {
    Canonical(ZeroManifest(cfg))
  }

  predicate WellFormedInit(s: InitStep) {
    s.MakeSub? ==> s.index < |SUBDIRECTORIES|
  }

  function InitOp(cfg: Config, op: OperationId, s: InitStep): Op
    requires ValidConfig(cfg) && WellFormedInit(s) && !s.Finished?
  {
    match s
    case MakeRoot => Mkdir(Root)
    case MakeSub(i) => Mkdir(SUBDIRECTORIES[i])
    case StageZero => Write(TmpManifest(op), ZeroPayload(cfg), false)
    case Install => AtomicReplace(TmpManifest(op), ManifestJson)
    case ClassifyExisting | ClassifyUncertain => Read(ManifestJson)
  }

  function Ended(o: InitOutcome): InitStep { Finished(InitResult(o, None)) }

  function OnPublish(r: Reply, next: InitStep): InitStep {
    if !r.Failed? then next
    else match r.error
      case NoCapability => Ended(CapabilityMissing)
      case Transport => ClassifyUncertain
      case _ => Ended(TransportFailed)
  }

  function OnInitReply(cfg: Config, s: InitStep, r: Reply): (s': InitStep)
    requires ValidConfig(cfg) && WellFormedInit(s) && !s.Finished?
    ensures WellFormedInit(s')
  {
    match s
    case MakeRoot =>
      if !r.Failed? then MakeSub(0)
      else (match r.error
            case AlreadyExists => ClassifyExisting
            case WrongKind => Ended(IncompleteOrConflicting)
            case NoCapability => Ended(CapabilityMissing)
            case _ => Ended(TransportFailed))
    case MakeSub(i) =>
      if !r.Failed? then (if i + 1 < |SUBDIRECTORIES| then MakeSub(i + 1) else StageZero)
      else (match r.error
            case NoCapability => Ended(CapabilityMissing)
            case WrongKind => Ended(IncompleteOrConflicting)
            case _ => Ended(TransportFailed))
    case StageZero => OnPublish(r, Install)
    case Install => OnPublish(r, Finished(InitResult(Created, Some(ZeroManifest(cfg)))))
    case ClassifyExisting =>
      (match Handoff.ReadOutcome(cfg.game, r)
       case ReadOk(m, _) => Finished(InitResult(JoinedExisting, Some(m)))
       case Invalid => Ended(InvalidExisting)
       case GameMismatch => Ended(GameIdMismatch)
       case Unreachable => Ended(TransportFailed)
       case Missing => Ended(IncompleteOrConflicting))
    case ClassifyUncertain =>
      (match Handoff.ReadOutcome(cfg.game, r)
       case ReadOk(m, raw) =>
         if raw == ZeroPayload(cfg) then Finished(InitResult(Created, Some(m)))
         else Finished(InitResult(JoinedExisting, Some(m)))
       case Invalid => Ended(InvalidExisting)
       case GameMismatch => Ended(GameIdMismatch)
       case Missing | Unreachable => Ended(TransportFailed))
  }
}
