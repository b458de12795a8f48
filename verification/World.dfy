/** Any number of clients over one remote tree.

    A run is a sequence of events.  One event is one storage operation of one client
    (under a fault), one durable local write, a crash, the start of a call, the note that
    a close was requested, the removal of a temporary object by a concurrent cleanup, or
    an operator repair of the lock.

    `chain` and `began` are history: who installed which manifest, and how long the
    chain was when a client's current call began.
 */
module World {
  import opened Domain
  import opened Storage
  import opened Handoff
  import opened Initialize
  import opened Evidence

  /** One installed manifest and the call that installed it. */
  datatype Block = Block(content: Content, client: ClientId, op: OperationId)

  /** What an operation id was issued for; ids are never reused for anything else. */
  datatype Issue =
    | ForHandoff(client: ClientId, player: PlayerId, sha256: Digest)
    | ForInit(client: ClientId)

  datatype Task =
    | Idle
    | Handing(req: Request, step: Step)
    | Creating(cfg: Config, op: OperationId, init: InitStep)
    | Reconciling(pass: Pass, phase: ReconcileStep)

  datatype Client = Client(task: Task, mem: Memory, began: nat)

  datatype World = World(
    fs: Fs, game: GameId, chain: seq<Block>, issued: map<OperationId, Issue>,
    clients: map<ClientId, Client>)

  datatype Event =
    | Act(who: ClientId, fault: Fault)
    | Crash(who: ClientId)
    | BeginHandoff(who: ClientId, req: Request)
    | BeginInit(who: ClientId, cfg: Config, op: OperationId)
    | BeginReconcile(who: ClientId, pass: Pass)
    | Associate(who: ClientId, association: Association)
    | MarkClose(who: ClientId)
    | CleanTemporary(path: Path)
    | RepairLock

  function Start(game: GameId): World {
    World(Fs({}, map[]), game, [], map[], map[])
  }

  function ClientOf(w: World, c: ClientId): Client {
    if c in w.clients then w.clients[c] else Client(Idle, EMPTY_MEMORY, 0)
  }

  /** The call in progress has returned, or there is none. */
  predicate Free(t: Task) {
    match t
    case Idle => true
    case Handing(_, s) => s.Returned?
    case Creating(_, _, s) => s.Finished?
    case Reconciling(_, s) => s.Reconciled?
  }

  predicate WellFormedTask(cl: Client) {
    match cl.task
    case Idle => true
    case Handing(req, s) => WellFormedStep(req, s)
    case Creating(cfg, _, s) => ValidConfig(cfg) && WellFormedInit(s)
    case Reconciling(_, s) => WellFormedReconcile(cl.mem, s)
  }

  function NextAction(cl: Client): Action
    requires WellFormedTask(cl)
  {
    match cl.task
    case Idle => Halt
    case Handing(req, s) => ActionOf(req, s)
    case Creating(cfg, op, s) => if s.Finished? then Halt else Remote(InitOp(cfg, op, s))
    case Reconciling(_, s) => ReconcileAction(s)
  }

  function Reply1(cl: Client, r: Reply): Client
    requires WellFormedTask(cl) && NextAction(cl).Remote?
  {
    match cl.task
    case Handing(req, s) => cl.(task := Handing(req, OnReply(req, cl.mem, s, r)))
    case Creating(cfg, op, s) => cl.(task := Creating(cfg, op, OnInitReply(cfg, s, r)))
    case Reconciling(pass, s) => cl.(task := Reconciling(pass, OnReconcileReply(pass, cl.mem, s, r)))
  }

  function Local1(cl: Client): Client
    requires WellFormedTask(cl) && NextAction(cl).Local?
  {
    match cl.task
    case Handing(req, s) =>
      var (mem, s') := OnLocal(req, cl.mem, s);
      cl.(task := Handing(req, s'), mem := mem)
    case Reconciling(pass, s) =>
      var (mem, s') := OnReconcileLocal(pass, cl.mem, s);
      cl.(task := Reconciling(pass, s'), mem := mem)
  }

  function OpIdOf(t: Task): OperationId {
    match t
    case Handing(req, _) => req.op
    case Creating(_, op, _) => op
    case _ => 0
  }

  /** The chain grows exactly when an atomic replace took effect. */
  function Grown(chain: seq<Block>, fs: Fs, fs': Fs, op: Op, c: ClientId, id: OperationId): seq<Block> {
    if op.AtomicReplace? && fs' != fs && ManifestJson in fs'.files then
      chain + [Block(fs'.files[ManifestJson], c, id)]
    else chain
  }

  predicate MayIssue(w: World, op: OperationId, issue: Issue) {
    op in w.issued ==> w.issued[op] == issue
  }

  function IssueOf(req: Request): Issue {
    ForHandoff(req.client, req.player, DigestOf(req))
  }

  /** A lock holder between its ownership check and the operation the check licenses. */
  predicate InWindow(t: Task) {
    t.Handing? && ((t.step.Work? && t.step.stage == Replace) || t.step.RelJson?)
  }

  predicate Enabled(w: World, e: Event) {
    match e
    case Act(c, fault) =>
      && WellFormedTask(ClientOf(w, c)) && NextAction(ClientOf(w, c)) != Halt && fault != Corrupt
    case Crash(c) => true
    case BeginHandoff(c, req) =>
      && Free(ClientOf(w, c).task) && ValidRequest(req)
      && req.client == c && req.game == w.game && MayIssue(w, req.op, IssueOf(req))
    case BeginInit(c, cfg, op) =>
      && Free(ClientOf(w, c).task) && ValidConfig(cfg)
      && cfg.game == w.game && MayIssue(w, op, ForInit(c))
    case BeginReconcile(c, pass) =>
      && Free(ClientOf(w, c).task) && pass.client == c && pass.game == w.game
      // evidence is handed over only by the call that has just returned
      && (pass.given.Some? ==>
            var t := ClientOf(w, c).task;
            && t.Handing? && t.step.Returned?
            && AttributeResult(t.req, t.step.result, pass.given.value.source) == pass.given)
    case Associate(c, _) => Free(ClientOf(w, c).task)
    case MarkClose(c) => Free(ClientOf(w, c).task)
    case CleanTemporary(p) => Temporary(p)
    case RepairLock =>
      // a directory in place of the document needs a manual repair
      && LockJson !in w.fs.dirs
      && forall c | c in w.clients :: !InWindow(w.clients[c].task)
  }

  function Put(w: World, c: ClientId, cl: Client): World {
    w.(clients := w.clients[c := cl])
  }

  function AfterAct(w: World, c: ClientId, fault: Fault): World
    requires Enabled(w, Act(c, fault))
  {
    var cl := ClientOf(w, c);
    match NextAction(cl)
    case Local => Put(w, c, Local1(cl))
    case Remote(op) =>
      var (fs', r) := Exec(w.fs, op, fault);
      Put(w, c, Reply1(cl, r)).(fs := fs', chain := Grown(w.chain, w.fs, fs', op, c, OpIdOf(cl.task)))
  }

  function Next(w: World, e: Event): World
    requires Enabled(w, e)
  {
    match e
    case Act(c, fault) => AfterAct(w, c, fault)
    case Crash(c) => Put(w, c, ClientOf(w, c).(task := Idle))
    case BeginHandoff(c, req) =>
      Put(w, c, ClientOf(w, c).(task := Handing(req, AcqMkdir), began := |w.chain|))
        .(issued := w.issued[req.op := IssueOf(req)])
    case BeginInit(c, cfg, op) =>
      Put(w, c, ClientOf(w, c).(task := Creating(cfg, op, MakeRoot), began := |w.chain|))
        .(issued := w.issued[op := ForInit(c)])
    case BeginReconcile(c, pass) =>
      Put(w, c, ClientOf(w, c).(task := Reconciling(pass, FirstStep(pass, ClientOf(w, c).mem)),
                                began := |w.chain|))
    case Associate(c, a) =>
      Put(w, c, ClientOf(w, c).(mem := ClientOf(w, c).mem.(association := Some(a))))
    case MarkClose(c) => Put(w, c, ClientOf(w, c).(mem := CloseRequested(ClientOf(w, c).mem)))
    case CleanTemporary(p) => w.(fs := w.fs.(files := w.fs.files - {p}))
    case RepairLock => Repaired(w)
  }

  /** The lock is removed, whoever holds it. */
  function Repaired(w: World): World {
    w.(fs := Fs(w.fs.dirs - {LockDir}, w.fs.files - {LockJson}))
  }

  /** The world after the first events of a run, in order. */
  ghost predicate IsRun(w: World, events: seq<Event>)
    decreases |events|
  {
    events == [] || (Enabled(w, events[0]) && IsRun(Next(w, events[0]), events[1..]))
  }

  ghost function Final(w: World, events: seq<Event>): World
    requires IsRun(w, events)
    decreases |events|
  {
    if events == [] then w else Final(Next(w, events[0]), events[1..])
  }

  ghost predicate Reachable(w: World) {
    exists game, events :: IsRun(Start(game), events) && Final(Start(game), events) == w
  }
}
