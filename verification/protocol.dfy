/** One isle as a step system: any number of callers, cancellers and shutdown callers, a bounded FIFO
    channel, and the SQLite thread.

    Every event is one atomic section of one thread; a run is any sequence of enabled events, so a statement
    about all runs is a statement about all interleavings.  Jobs, fires and shutdown calls are numbered in the
    order in which they appear; none of them is bounded. */
module Protocol {
  import opened Errors
  import opened Sqlite
  import opened Tokens

  type JobId = nat

  // ── what the callers ask for ──────────────────────────────────────────────────────────────────────

  /** How a job was submitted.  Only `TryCall` (also the async `spawn_call`) never waits for capacity. */
  datatype Kind = Call | CallTimeout | SpawnCall | TryCall

  datatype Job = Job(kind: Kind, body: Closure)

  /** `job(k)` is the k-th job ever created: all runs for all choices of jobs are covered. */
  datatype Config = Config(capacity: nat, async: bool, db: Db, job: JobId -> Job)

  ghost predicate ValidConfig(c: Config) {
    && c.capacity >= 1
    && forall k: JobId :: Honest(c.job(k).body)
  }

  datatype Request = Run(job: JobId) | Shutdown

  /** The caller's end of a job. */
  datatype Caller = Sending | Waiting | Rejected(why: IsleError) | Returned(a: Answer) | Abandoned

  /** A call to `fire`: where its job stood at the compare-exchange, and at the locked section once done. */
  datatype Fire = Fire(job: JobId, cas: Stage, locked: Option<Stage>)

  /** How far the wrapper of a job has come. */
  datatype Stage = Queued | Checked | Attached | Detached

  /** A call to `shutdown` or `shutdown_now`. */
  datatype Closer =
    | StoringAbort | Interrupting | SendingShutdown | AwaitingDone | TakingJoin | Joining
    | CloserReturned(joined: bool)

  // ── the SQLite thread ─────────────────────────────────────────────────────────────────────────────

  /** What became of a dequeued job: discarded under abort, stopped by the queued-stage check, run with none
      of its statements interrupted, or run with some statement interrupted. */
  datatype Fate = Discarded | Skipped | Ran | Cut

  /** A settled job, with the answer its caller can observe and the database it left behind. */
  datatype Entry = Entry(job: JobId, fate: Fate, answer: Answer, db: Db)

  /** The thread's next atomic section. */
  datatype Pc =
    | AtNext
    | AtAbortCheck(job: JobId)
    | AtFiredCheck(job: JobId)
    | AtStore(job: JobId)
    | AtLoad(job: JobId)
    | AtAttachInterrupt(job: JobId)
    | InClosure(job: JobId, at: Local, cut: bool, actions: nat)
    | AtDetach(job: JobId, outcome: Outcome, cut: bool)
    | AtFiredLoad(job: JobId, cut: bool)
    | AtAbortLoad(job: JobId, cut: bool)
    | AtRespond(job: JobId, answer: Answer, fate: Fate)
    | AtHealth(begun: bool)
    | AtExit
    | AtDone
    | AtDropReceiver
    | Finished

  datatype Exit = StillLooping | ByShutdown | ByDisconnect | ByHealth

  /** A statement that failed with SQLITE_INTERRUPT: whose it was (None: the health check) and who had raised the
      flag. */
  datatype CutStatement = CutStatement(job: Option<JobId>, blame: set<Source>)

  /** The request channel.  `accepted` is every request it ever took, `taken` how many have left it. */
  datatype Channel = Channel(queue: seq<Request>, rxOpen: bool, txOpen: bool, accepted: seq<Request>, taken: nat)

  /** What the threads share: the abort flag, the connection and one token per job.  `stages` and `cuts` are
      history: how far each wrapper has come, and the statements that failed with SQLITE_INTERRUPT. */
  datatype Memory = Memory(abort: bool, conn: Conn, tokens: seq<Token>, stages: seq<Stage>, cuts: seq<CutStatement>)

  /** Everybody but the SQLite thread.  `joinHeld`: nobody has taken the join handle yet. */
  datatype People = People(callers: seq<Caller>, fires: seq<Fire>, closers: seq<Closer>, joinHeld: bool)

  /** The thread's own record: settled jobs in order, health checks passed, why the loop ended, and whether
      the done signal was sent. */
  datatype Log = Log(ledger: seq<Entry>, healthy: nat, exit: Exit, doneSent: bool)

  datatype State = State(pc: Pc, chan: Channel, mem: Memory, who: People, log: Log)

  function Init(c: Config): State {
    State(AtNext,
          Channel([], true, true, [], 0),
          Memory(false, Conn(true, c.db, 0, {}), [], [], []),
          People([], [], [], true),
          Log([], 0, StillLooping, false))
  }

  predicate WellPlaced(s: State) {
    && |s.mem.tokens| == |s.mem.stages| == |s.who.callers|
    && (CurrentJob(s.pc).Some? ==> CurrentJob(s.pc).value < |s.mem.tokens|)
    && (forall i :: 0 <= i < |s.who.fires| ==> s.who.fires[i].job < |s.mem.tokens|)
  }

  function CurrentJob(pc: Pc): Option<JobId> {
    match pc
    case AtAbortCheck(j) => Some(j)
    case AtFiredCheck(j) => Some(j)
    case AtStore(j) => Some(j)
    case AtLoad(j) => Some(j)
    case AtAttachInterrupt(j) => Some(j)
    case InClosure(j, _, _, _) => Some(j)
    case AtDetach(j, _, _) => Some(j)
    case AtFiredLoad(j, _) => Some(j)
    case AtAbortLoad(j, _) => Some(j)
    case AtRespond(j, _, _) => Some(j)
    case _ => None
  }

  // ── the thread's sections ─────────────────────────────────────────────────────────────────────────

  function Settle(log: Log, e: Entry): Log {
    log.(ledger := log.ledger + [e])
  }

  function Disconnect(s: State): State {
    s.(pc := AtExit, log := s.log.(exit := ByDisconnect))
  }

  function Take(s: State): State
    requires s.chan.queue != []
  {
    var chan := s.chan.(queue := s.chan.queue[1..], taken := s.chan.taken + 1);
    match s.chan.queue[0]
    case Run(j) => s.(pc := AtAbortCheck(j), chan := chan)
    case Shutdown => s.(pc := AtExit, chan := chan, log := s.log.(exit := ByShutdown))
  }

  function CheckAbort(s: State, j: JobId): State {
    if s.mem.abort then
      s.(pc := AtNext, log := Settle(s.log, Entry(j, Discarded, Err(Closed), s.mem.conn.db)))
    else s.(pc := AtFiredCheck(j))
  }

  function CheckFired(s: State, j: JobId): State
    requires j < |s.mem.tokens| == |s.mem.stages|
  {
    match s.mem.tokens[j].Fired()
    case Some(e) => s.(pc := AtRespond(j, Err(e), Skipped))
    case None => s.(pc := AtStore(j), mem := s.mem.(stages := s.mem.stages[j := Checked]))
  }

  function StoreHandle(s: State, j: JobId): State
    requires j < |s.mem.tokens| == |s.mem.stages|
  {
    s.(pc := AtLoad(j),
       mem := s.mem.(tokens := s.mem.tokens[j := s.mem.tokens[j].Store()], stages := s.mem.stages[j := Attached]))
  }

  function ClosureStart(c: Config, j: JobId): Pc {
    InClosure(j, c.job(j).body.start, false, 0)
  }

  function LoadState(c: Config, s: State, j: JobId): State
    requires j < |s.mem.tokens|
  {
    s.(pc := if s.mem.tokens[j].state.Unfired? then ClosureStart(c, j) else AtAttachInterrupt(j))
  }

  /** A locked read of the handle, and an interrupt through it if there is one. */
  function InterruptThrough(m: Memory, j: JobId): Memory
    requires j < |m.tokens|
  {
    m.(tokens := m.tokens[j := m.tokens[j].Interrupt()],
       conn := if m.tokens[j].attached then m.conn.Interrupt(ByToken(j)) else m.conn)
  }

  function AttachInterrupt(c: Config, s: State, j: JobId): State
    requires j < |s.mem.tokens|
  {
    s.(pc := ClosureStart(c, j), mem := InterruptThrough(s.mem, j))
  }

  function ClosureSection(c: Config, s: State): State
    requires s.pc.InClosure?
  {
    var InClosure(j, l, cut, n) := s.pc;
    var conn := s.mem.conn;
    match c.job(j).body.act(l)
    case Finish(o) => s.(pc := AtDetach(j, o, cut))
    case Begin(m) => s.(pc := InClosure(j, m, cut, n + 1), mem := s.mem.(conn := conn.Begin()))
    case End(m) => s.(pc := InClosure(j, m, cut, n + 1), mem := s.mem.(conn := conn.End()))
    case Step(run, m) =>
      if conn.pending != {} then
        s.(pc := InClosure(j, m, true, n + 1),
           mem := s.mem.(conn := conn.End(), cuts := s.mem.cuts + [CutStatement(Some(j), conn.pending)]))
      else
        s.(pc := InClosure(j, run(conn.db).1, cut, n + 1), mem := s.mem.(conn := conn.(db := run(conn.db).0)))
  }

  function RanFate(cut: bool): Fate { if cut then Cut else Ran }

  /** What the wrapper does with the closure's result. */
  function AfterClosure(j: JobId, o: Outcome, cut: bool): Pc {
    match o
    case Fine(v) => AtRespond(j, Ok(v), RanFate(cut))
    case Error(e) => if e.Interrupted? then AtFiredLoad(j, cut) else AtRespond(j, Err(Sqlite(e)), RanFate(cut))
    case Panic => AtRespond(j, Err(Panicked), RanFate(cut))
  }

  function DetachHandle(s: State): State
    requires s.pc.AtDetach? && s.pc.job < |s.mem.tokens| == |s.mem.stages|
  {
    var AtDetach(j, o, cut) := s.pc;
    s.(pc := AfterClosure(j, o, cut),
       mem := s.mem.(tokens := s.mem.tokens[j := s.mem.tokens[j].Clear()], stages := s.mem.stages[j := Detached]))
  }

  /** First half of `normalize_error` for an INTERRUPT: the token's reason comes first. */
  function FoldToken(s: State, j: JobId, cut: bool): State
    requires j < |s.mem.tokens|
  {
    match s.mem.tokens[j].Fired()
    case Some(e) => s.(pc := AtRespond(j, Err(e), RanFate(cut)))
    case None => s.(pc := AtAbortLoad(j, cut))
  }

  /** Second half: an aborting isle answers `Closed`; otherwise the raw error goes through. */
  function FoldAbort(s: State, j: JobId, cut: bool): State {
    s.(pc := AtRespond(j, Err(if s.mem.abort then Closed else Sqlite(Interrupted)), RanFate(cut)))
  }

  function Respond(s: State): State
    requires s.pc.AtRespond?
  {
    var AtRespond(j, a, fate) := s.pc;
    s.(pc := if IsPanic(a) then AtHealth(false) else AtNext, log := Settle(s.log, Entry(j, fate, a, s.mem.conn.db)))
  }

  function BeginHealth(s: State): State {
    s.(pc := AtHealth(true), mem := s.mem.(conn := s.mem.conn.Begin()))
  }

  /** `SELECT 1`, which fails when it is interrupted or when the connection is broken. */
  function HealthCheck(s: State, usable: bool): State {
    var conn := s.mem.conn;
    if conn.pending != {} then
      s.(pc := AtExit, log := s.log.(exit := ByHealth),
         mem := s.mem.(conn := conn.End(), cuts := s.mem.cuts + [CutStatement(None, conn.pending)]))
    else if !usable then s.(pc := AtExit, log := s.log.(exit := ByHealth), mem := s.mem.(conn := conn.End()))
    else s.(pc := AtNext, log := s.log.(healthy := s.log.healthy + 1), mem := s.mem.(conn := conn.End()))
  }

  /** `run_loop` returns and drops the connection. */
  function DropConnection(s: State): State {
    s.(pc := AtDone, mem := s.mem.(conn := s.mem.conn.(open := false)))
  }

  function SignalDone(c: Config, s: State): State {
    s.(pc := AtDropReceiver, log := s.log.(doneSent := c.async))
  }

  function DropReceiver(s: State): State {
    s.(pc := Finished, chan := s.chan.(rxOpen := false, queue := []))
  }

  predicate ThreadCanStep(s: State) {
    if s.pc.AtNext? then s.chan.queue != [] || !s.chan.txOpen else !s.pc.Finished?
  }

  function ThreadStep(c: Config, s: State, usable: bool): State
    requires WellPlaced(s) && ThreadCanStep(s)
  {
    match s.pc
    case AtNext => if s.chan.queue != [] then Take(s) else Disconnect(s)
    case AtAbortCheck(j) => CheckAbort(s, j)
    case AtFiredCheck(j) => CheckFired(s, j)
    case AtStore(j) => StoreHandle(s, j)
    case AtLoad(j) => LoadState(c, s, j)
    case AtAttachInterrupt(j) => AttachInterrupt(c, s, j)
    case InClosure(_, _, _, _) => ClosureSection(c, s)
    case AtDetach(_, _, _) => DetachHandle(s)
    case AtFiredLoad(j, cut) => FoldToken(s, j, cut)
    case AtAbortLoad(j, cut) => FoldAbort(s, j, cut)
    case AtRespond(_, _, _) => Respond(s)
    case AtHealth(begun) => if begun then HealthCheck(s, usable) else BeginHealth(s)
    case AtExit => DropConnection(s)
    case AtDone => SignalDone(c, s)
    case AtDropReceiver => DropReceiver(s)
  }

  // ── everybody else's sections ─────────────────────────────────────────────────────────────────────

  /** What `wait` and `poll` see in the ledger: the one response, or a dropped sender. */
  function Settled(ledger: seq<Entry>, j: JobId): Option<Answer> {
    if ledger == [] then None
    else if ledger[|ledger| - 1].job == j then Some(ledger[|ledger| - 1].answer)
    else Settled(ledger[..|ledger| - 1], j)
  }

  /** What waiting for job `j` yields now: None means the caller is still blocked. */
  function WaitResult(s: State, j: JobId): Option<Answer> {
    if Settled(s.log.ledger, j).Some? then Settled(s.log.ledger, j)
    else if s.pc.Finished? && Run(j) in s.chan.accepted then Some(Err(Closed))
    else None
  }

  /** Who can reach a token: a spawned job hands it out; `call` keeps it to itself until its handle is
      dropped; `call_timeout` expires it while waiting. */
  predicate MayFire(c: Config, s: State, j: JobId, r: Reason)
    requires j < |s.who.callers|
  {
    var caller := s.who.callers[j];
    var quiet := caller.Sending? || caller.Waiting?;
    match c.job(j).kind
    case Call => r.Cancel? && !quiet
    case CallTimeout => if r.Expire? then caller.Waiting? else !quiet
    case SpawnCall => r.Cancel?
    case TryCall => r.Cancel?
  }

  datatype Event =
    | Thread(usable: bool)
    | Create
    | CallerStep(job: JobId, next: Caller)
    | FireCas(job: JobId, r: Reason)
    | FireLock(fire: nat)
    | OpenCloser(now: bool)
    | CloserStep(closer: nat)
    | HintShutdown
    | DropSenders

  /** The sections of a job's caller, by what they do to its entry in `callers`. */
  predicate CallerMay(c: Config, s: State, j: JobId, next: Caller) {
    && j < |s.who.callers|
    && var caller := s.who.callers[j];
       match next
       case Sending => false
       case Waiting => caller.Sending? && s.chan.txOpen && s.chan.rxOpen && |s.chan.queue| < c.capacity
       case Rejected(why) =>
         && caller.Sending?
         && if why.QueueFull? then c.job(j).kind.TryCall? && s.chan.rxOpen && |s.chan.queue| >= c.capacity
            else why.Closed? && !s.chan.rxOpen
       case Returned(a) => caller.Waiting? && WaitResult(s, j) == Some(a)
       case Abandoned =>
         && (caller.Sending? || caller.Waiting?)
         && (c.async || c.job(j).kind.SpawnCall? || c.job(j).kind.TryCall?)
  }

  predicate CloserMay(c: Config, s: State, k: nat) {
    && k < |s.who.closers|
    && match s.who.closers[k]
       case SendingShutdown => !s.chan.rxOpen || |s.chan.queue| < c.capacity
       case AwaitingDone => s.log.doneSent
       case Joining => s.pc.Finished?
       case CloserReturned(_) => false
       case _ => true
  }

  predicate MayDropSenders(s: State) {
    && s.chan.txOpen
    && (forall k :: 0 <= k < |s.who.callers| ==> !s.who.callers[k].Sending?)
    && (forall k :: 0 <= k < |s.who.closers| ==> s.who.closers[k].CloserReturned?)
  }

  predicate Enabled(c: Config, s: State, e: Event) {
    && WellPlaced(s)
    && match e
       case Thread(_) => ThreadCanStep(s)
       case Create => s.chan.txOpen
       case CallerStep(j, next) => CallerMay(c, s, j, next)
       case FireCas(j, r) => j < |s.who.callers| && MayFire(c, s, j, r)
       case FireLock(f) => f < |s.who.fires| && s.who.fires[f].locked.None?
       case OpenCloser(now) => s.chan.txOpen && (c.async ==> s.who.closers == []) && (now ==> c.async)
       case CloserStep(k) => CloserMay(c, s, k)
       case HintShutdown => !c.async && s.chan.txOpen && s.chan.rxOpen && |s.chan.queue| < c.capacity
       case DropSenders => MayDropSenders(s)
  }

  function Enqueue(chan: Channel, r: Request): Channel {
    chan.(queue := chan.queue + [r], accepted := chan.accepted + [r])
  }

  /** A new job: a fresh token, and a caller about to submit it. */
  function CreateJob(s: State): State {
    s.(mem := s.mem.(tokens := s.mem.tokens + [FRESH], stages := s.mem.stages + [Queued]),
       who := s.who.(callers := s.who.callers + [Sending]))
  }

  function MoveCaller(s: State, j: JobId, next: Caller): State
    requires j < |s.who.callers|
  {
    s.(chan := if next.Waiting? then Enqueue(s.chan, Run(j)) else s.chan,
       who := s.who.(callers := s.who.callers[j := next]))
  }

  function CasOn(s: State, j: JobId, r: Reason): State
    requires j < |s.mem.tokens| == |s.mem.stages|
  {
    s.(mem := s.mem.(tokens := s.mem.tokens[j := s.mem.tokens[j].Cas(r)]),
       who := s.who.(fires := s.who.fires + [Fire(j, s.mem.stages[j], None)]))
  }

  function LockFor(s: State, f: nat): State
    requires f < |s.who.fires| && s.who.fires[f].job < |s.mem.tokens| == |s.mem.stages|
  {
    var fire := s.who.fires[f];
    s.(mem := InterruptThrough(s.mem, fire.job),
       who := s.who.(fires := s.who.fires[f := fire.(locked := Some(s.mem.stages[fire.job]))]))
  }

  function AddCloser(s: State, now: bool): State {
    s.(who := s.who.(closers := s.who.closers + [if now then StoringAbort else SendingShutdown]))
  }

  function MoveCloser(s: State, k: nat, next: Closer): State
    requires k < |s.who.closers|
  {
    s.(who := s.who.(closers := s.who.closers[k := next]))
  }

  function SendShutdown(s: State): State {
    if s.chan.rxOpen then s.(chan := Enqueue(s.chan, Shutdown)) else s
  }

  function TakeJoin(s: State, k: nat): State
    requires k < |s.who.closers|
  {
    var next := if s.who.joinHeld then Joining else CloserReturned(false);
    s.(who := s.who.(closers := s.who.closers[k := next], joinHeld := false))
  }

  function AdvanceCloser(c: Config, s: State, k: nat): State
    requires k < |s.who.closers|
  {
    match s.who.closers[k]
    case StoringAbort => MoveCloser(s, k, Interrupting).(mem := s.mem.(abort := true))
    case Interrupting => MoveCloser(s, k, SendingShutdown).(mem := s.mem.(conn := s.mem.conn.Interrupt(ByDriver)))
    case SendingShutdown => MoveCloser(SendShutdown(s), k, if c.async then AwaitingDone else TakingJoin)
    case AwaitingDone => MoveCloser(s, k, TakingJoin)
    case TakingJoin => TakeJoin(s, k)
    case Joining => MoveCloser(s, k, CloserReturned(true))
    case CloserReturned(_) => s
  }

  function Apply(c: Config, s: State, e: Event): State
    requires Enabled(c, s, e)
  {
    match e
    case Thread(usable) => ThreadStep(c, s, usable)
    case Create => CreateJob(s)
    case CallerStep(j, next) => MoveCaller(s, j, next)
    case FireCas(j, r) => CasOn(s, j, r)
    case FireLock(f) => LockFor(s, f)
    case OpenCloser(now) => AddCloser(s, now)
    case CloserStep(k) => AdvanceCloser(c, s, k)
    case HintShutdown => s.(chan := Enqueue(s.chan, Shutdown))
    case DropSenders => s.(chan := s.chan.(txOpen := false))
  }

  // ── runs ──────────────────────────────────────────────────────────────────────────────────────────

  /** The state after the events, if each is enabled when its turn comes. */
  function RunFrom(c: Config, s: State, events: seq<Event>): Option<State> {
    if events == [] then Some(s)
    else
      match RunFrom(c, s, events[..|events| - 1])
      case None => None
      case Some(t) =>
        var e := events[|events| - 1];
        if Enabled(c, t, e) then Some(Apply(c, t, e)) else None
  }

  ghost predicate Leads(c: Config, s: State, events: seq<Event>, t: State) {
    RunFrom(c, s, events) == Some(t)
  }

  /** `t` comes after `s` in some run of the isle. */
  ghost predicate Later(c: Config, s: State, t: State) {
    exists events :: Leads(c, s, events, t)
  }

  ghost predicate Reachable(c: Config, s: State) {
    Later(c, Init(c), s)
  }
}
