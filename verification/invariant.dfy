/** What every reachable state of an isle satisfies.  Each predicate is about the parts of the state it names. */
module Invariant {
  import opened Errors
  import opened Sqlite
  import opened Tokens
  import opened Protocol

  // ── the channel and the ledger ────────────────────────────────────────────────────────────────────

  predicate Looping(pc: Pc) {
    !pc.AtExit? && !pc.AtDone? && !pc.AtDropReceiver? && !pc.Finished?
  }

  /** The channel is bounded, and open as long as the thread has not dropped its end. */
  predicate Bounded(c: Config, pc: Pc, chan: Channel, exit: Exit) {
    && |chan.queue| <= c.capacity
    && (chan.rxOpen <==> !pc.Finished?)
    && (!chan.rxOpen ==> chan.queue == [])
    && (Looping(pc) <==> exit.StillLooping?)
  }

  /** The ledger settles the accepted requests in the order in which they were accepted. */
  predicate SettledInOrder(accepted: seq<Request>, ledger: seq<Entry>) {
    && |ledger| <= |accepted|
    && forall i :: 0 <= i < |ledger| ==> accepted[i] == Run(ledger[i].job)
  }

  /** Requests leave the channel in the order in which they were accepted; one of them may be in hand. */
  predicate InOrder(pc: Pc, chan: Channel, settled: nat, exit: Exit) {
    && settled <= chan.taken <= |chan.accepted|
    && (chan.rxOpen ==> chan.queue == chan.accepted[chan.taken..])
    && (chan.taken == settled + if CurrentJob(pc).Some? || exit.ByShutdown? then 1 else 0)
    && (CurrentJob(pc).Some? ==> chan.accepted[settled] == Run(CurrentJob(pc).value))
    && (exit.ByShutdown? ==> chan.accepted[settled] == Shutdown)
    && (exit.ByDisconnect? ==> !chan.txOpen && chan.taken == |chan.accepted|)
  }

  /** A job is accepted at most once, and never before it was sent or after its caller was turned away. */
  predicate AcceptedOnce(accepted: seq<Request>, callers: seq<Caller>) {
    && (forall i :: 0 <= i < |accepted| && accepted[i].Run? ==>
          && accepted[i].job < |callers|
          && !callers[accepted[i].job].Sending? && !callers[accepted[i].job].Rejected?)
    && (forall i, k :: 0 <= i < k < |accepted| && accepted[i].Run? && accepted[k].Run? ==>
          accepted[i].job != accepted[k].job)
    && (forall j :: 0 <= j < |callers| && (callers[j].Waiting? || callers[j].Returned?) ==> Run(j) in accepted)
  }

  // ── handles, stages and fires ─────────────────────────────────────────────────────────────────────

  /** From the store of the handle up to `detach`. */
  predicate InWindow(pc: Pc, k: JobId) {
    (pc.AtLoad? || pc.AtAttachInterrupt? || pc.InClosure? || pc.AtDetach?) && pc.job == k
  }

  predicate PastDetach(pc: Pc, k: JobId) {
    (pc.AtFiredLoad? || pc.AtAbortLoad? || (pc.AtRespond? && (pc.fate.Ran? || pc.fate.Cut?))) && pc.job == k
  }

  /** The stage of job `k` while it is the current one. */
  function StageAt(pc: Pc, k: JobId): Stage {
    if InWindow(pc, k) then Attached
    else if PastDetach(pc, k) then Detached
    else if pc == AtStore(k) then Checked
    else Queued
  }

  predicate Started(e: Entry) {
    e.fate.Ran? || e.fate.Cut?
  }

  ghost predicate InLedger(ledger: seq<Entry>, k: JobId) {
    exists i :: 0 <= i < |ledger| && ledger[i].job == k
  }

  /** A token holds the handle exactly while its own job is between store and detach. */
  ghost predicate HandlesAgree(pc: Pc, m: Memory, ledger: seq<Entry>) {
    && |m.tokens| == |m.stages|
    && (forall k {:trigger m.tokens[k]} {:trigger m.stages[k]} :: 0 <= k < |m.tokens| ==>
          && (m.tokens[k].attached <==> m.stages[k].Attached?)
          && (!InLedger(ledger, k) ==> m.stages[k] == StageAt(pc, k)))
    && (forall i :: 0 <= i < |ledger| ==>
          && ledger[i].job < |m.tokens|
          && CurrentJob(pc) != Some(ledger[i].job)
          && m.stages[ledger[i].job] == if Started(ledger[i]) then Detached else Queued)
  }

  predicate HasFired(tokens: seq<Token>, k: JobId) {
    k < |tokens| && !tokens[k].state.Unfired?
  }

  /** Why a statement of job `k` may be interrupted. */
  predicate HasReason(m: Memory, k: JobId) {
    HasFired(m.tokens, k) || m.abort
  }

  /** A statement has been interrupted, and there is a reason. */
  predicate Cause(m: Memory, k: JobId) {
    HasReason(m, k) && m.cuts != []
  }

  /** Reasons and interrupts are only added. */
  predicate Grew(m: Memory, n: Memory) {
    && (m.abort ==> n.abort)
    && m.cuts <= n.cuts
    && |m.tokens| <= |n.tokens|
    && forall k :: 0 <= k < |m.tokens| ==>
         && (!m.tokens[k].state.Unfired? ==> n.tokens[k].state == m.tokens[k].state)
         && m.tokens[k].calls <= n.tokens[k].calls
  }

  /** State before handle, abort before interrupt: whoever interrupts has first said why. */
  ghost predicate ReasonFirst(m: Memory, fires: seq<Fire>, closers: seq<Closer>) {
    && (forall f :: 0 <= f < |fires| ==> HasFired(m.tokens, fires[f].job))
    && (forall k :: 0 <= k < |closers| && closers[k].Interrupting? ==> m.abort)
    && (forall k :: ByToken(k) in m.conn.pending ==> HasFired(m.tokens, k))
    && (ByDriver in m.conn.pending ==> m.abort)
  }

  /** How the wrapper's progress answers a fire: one that came before the check stops the job; one that found
      no handle after the check is made good by `attach`; one that found the handle interrupted. */
  predicate Answered(pc: Pc, m: Memory, f: Fire) {
    && f.job < |m.tokens| == |m.stages|
    && (f.cas.Queued? ==> m.stages[f.job].Queued?)
    && match f.locked
       case None => true
       case Some(Attached) => m.tokens[f.job].calls > 0
       case Some(Detached) => m.stages[f.job].Detached?
       case Some(_) =>
         || m.stages[f.job].Queued? || m.stages[f.job].Checked? || m.tokens[f.job].calls > 0
         || pc == AtLoad(f.job) || pc == AtAttachInterrupt(f.job)
  }

  predicate FiresAnswered(pc: Pc, m: Memory, fires: seq<Fire>) {
    forall i :: 0 <= i < |fires| ==> Answered(pc, m, fires[i])
  }

  // ── the connection ────────────────────────────────────────────────────────────────────────────────

  /** The statements running on the connection belong to the current job, and only that job's token or the
      driver can have raised the flag they would see. */
  predicate ConnAgrees(c: Config, pc: Pc, m: Memory) {
    && (m.conn.open <==> Looping(pc) || pc.AtExit?)
    && match pc
       case InClosure(j, l, cut, _) =>
         && m.conn.active == c.job(j).body.open(l)
         && (c.job(j).body.seen(l) ==> cut)
         && (cut ==> Cause(m, j))
         && (m.conn.active > 0 ==> m.conn.pending <= {ByToken(j), ByDriver})
       case AtDetach(j, o, cut) => m.conn.active == 0 && (o == Error(Interrupted) ==> cut) && (cut ==> Cause(m, j))
       case AtFiredLoad(j, cut) => m.conn.active == 0 && cut && Cause(m, j)
       case AtAbortLoad(j, cut) => m.conn.active == 0 && cut && m.abort && m.cuts != []
       case AtRespond(j, a, fate) =>
         m.conn.active == 0 && !RawInterrupt(a) && !fate.Discarded? && (fate.Cut? ==> Cause(m, j))
       case AtHealth(begun) =>
         if begun then m.conn.active == 1 && m.conn.pending <= {ByDriver} else m.conn.active == 0
       case _ => m.conn.active == 0
  }

  /** A statement that failed with SQLITE_INTERRUPT was cut by its own job's token, already fired, or by an
      aborting driver; the health check only by the driver. */
  predicate Blamed(m: Memory, x: CutStatement) {
    && x.blame != {}
    && (ByDriver in x.blame ==> m.abort)
    && match x.job
       case Some(j) => x.blame <= {ByToken(j), ByDriver} && (ByToken(j) in x.blame ==> HasFired(m.tokens, j))
       case None => x.blame == {ByDriver}
  }

  predicate CutsBlamed(m: Memory) {
    forall i :: 0 <= i < |m.cuts| ==> Blamed(m, m.cuts[i])
  }

  /** Nothing raw in the ledger; every interrupted job has its cause, every discarded one its abort. */
  predicate NothingRaw(m: Memory, ledger: seq<Entry>) {
    forall i :: 0 <= i < |ledger| ==>
      && !RawInterrupt(ledger[i].answer)
      && (ledger[i].fate.Cut? ==> Cause(m, ledger[i].job))
      && (ledger[i].fate.Discarded? ==> m.abort)
  }

  // ── the sequential meaning ────────────────────────────────────────────────────────────────────────

  function Direct(o: Outcome): Answer {
    match o
    case Fine(v) => Ok(v)
    case Error(e) => Err(Sqlite(e))
    case Panic => Err(Panicked)
  }

  /** The database before the i-th entry of the ledger. */
  function Before(c: Config, ledger: seq<Entry>, i: nat): Db
    requires i <= |ledger|
  {
    if i == 0 then c.db else ledger[i - 1].db
  }

  ghost predicate RanAlone(c: Config, before: Db, e: Entry) {
    exists o :: Alone(c.job(e.job).body, before, e.db, o) && e.answer == Direct(o)
  }

  /** What an entry may be, given the database it started from. */
  ghost predicate Explained(c: Config, before: Db, e: Entry) {
    match e.fate
    case Discarded => e.db == before && e.answer == Err(Closed)
    case Skipped => e.db == before && (e.answer == Err(Cancelled) || e.answer == Err(Timeout))
    case Ran => RanAlone(c, before, e)
    case Cut => true
  }

  ghost predicate Serial(c: Config, ledger: seq<Entry>) {
    forall i :: 0 <= i < |ledger| ==> Explained(c, Before(c, ledger, i), ledger[i])
  }

  /** How the database stands, relative to the one the last settled job left behind. */
  ghost predicate InProgress(c: Config, pc: Pc, db: Db, settled: Db) {
    match pc
    case InClosure(j, l, cut, n) => !cut ==> Solo(c.job(j).body, settled, n) == (l, db)
    case AtDetach(j, o, cut) => !cut ==> Alone(c.job(j).body, settled, db, o)
    case AtFiredLoad(j, cut) => cut
    case AtAbortLoad(j, cut) => cut
    case AtRespond(j, a, fate) => Explained(c, settled, Entry(j, fate, a, db))
    case _ => db == settled
  }

  // ── reasons, panics and shutdown ──────────────────────────────────────────────────────────────────

  /** An answer that names a reason names the token's reason. */
  predicate Agrees(tokens: seq<Token>, j: JobId, a: Answer) {
    && (a == Err(Cancelled) ==> j < |tokens| && tokens[j].state.CancelFired?)
    && (a == Err(Timeout) ==> j < |tokens| && tokens[j].state.ExpireFired?)
  }

  /** What the reason on the token, and the answer of a returned caller, can be for each kind of job. */
  predicate Promised(k: Kind, caller: Caller, t: TokenState) {
    && (!k.CallTimeout? ==> !t.ExpireFired?)
    && (caller.Sending? || caller.Waiting? ==> (k.Call? ==> t.Unfired?) && (k.CallTimeout? ==> !t.CancelFired?))
    && (caller.Returned? ==>
          && !RawInterrupt(caller.a)
          && (k.Call? || k.CallTimeout? ==> caller.a != Err(Cancelled))
          && (!k.CallTimeout? ==> caller.a != Err(Timeout)))
  }

  /** The answer in hand agrees with the token; a late interrupt of `attach` has its reason. */
  predicate ReasonInHand(pc: Pc, tokens: seq<Token>) {
    && (pc.AtRespond? ==> Agrees(tokens, pc.job, pc.answer))
    && (pc.AtAttachInterrupt? ==> HasFired(tokens, pc.job))
  }

  predicate AnswersAgree(tokens: seq<Token>, ledger: seq<Entry>) {
    forall i :: 0 <= i < |ledger| ==> Agrees(tokens, ledger[i].job, ledger[i].answer)
  }

  predicate CallersAgree(c: Config, tokens: seq<Token>, callers: seq<Caller>) {
    && |tokens| == |callers|
    && (forall j {:trigger tokens[j]} {:trigger callers[j]} :: 0 <= j < |tokens| ==>
          Promised(c.job(j).kind, callers[j], tokens[j].state))
  }

  function Panics(ledger: seq<Entry>): nat {
    if ledger == [] then 0
    else Panics(ledger[..|ledger| - 1]) + if IsPanic(ledger[|ledger| - 1].answer) then 1 else 0
  }

  /** Every panic has been followed by a health check that passed, is being made, or ended the loop. */
  predicate PanicsChecked(pc: Pc, log: Log) {
    Panics(log.ledger) == log.healthy + if pc.AtHealth? || log.exit.ByHealth? then 1 else 0
  }

  predicate ClosersAgree(c: Config, pc: Pc, txOpen: bool, abort: bool, closers: seq<Closer>, joinHeld: bool,
      doneSent: bool)
  {
    && (doneSent ==> c.async && (pc.AtDropReceiver? || pc.Finished?))
    && (forall k :: 0 <= k < |closers| ==>
          && (closers[k] == CloserReturned(true) ==> pc.Finished?)
          && (closers[k].StoringAbort? || closers[k].Interrupting? ==> c.async)
          && (!txOpen ==> closers[k].CloserReturned?))
    && (c.async ==>
          && |closers| <= 1
          && (closers == [] ==> joinHeld)
          && (closers != [] ==>
                && closers[0] != CloserReturned(false)
                && (joinHeld <==> !closers[0].Joining? && !closers[0].CloserReturned?)))
    && (abort ==> c.async && closers != [] && !closers[0].StoringAbort?)
  }

  ghost predicate Inv(c: Config, s: State) {
    && WellPlaced(s)
    && Bounded(c, s.pc, s.chan, s.log.exit)
    && SettledInOrder(s.chan.accepted, s.log.ledger)
    && InOrder(s.pc, s.chan, |s.log.ledger|, s.log.exit)
    && AcceptedOnce(s.chan.accepted, s.who.callers)
    && HandlesAgree(s.pc, s.mem, s.log.ledger)
    && ReasonFirst(s.mem, s.who.fires, s.who.closers)
    && FiresAnswered(s.pc, s.mem, s.who.fires)
    && ConnAgrees(c, s.pc, s.mem)
    && CutsBlamed(s.mem)
    && NothingRaw(s.mem, s.log.ledger)
    && Serial(c, s.log.ledger)
    && InProgress(c, s.pc, s.mem.conn.db, Before(c, s.log.ledger, |s.log.ledger|))
    && ReasonInHand(s.pc, s.mem.tokens)
    && AnswersAgree(s.mem.tokens, s.log.ledger)
    && CallersAgree(c, s.mem.tokens, s.who.callers)
    && PanicsChecked(s.pc, s.log)
    && ClosersAgree(c, s.pc, s.chan.txOpen, s.mem.abort, s.who.closers, s.who.joinHeld, s.log.doneSent)
  }
}
