/** Where the code gives less than its documentation says, and exactly when it gives what it says.

    The documentation of `cancel` says that the job then resolves to `Cancelled`, and that of the sync `shutdown` that
    afterwards every submission returns `Closed`.  Both hold under a condition; short runs show that they fail without
    it.  What holds of every returned shutdown call is in module Closing.  One more run shows a cancel that does stop a
    statement. */
module Limits {
  import opened Errors
  import opened Sqlite
  import opened Tokens
  import opened Protocol
  import opened Invariant
  import opened Preservation
  import opened Runs
  import opened Guarantees
  import opened Lifecycle
  import opened Closing

  // ── what a fire decides ───────────────────────────────────────────────────────────────────────────

  /** A job fired at this stage of its wrapper never answers with a value. */
  ghost predicate NeverAnswersWithValue(stage: Stage) {
    forall c, s, f: nat :: FiredAt(c, s, f, stage) ==> !AnswersWithValue(s, s.who.fires[f].job)
  }

  ghost predicate FiredAt(c: Config, s: State, f: nat, stage: Stage) {
    ValidConfig(c) && Reachable(c, s) && f < |s.who.fires| && s.who.fires[f].cas == stage
  }

  predicate AnswersWithValue(s: State, j: JobId) {
    WaitResult(s, j).Some? && WaitResult(s, j).value.Ok?
  }

  /** A job fired before its check has the token's reason as its answer, or `Closed` if it was discarded under abort
      or never read. */
  lemma QueuedFireStopsJob(c: Config, s: State, f: nat)
    requires FiredAt(c, s, f, Queued)
    ensures var j := s.who.fires[f].job;
      WaitResult(s, j).Some? ==>
        || (HasFired(s.mem.tokens, j) && WaitResult(s, j) == Some(Err(s.mem.tokens[j].Fired().value)))
        || (WaitResult(s, j) == Some(Err(Closed)) && (s.mem.abort || DroppedUnread(s, j)))
  {
    hide CutsBlamed, ConnAgrees, PanicsChecked, InProgress, Reachable, RanAlone;
    var j, ledger := s.who.fires[f].job, s.log.ledger;
    NoLostInterrupt(c, s, f);
    LedgerHolds(c, s);
    if Settled(ledger, j).Some? {
      SettledIsEntry(ledger, j);
      var i :| 0 <= i < |ledger| && ledger[i].job == j && Settled(ledger, j) == Some(ledger[i].answer);
      assert Explained(c, Before(c, ledger, i), ledger[i]) && Agrees(s.mem.tokens, j, ledger[i].answer);
      assert !Started(ledger[i]);
    } else if WaitResult(s, j).Some? {
      UnsettledWasDropped(c, s, j);
    }
  }

  lemma UnsettledWasDropped(c: Config, s: State, j: JobId)
    requires ValidConfig(c) && Reachable(c, s) && s.pc.Finished? && Run(j) in s.chan.accepted
    requires Settled(s.log.ledger, j).None?
    ensures DroppedUnread(s, j)
  {
    hide DroppedUnread, Reachable;
    AllResolvedAtEnd(c, s, j);
    if !DroppedUnread(s, j) {
      var i :| 0 <= i < |s.log.ledger| && s.log.ledger[i].job == j && WaitResult(s, j) == Some(s.log.ledger[i].answer);
      LedgerIsSettled(c, s, i);
    }
  }

  // A job whose closure returns at once, and the states of its run.

  function Instant(kind: Kind, l: Local, v: Value): Job {
    Job(kind, Closure(l, _ => Finish(Fine(v)), _ => 0, _ => false))
  }

  function Sample(l: Local, v: Value, db: Db): Config {
    Config(2, false, db, _ => Instant(SpawnCall, l, v))
  }

  /** Job 0 is in hand; `t` is its token. */
  function InHand(c: Config, pc: Pc, t: Token, stage: Stage, pending: set<Source>, fires: seq<Fire>): State {
    State(pc, Channel([], true, true, [Run(0)], 1), Memory(false, Conn(true, c.db, 0, pending), [t], [stage], []),
          People([Waiting], fires, [], true), Log([], 0, StillLooping, false))
  }

  lemma Go(c: Config, s: State, e: Event, t: State)
    requires Reachable(c, s) && Enabled(c, s, e) && Apply(c, s, e) == t
    ensures Reachable(c, t)
  {
    hide Apply, Enabled;
    StepIsReachable(c, s, e);
  }

  lemma Accepted(c: Config)
    requires c.capacity >= 1
    ensures Reachable(c, InHand(c, AtAbortCheck(0), FRESH, Queued, {}, []))
  {
    hide Reachable, ThreadStep;
    var s0 := Init(c);
    assert Leads(c, s0, [], s0);
    assert Reachable(c, s0) by { InitReachable(c); }
    var s1 := s0.(mem := s0.mem.(tokens := [FRESH], stages := [Queued]), who := s0.who.(callers := [Sending]));
    Go(c, s0, Create, s1);
    var s2 := s1.(chan := Channel([Run(0)], true, true, [Run(0)], 0), who := s0.who.(callers := [Waiting]));
    Go(c, s1, CallerStep(0, Waiting), s2);
    TakeFirst(c, s2);
  }

  lemma InitReachable(c: Config)
    ensures Reachable(c, Init(c))
  {
    assert Leads(c, Init(c), [], Init(c));
  }

  lemma TakeFirst(c: Config, s: State)
    requires s == InHand(c, AtNext, FRESH, Queued, {}, []).(chan := Channel([Run(0)], true, true, [Run(0)], 0))
    requires Reachable(c, s)
    ensures Reachable(c, InHand(c, AtAbortCheck(0), FRESH, Queued, {}, []))
  {
    hide Reachable;
    Go(c, s, Thread(true), InHand(c, AtAbortCheck(0), FRESH, Queued, {}, []));
  }

  /** One section of the thread with job 0 in hand. */
  lemma Move(c: Config, s: State, t: State)
    requires Reachable(c, s) && WellPlaced(s) && ThreadCanStep(s) && ThreadStep(c, s, true) == t
    ensures Reachable(c, t)
  {
    hide Reachable, ThreadStep;
    Go(c, s, Thread(true), t);
  }

  lemma Checked(c: Config)
    requires c.capacity >= 1
    ensures Reachable(c, InHand(c, AtStore(0), FRESH, Stage.Checked, {}, []))
  {
    hide Reachable;
    Accepted(c);
    Move(c, InHand(c, AtAbortCheck(0), FRESH, Queued, {}, []), InHand(c, AtFiredCheck(0), FRESH, Queued, {}, []));
    Move(c, InHand(c, AtFiredCheck(0), FRESH, Queued, {}, []), InHand(c, AtStore(0), FRESH, Stage.Checked, {}, []));
  }

  /** From the start of the closure to just before the response. */
  lemma ClosureReturns(l: Local, v: Value, db: Db, t: Token, pending: set<Source>, fires: seq<Fire>)
    requires t.attached && forall f :: 0 <= f < |fires| ==> fires[f].job == 0
    requires Reachable(Sample(l, v, db),
               InHand(Sample(l, v, db), InClosure(0, l, false, 0), t, Attached, pending, fires))
    ensures Reachable(Sample(l, v, db),
              InHand(Sample(l, v, db), AtRespond(0, Ok(v), Ran), t.Clear(), Stage.Detached, pending, fires))
  {
    hide Reachable;
    var c := Sample(l, v, db);
    var s := InHand(c, AtDetach(0, Fine(v), false), t, Attached, pending, fires);
    Move(c, InHand(c, InClosure(0, l, false, 0), t, Attached, pending, fires), s);
    Move(c, s, InHand(c, AtRespond(0, Ok(v), Ran), t.Clear(), Stage.Detached, pending, fires));
  }

  /** The response is sent: a job with a fired token has answered with a value. */
  lemma Responds(l: Local, v: Value, db: Db, t: Token, pending: set<Source>, fire: Fire)
    requires fire.job == 0
    requires Reachable(Sample(l, v, db),
               InHand(Sample(l, v, db), AtRespond(0, Ok(v), Ran), t, Stage.Detached, pending, [fire]))
    ensures !NeverAnswersWithValue(fire.cas)
  {
    hide Reachable;
    var c := Sample(l, v, db);
    var s := InHand(c, AtRespond(0, Ok(v), Ran), t, Stage.Detached, pending, [fire]);
    var end := s.(pc := AtNext, log := Log([Entry(0, Ran, Ok(v), db)], 0, StillLooping, false));
    Move(c, s, end);
    assert WaitResult(end, 0) == Some(Ok(v));
    SampleIsValid(l, v, db);
    assert FiredAt(c, end, 0, fire.cas);
  }

  lemma SampleIsValid(l: Local, v: Value, db: Db)
    ensures ValidConfig(Sample(l, v, db))
  {
  }

  /** Fired between the queued-stage check and the store of the handle: `attach` interrupts, but no statement runs. */
  lemma FiredWhenChecked(l: Local, v: Value, db: Db)
    ensures !NeverAnswersWithValue(Stage.Checked)
  {
    hide Reachable, NeverAnswersWithValue;
    var c, fire := Sample(l, v, db), Fire(0, Stage.Checked, None);
    Checked(c);
    var s := InHand(c, AtStore(0), Token(CancelFired, false, 0), Stage.Checked, {}, [fire]);
    Go(c, InHand(c, AtStore(0), FRESH, Stage.Checked, {}, []), FireCas(0, Cancel), s);
    FiredThenAttached(l, v, db, fire);
    ClosureReturns(l, v, db, Token(CancelFired, true, 1), {ByToken(0)}, [fire]);
    Responds(l, v, db, Token(CancelFired, false, 1), {ByToken(0)}, fire);
  }

  lemma FiredThenAttached(l: Local, v: Value, db: Db, fire: Fire)
    requires fire.job == 0
    requires Reachable(Sample(l, v, db),
               InHand(Sample(l, v, db), AtStore(0), Token(CancelFired, false, 0), Stage.Checked, {}, [fire]))
    ensures Reachable(Sample(l, v, db),
              InHand(Sample(l, v, db), InClosure(0, l, false, 0), Token(CancelFired, true, 1), Attached, {ByToken(0)},
                     [fire]))
  {
    hide Reachable;
    var c, t := Sample(l, v, db), Token(CancelFired, true, 0);
    Move(c, InHand(c, AtStore(0), Token(CancelFired, false, 0), Stage.Checked, {}, [fire]),
         InHand(c, AtLoad(0), t, Attached, {}, [fire]));
    Move(c, InHand(c, AtLoad(0), t, Attached, {}, [fire]), InHand(c, AtAttachInterrupt(0), t, Attached, {}, [fire]));
    Move(c, InHand(c, AtAttachInterrupt(0), t, Attached, {}, [fire]),
         InHand(c, InClosure(0, l, false, 0), Token(CancelFired, true, 1), Attached, {ByToken(0)}, [fire]));
  }

  /** The closure of an unfired job starts. */
  lemma Starting(l: Local, v: Value, db: Db)
    ensures Reachable(Sample(l, v, db),
              InHand(Sample(l, v, db), InClosure(0, l, false, 0), FRESH.Store(), Attached, {}, []))
  {
    hide Reachable;
    var c := Sample(l, v, db);
    Checked(c);
    Move(c, InHand(c, AtStore(0), FRESH, Stage.Checked, {}, []), InHand(c, AtLoad(0), FRESH.Store(), Attached, {}, []));
    Move(c, InHand(c, AtLoad(0), FRESH.Store(), Attached, {}, []),
         InHand(c, InClosure(0, l, false, 0), FRESH.Store(), Attached, {}, []));
  }

  /** Fired while the closure runs between two statements. */
  lemma FiredWhenAttached(l: Local, v: Value, db: Db)
    ensures !NeverAnswersWithValue(Attached)
  {
    hide Reachable, NeverAnswersWithValue;
    var c, fire := Sample(l, v, db), Fire(0, Attached, None);
    Starting(l, v, db);
    Go(c, InHand(c, InClosure(0, l, false, 0), FRESH.Store(), Attached, {}, []), FireCas(0, Cancel),
       InHand(c, InClosure(0, l, false, 0), Token(CancelFired, true, 0), Attached, {}, [fire]));
    ClosureReturns(l, v, db, Token(CancelFired, true, 0), {}, [fire]);
    Responds(l, v, db, Token(CancelFired, false, 0), {}, fire);
  }

  /** Fired after `detach`. */
  lemma FiredWhenDetached(l: Local, v: Value, db: Db)
    ensures !NeverAnswersWithValue(Stage.Detached)
  {
    hide Reachable, NeverAnswersWithValue;
    var c, fire := Sample(l, v, db), Fire(0, Stage.Detached, None);
    Starting(l, v, db);
    ClosureReturns(l, v, db, FRESH.Store(), {}, []);
    Go(c, InHand(c, AtRespond(0, Ok(v), Ran), FRESH, Stage.Detached, {}, []), FireCas(0, Cancel),
       InHand(c, AtRespond(0, Ok(v), Ran), Token(CancelFired, false, 0), Stage.Detached, {}, [fire]));
    Responds(l, v, db, Token(CancelFired, false, 0), {}, fire);
  }

  /** Exactly the fires that come before the queued-stage check keep the job from answering with a value. */
  lemma OnlyQueuedFiresDecide(stage: Stage, l: Local, v: Value, db: Db)
    ensures NeverAnswersWithValue(stage) <==> stage.Queued?
  {
    hide WaitResult, ValidConfig, Reachable;
    match stage {
      case Queued =>
        forall c, s, f: nat | FiredAt(c, s, f, stage)
          ensures !AnswersWithValue(s, s.who.fires[f].job)
        {
          QueuedFireStopsJob(c, s, f);
        }
      case Checked => FiredWhenChecked(l, v, db);
      case Attached => FiredWhenAttached(l, v, db);
      case Detached => FiredWhenDetached(l, v, db);
    }
  }

  // ── a fire on a running statement ─────────────────────────────────────────────────────────────────

  /** A closure that runs one statement for ever, unless it is interrupted. */
  ghost function Forever(l0: Local, l1: Local, l2: Local): Closure {
    Closure(l0,
            l => if l == l0 then Begin(l1) else if l == l1 then Step(d => (d, l1), l2) else Finish(Error(Interrupted)),
            l => if l == l1 then 1 else 0,
            l => l != l0 && l != l1)
  }

  ghost function Endless(l0: Local, l1: Local, l2: Local, db: Db): Config {
    Config(2, false, db, _ => Job(SpawnCall, Forever(l0, l1, l2)))
  }

  /** Job 0 is in its statement; `fires` have been made on it. */
  function InStatement(c: Config, l1: Local, t: Token, pending: set<Source>, fires: seq<Fire>): State {
    var s := InHand(c, InClosure(0, l1, false, 1), t, Attached, pending, fires);
    s.(mem := s.mem.(conn := Conn(true, c.db, 1, pending)))
  }

  /** Its statement has just been cut by its own token. */
  function AfterCut(c: Config, pc: Pc, t: Token, stage: Stage, fire: Fire): State {
    var s := InHand(c, pc, t, stage, {ByToken(0)}, [fire]);
    s.(mem := s.mem.(cuts := [CutStatement(Some(0), {ByToken(0)})]))
  }

  lemma EndlessIsValid(l0: Local, l1: Local, l2: Local, db: Db)
    requires l0 != l1 && l0 != l2 && l1 != l2
    ensures ValidConfig(Endless(l0, l1, l2, db))
  {
    var cl := Forever(l0, l1, l2);
    forall l: Local
      ensures HonestAt(cl, l)
    {
    }
  }

  lemma StatementRuns(l0: Local, l1: Local, l2: Local, db: Db)
    requires l0 != l1
    ensures var c := Endless(l0, l1, l2, db); Reachable(c, InStatement(c, l1, FRESH.Store(), {}, []))
  {
    hide Reachable;
    var c := Endless(l0, l1, l2, db);
    Checked(c);
    Move(c, InHand(c, AtStore(0), FRESH, Stage.Checked, {}, []), InHand(c, AtLoad(0), FRESH.Store(), Attached, {}, []));
    Move(c, InHand(c, AtLoad(0), FRESH.Store(), Attached, {}, []),
         InHand(c, InClosure(0, l0, false, 0), FRESH.Store(), Attached, {}, []));
    Move(c, InHand(c, InClosure(0, l0, false, 0), FRESH.Store(), Attached, {}, []),
         InStatement(c, l1, FRESH.Store(), {}, []));
  }

  lemma FiredWhileRunning(l0: Local, l1: Local, l2: Local, db: Db)
    requires l0 != l1
    ensures var c, fire := Endless(l0, l1, l2, db), Fire(0, Attached, Some(Attached));
      Reachable(c, InStatement(c, l1, Token(CancelFired, true, 1), {ByToken(0)}, [fire]))
  {
    hide Reachable;
    var c, cas := Endless(l0, l1, l2, db), Fire(0, Attached, None);
    StatementRuns(l0, l1, l2, db);
    Go(c, InStatement(c, l1, FRESH.Store(), {}, []), FireCas(0, Cancel),
       InStatement(c, l1, Token(CancelFired, true, 0), {}, [cas]));
    Go(c, InStatement(c, l1, Token(CancelFired, true, 0), {}, [cas]), FireLock(0),
       InStatement(c, l1, Token(CancelFired, true, 1), {ByToken(0)}, [cas.(locked := Some(Attached))]));
  }

  /** A statement that would run for ever is cancelled: the job is answered `Cancelled`, and nothing else. */
  lemma EndlessIsCancelled(l0: Local, l1: Local, l2: Local, db: Db)
    requires l0 != l1 && l0 != l2 && l1 != l2
    ensures exists c, s :: ValidConfig(c) && Reachable(c, s) && c.job(0).body == Forever(l0, l1, l2) &&
              WaitResult(s, 0) == Some(Err(Cancelled))
  {
    hide Reachable;
    var c, fire := Endless(l0, l1, l2, db), Fire(0, Attached, Some(Attached));
    var t := Token(CancelFired, true, 1);
    EndlessIsValid(l0, l1, l2, db);
    FiredWhileRunning(l0, l1, l2, db);
    Move(c, InStatement(c, l1, t, {ByToken(0)}, [fire]), AfterCut(c, InClosure(0, l2, true, 2), t, Attached, fire));
    Move(c, AfterCut(c, InClosure(0, l2, true, 2), t, Attached, fire),
         AfterCut(c, AtDetach(0, Error(Interrupted), true), t, Attached, fire));
    Move(c, AfterCut(c, AtDetach(0, Error(Interrupted), true), t, Attached, fire),
         AfterCut(c, AtFiredLoad(0, true), t.Clear(), Stage.Detached, fire));
    Move(c, AfterCut(c, AtFiredLoad(0, true), t.Clear(), Stage.Detached, fire),
         AfterCut(c, AtRespond(0, Err(Cancelled), Cut), t.Clear(), Stage.Detached, fire));
    var s := AfterCut(c, AtRespond(0, Err(Cancelled), Cut), t.Clear(), Stage.Detached, fire);
    var end := s.(pc := AtNext, log := Log([Entry(0, Cut, Err(Cancelled), db)], 0, StillLooping, false));
    Move(c, s, end);
    assert WaitResult(end, 0) == Some(Err(Cancelled));
  }

  // ── what a returned shutdown call says ────────────────────────────────────────────────────────────

  /** `s` is about to take the join handle for call `k`, which has returned in the later state `t`. */
  ghost predicate Returns(c: Config, s: State, k: nat, t: State, held: bool) {
    && ValidConfig(c) && Reachable(c, s) && Enabled(c, s, CloserStep(k))
    && s.who.closers[k].TakingJoin? && s.who.joinHeld == held
    && Later(c, Apply(c, s, CloserStep(k)), t)
    && k < |t.who.closers| && t.who.closers[k].CloserReturned?
  }

  /** When a call that finds the join handle there, or gone, has returned, the thread has ended. */
  ghost predicate ReturnsAfterEnd(held: bool) {
    forall c, s, k: nat, t :: Returns(c, s, k, t, held) ==> t.pc.Finished?
  }

  /** After such a return every submission is told `Closed`. */
  ghost predicate TurnsAway(held: bool) {
    forall c, s, k: nat, t, j: JobId, next ::
      Returns(c, s, k, t, held) && IsTold(c, t, j, next) ==> next == Rejected(Closed)
  }

  predicate IsTold(c: Config, t: State, j: JobId, next: Caller) {
    (next.Waiting? || next.Rejected?) && CallerMay(c, t, j, next)
  }

  function TrySample(l: Local, v: Value, db: Db): Config {
    Config(2, false, db, _ => Instant(TryCall, l, v))
  }

  function BothClosing(c: Config, closers: seq<Closer>, sent: nat, joinHeld: bool): State
    requires sent <= 2
  {
    var q := [Shutdown, Shutdown][..sent];
    Init(c).(chan := Channel(q, true, true, q, 0), who := People([], [], closers, joinHeld))
  }

  lemma BothSent(c: Config)
    requires c.capacity == 2 && !c.async
    ensures Reachable(c, BothClosing(c, [TakingJoin, TakingJoin], 2, true))
  {
    hide Reachable;
    BothOpen(c);
    Go(c, BothClosing(c, [SendingShutdown, SendingShutdown], 0, true), CloserStep(0),
       BothClosing(c, [TakingJoin, SendingShutdown], 1, true));
    Go(c, BothClosing(c, [TakingJoin, SendingShutdown], 1, true), CloserStep(1),
       BothClosing(c, [TakingJoin, TakingJoin], 2, true));
  }

  lemma BothOpen(c: Config)
    requires c.capacity == 2 && !c.async
    ensures Reachable(c, BothClosing(c, [SendingShutdown, SendingShutdown], 0, true))
  {
    hide Reachable;
    InitReachable(c);
    Go(c, Init(c), OpenCloser(false), BothClosing(c, [SendingShutdown], 0, true));
    Go(c, BothClosing(c, [SendingShutdown], 0, true), OpenCloser(false),
       BothClosing(c, [SendingShutdown, SendingShutdown], 0, true));
  }

  /** The second of two concurrent calls has returned while the first still waits for the thread. */
  lemma SecondHasReturned(c: Config, t: State)
    requires ValidConfig(c) && c.capacity == 2 && !c.async
    requires Later(c, BothClosing(c, [Joining, CloserReturned(false)], 2, false), t)
    requires t.who.closers == [Joining, CloserReturned(false)]
    ensures Returns(c, BothClosing(c, [Joining, TakingJoin], 2, false), 1, t, false) && Reachable(c, t)
  {
    hide Reachable, Later;
    BothSent(c);
    var s := BothClosing(c, [Joining, TakingJoin], 2, false);
    Go(c, BothClosing(c, [TakingJoin, TakingJoin], 2, true), CloserStep(0), s);
    assert Apply(c, s, CloserStep(1)) == BothClosing(c, [Joining, CloserReturned(false)], 2, false);
    StepIsReachable(c, s, CloserStep(1));
    LaterIsReachable(c, BothClosing(c, [Joining, CloserReturned(false)], 2, false), t);
  }

  lemma After(c: Config, s: State, e: Event, t: State)
    requires Enabled(c, s, e) && Apply(c, s, e) == t
    ensures Later(c, s, t)
  {
    assert RunFrom(c, s, [e][..0]) == Some(s);
    assert Leads(c, s, [e], t);
  }

  /** After that return a new submission finds the channel full of shutdown messages. */
  lemma QueueFullAfterReturn(l: Local, v: Value, db: Db)
    ensures exists c, s, k: nat, t, j: JobId :: Returns(c, s, k, t, false) && IsTold(c, t, j, Rejected(QueueFull))
  {
    var c := TrySample(l, v, db);
    var u := BothClosing(c, [Joining, CloserReturned(false)], 2, false);
    var t := CreateJob(u);
    After(c, u, Create, t);
    hide Reachable, Later, Returns;
    SecondHasReturned(c, t);
    assert IsTold(c, t, 0, Rejected(QueueFull));
    assert Returns(c, BothClosing(c, [Joining, TakingJoin], 2, false), 1, t, false);
  }

  /** Or it is accepted, if the thread has taken the first message but not yet dropped its receiver. */
  lemma AcceptedAfterReturn(l: Local, v: Value, db: Db)
    ensures exists c, s, k: nat, t, j: JobId :: Returns(c, s, k, t, false) && IsTold(c, t, j, Waiting)
  {
    var c := TrySample(l, v, db);
    var u := BothClosing(c, [Joining, CloserReturned(false)], 2, false);
    var w := Take(u);
    var t := CreateJob(w);
    After(c, u, Thread(true), w);
    After(c, w, Create, t);
    LaterTransitively(c, u, w, t);
    hide Reachable, Later, Returns;
    SecondHasReturned(c, t);
    assert IsTold(c, t, 0, Waiting);
    assert Returns(c, BothClosing(c, [Joining, TakingJoin], 2, false), 1, t, false);
  }

  /** Two concurrent calls: the second finds the join handle gone and returns while the thread still runs, and after
      that a submission may be told something else than `Closed`. */
  lemma SecondCallReturnsEarly(l: Local, v: Value, db: Db)
    ensures !ReturnsAfterEnd(false) && !TurnsAway(false)
  {
    hide Reachable, Later, Returns, IsTold;
    var c := TrySample(l, v, db);
    var u := BothClosing(c, [Joining, CloserReturned(false)], 2, false);
    assert Later(c, u, u) by { LaterThanItself(c, u); }
    SecondHasReturned(c, u);
    QueueFullAfterReturn(l, v, db);
  }

  lemma HolderTurnsAway(c: Config, s: State, k: nat, t: State, j: JobId, next: Caller)
    requires Returns(c, s, k, t, true)
    ensures t.pc.Finished? && (IsTold(c, t, j, next) ==> next == Rejected(Closed))
  {
    StepIsReachable(c, s, CloserStep(k));
    LaterIsReachable(c, Apply(c, s, CloserStep(k)), t);
    JoinHeldDecides(c, s, k, t);
    LaterThanItself(c, t);
    EndedTurnsAway(c, t, t, j);
    hide Reachable, Later;
  }

  /** That the call found the join handle still there is exactly what guarantees, over all runs, that at its return the
      thread has ended.  A single call that found it gone may be lucky: `EndedOnReturn` says when. */
  lemma OnlyJoinersReturnAfterEnd(held: bool, l: Local, v: Value, db: Db)
    ensures ReturnsAfterEnd(held) <==> held
  {
    hide Returns, IsTold;
    if held {
      forall c, s, k: nat, t | Returns(c, s, k, t, held)
        ensures t.pc.Finished?
      {
        HolderTurnsAway(c, s, k, t, 0, Waiting);
      }
    } else {
      SecondCallReturnsEarly(l, v, db);
    }
  }

  /** It is also exactly what guarantees that every later submission is told `Closed`. */
  lemma OnlyJoinersTurnAway(held: bool, l: Local, v: Value, db: Db)
    ensures TurnsAway(held) <==> held
  {
    hide Returns, IsTold;
    if held {
      forall c, s, k: nat, t, j: JobId, next | Returns(c, s, k, t, held) && IsTold(c, t, j, next)
        ensures next == Rejected(Closed)
      {
        HolderTurnsAway(c, s, k, t, j, next);
      }
    } else {
      SecondCallReturnsEarly(l, v, db);
    }
  }
}
