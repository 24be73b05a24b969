/** What an isle promises: statements about every reachable state, and about every two states of a run. */
module Guarantees {
  import opened Errors
  import opened Sqlite
  import opened Tokens
  import opened Protocol
  import opened Invariant
  import opened Preservation
  import opened Runs
  import opened Evolution
  import opened Causes
  import opened Isolation

  // ── no raw interrupt ──────────────────────────────────────────────────────────────────────────────

  /** Whatever a caller receives, it is not a raw SQLITE_INTERRUPT. */
  lemma NoRawInterrupt(c: Config, s: State, j: JobId, a: Answer)
    requires ValidConfig(c) && Reachable(c, s)
    requires WaitResult(s, j) == Some(a) || (j < |s.who.callers| && s.who.callers[j] == Returned(a))
    ensures !RawInterrupt(a)
  {
    LedgerHolds(c, s);
    PeopleHold(c, s);
    hide Serial, InProgress, ConnAgrees, CutsBlamed, ClosersAgree;
    if WaitResult(s, j) == Some(a) {
      ReceivedAgrees(s, j, a);
    } else {
      assert Promised(c.job(j).kind, s.who.callers[j], s.mem.tokens[j].state);
    }
  }

  /** The answers that stand for an interrupt: the reason on the token, if there was one when the closure returned. */
  predicate NamesInterrupt(a: Answer, reason: Option<IsleError>) {
    if reason.Some? then a == Err(reason.value) else a.Err? && (a.e.Cancelled? || a.e.Timeout? || a.e.Closed?)
  }

  predicate KeepsReason(tokens: seq<Token>, j: JobId, reason: Option<IsleError>) {
    reason.Some? ==> j < |tokens| && tokens[j].Fired() == reason
  }

  /** Job `j`, the n-th to be settled, has a closure that returned SQLITE_INTERRUPT: it is on its way to, or has, an
      answer that names the reason. */
  predicate FoldsInterrupt(pc: Pc, tokens: seq<Token>, ledger: seq<Entry>, n: nat, j: JobId,
      reason: Option<IsleError>)
  {
    && KeepsReason(tokens, j, reason)
    && if |ledger| <= n then
         && |ledger| == n && (pc.AtDetach? || pc.AtFiredLoad? || pc.AtAbortLoad? || pc.AtRespond?) && pc.job == j
         && (pc.AtDetach? ==> pc.outcome == Error(Interrupted))
         && (pc.AtAbortLoad? ==> reason.None?)
         && (pc.AtRespond? ==> NamesInterrupt(pc.answer, reason))
       else ledger[n].job == j && NamesInterrupt(ledger[n].answer, reason)
  }

  lemma ThreadFoldsInterrupt(c: Config, s: State, usable: bool, n: nat, j: JobId, reason: Option<IsleError>)
    requires WellPlaced(s) && ThreadCanStep(s) && FoldsInterrupt(s.pc, s.mem.tokens, s.log.ledger, n, j, reason)
    requires s.pc.AtAbortLoad? ==> s.mem.abort
    ensures var t := ThreadStep(c, s, usable);
      KeepsReason(t.mem.tokens, j, reason) ==> FoldsInterrupt(t.pc, t.mem.tokens, t.log.ledger, n, j, reason)
  {
  }

  lemma StepKeepsReason(c: Config, s: State, e: Event, j: JobId, reason: Option<IsleError>)
    requires ValidConfig(c) && Reachable(c, s) && Enabled(c, s, e) && KeepsReason(s.mem.tokens, j, reason)
    ensures KeepsReason(Apply(c, s, e).mem.tokens, j, reason)
  {
    hide Inv, Apply, Enabled, Chances;
    ReachableInv(c, s);
    StepEvolves(c, s, e);
  }

  lemma StepFoldsInterrupt(c: Config, s: State, e: Event, n: nat, j: JobId, reason: Option<IsleError>)
    requires ValidConfig(c) && Reachable(c, s) && Enabled(c, s, e)
    requires FoldsInterrupt(s.pc, s.mem.tokens, s.log.ledger, n, j, reason)
    ensures var t := Apply(c, s, e); FoldsInterrupt(t.pc, t.mem.tokens, t.log.ledger, n, j, reason)
  {
    StepKeepsReason(c, s, e, j, reason);
    hide ThreadStep, CallerMay, CloserMay, MayFire, MayDropSenders;
    if e.Thread? {
      hide FoldsInterrupt, CutsBlamed, InProgress, Serial, AnswersAgree, NothingRaw, PanicsChecked;
      LedgerHolds(c, s);
      ThreadFoldsInterrupt(c, s, e.usable, n, j, reason);
    }
  }

  lemma {:induction false} RunFoldsInterrupt(c: Config, s: State, events: seq<Event>, t: State, n: nat, j: JobId,
      reason: Option<IsleError>)
    requires ValidConfig(c) && Reachable(c, s) && Leads(c, s, events, t)
    requires FoldsInterrupt(s.pc, s.mem.tokens, s.log.ledger, n, j, reason)
    ensures FoldsInterrupt(t.pc, t.mem.tokens, t.log.ledger, n, j, reason)
    decreases |events|
  {
    hide FoldsInterrupt, Apply, Enabled, Reachable;
    if events != [] {
      var init := events[..|events| - 1];
      var mid := RunFrom(c, s, init).value;
      assert Leads(c, s, init, mid);
      LaterIsReachable(c, s, mid);
      RunFoldsInterrupt(c, s, init, mid, n, j, reason);
      StepFoldsInterrupt(c, mid, events[|events| - 1], n, j, reason);
    }
  }

  /** A job whose closure returned SQLITE_INTERRUPT is answered with the reason on its token if the token has fired by
      then, with `Closed` if the token never fires, and with one of `Cancelled`, `Timeout` and `Closed` in any case. */
  lemma InterruptBecomesReason(c: Config, s: State, t: State)
    requires ValidConfig(c) && Reachable(c, s) && Later(c, s, t)
    requires s.pc.AtDetach? && s.pc.outcome == Error(Interrupted) && |t.log.ledger| > |s.log.ledger|
    ensures var e := t.log.ledger[|s.log.ledger|];
      && e.job == s.pc.job && s.pc.job < |s.mem.tokens|
      && NamesInterrupt(e.answer, s.mem.tokens[s.pc.job].Fired())
      && (!HasFired(t.mem.tokens, s.pc.job) ==> e.answer == Err(Closed))
  {
    hide Reachable, Serial, NothingRaw, CutsBlamed, ConnAgrees, PanicsChecked, InProgress, FiresAnswered, HandlesAgree;
    TokensHold(c, s);
    var events :| Leads(c, s, events, t);
    RunFoldsInterrupt(c, s, events, t, |s.log.ledger|, s.pc.job, s.mem.tokens[s.pc.job].Fired());
    LaterIsReachable(c, s, t);
    LedgerHolds(c, t);
    assert Agrees(t.mem.tokens, t.log.ledger[|s.log.ledger|].job, t.log.ledger[|s.log.ledger|].answer);
  }

  // ── isolation ─────────────────────────────────────────────────────────────────────────────────────

  /** A statement of job `j` is interrupted only by `j`'s own token, once fired, or by an aborting driver; never
      by the token of another job.  The health check is interrupted only by an aborting driver. */
  lemma OnlyOwnInterrupts(c: Config, s: State, i: nat, source: Source)
    requires ValidConfig(c) && Reachable(c, s) && i < |s.mem.cuts| && source in s.mem.cuts[i].blame
    ensures match source
            case ByDriver => s.mem.abort
            case ByToken(k) => s.mem.cuts[i].job == Some(k) && HasFired(s.mem.tokens, k)
  {
    hide Serial, InProgress, ConnAgrees, NothingRaw;
    LedgerHolds(c, s);
    assert Blamed(s.mem, s.mem.cuts[i]);
  }

  lemma EarlyCalls(c: Config, s: State, usable: bool, k: JobId)
    requires WellPlaced(s) && ThreadCanStep(s) && k < |s.mem.tokens| && !s.pc.AtAttachInterrupt?
    requires s.pc.AtNext? || s.pc.AtAbortCheck? || AboutToStart(s.pc)
    ensures var t := ThreadStep(c, s, usable);
      |t.mem.tokens| == |s.mem.tokens| && t.mem.tokens[k].calls == s.mem.tokens[k].calls
  {
    hide AttachInterrupt, ClosureSection, DetachHandle, FoldToken, FoldAbort, Respond, BeginHealth, HealthCheck,
      DropConnection, SignalDone, DropReceiver;
  }

  lemma LateCalls(c: Config, s: State, usable: bool, k: JobId)
    requires WellPlaced(s) && ThreadCanStep(s) && k < |s.mem.tokens|
    requires !(s.pc.AtNext? || s.pc.AtAbortCheck? || AboutToStart(s.pc))
    ensures var t := ThreadStep(c, s, usable);
      |t.mem.tokens| == |s.mem.tokens| && t.mem.tokens[k].calls == s.mem.tokens[k].calls
  {
    hide Take, Disconnect, CheckAbort, CheckFired, StoreHandle, LoadState, AttachInterrupt;
  }

  /** The locked section of a fire raises the connection's flag, if it is made while its job's handle is registered. */
  lemma FireRaisesFlag(c: Config, s: State, f: nat)
    requires ValidConfig(c) && Reachable(c, s) && Enabled(c, s, FireLock(f)) && InWindow(s.pc, s.who.fires[f].job)
    ensures ByToken(s.who.fires[f].job) in Apply(c, s, FireLock(f)).mem.conn.pending
  {
    hide FiresAnswered, ReasonFirst, InProgress, Serial, NothingRaw, AnswersAgree, CutsBlamed, PanicsChecked, Reachable;
    TokensHold(c, s);
    LedgerHolds(c, s);
    StageOfCurrent(s.pc, s.mem, s.log.ledger, s.who.fires[f].job);
  }

  /** So does `attach`, for a token it found fired. */
  lemma AttachRaisesFlag(c: Config, s: State, usable: bool)
    requires ValidConfig(c) && Reachable(c, s) && Enabled(c, s, Thread(usable)) && s.pc.AtAttachInterrupt?
    ensures ByToken(s.pc.job) in Apply(c, s, Thread(usable)).mem.conn.pending
  {
    hide FiresAnswered, ReasonFirst, InProgress, Serial, NothingRaw, AnswersAgree, CutsBlamed, PanicsChecked, Reachable;
    TokensHold(c, s);
    LedgerHolds(c, s);
    StageOfCurrent(s.pc, s.mem, s.log.ledger, s.pc.job);
  }

  /** Every interrupt made through a token is made while the token's own job lies between the store of its handle
      and `detach`, after the token has fired; and it raises the connection's flag. */
  lemma InterruptsOnlyInWindow(c: Config, s: State, e: Event, k: JobId)
    requires ValidConfig(c) && Reachable(c, s) && Enabled(c, s, e) && k < |s.mem.tokens|
    requires k < |Apply(c, s, e).mem.tokens| && Apply(c, s, e).mem.tokens[k].calls != s.mem.tokens[k].calls
    ensures InWindow(s.pc, k) && HasFired(s.mem.tokens, k)
    ensures ByToken(k) in Apply(c, s, e).mem.conn.pending
  {
    hide FiresAnswered, HandlesAgree, ThreadStep, CallerMay, CloserMay, MayFire, MayDropSenders, CurrentJob, Reachable;
    TokensHold(c, s);
    match e {
      case Thread(usable) =>
        if s.pc.AtAttachInterrupt? {
          AttachInterruptsOwn(c, s, usable, k);
          AttachRaisesFlag(c, s, usable);
        } else if s.pc.AtNext? || s.pc.AtAbortCheck? || AboutToStart(s.pc) {
          EarlyCalls(c, s, usable, k);
        } else {
          LateCalls(c, s, usable, k);
        }
      case FireLock(f) =>
        WindowOfHandle(s.pc, s.mem, s.log.ledger, k);
        FireRaisesFlag(c, s, f);
      case _ =>
    }
  }

  lemma AttachInterruptsOwn(c: Config, s: State, usable: bool, k: JobId)
    requires WellPlaced(s) && s.pc.AtAttachInterrupt? && k < |s.mem.tokens|
    ensures var t := ThreadStep(c, s, usable);
      |t.mem.tokens| == |s.mem.tokens| && (k != s.pc.job ==> t.mem.tokens[k] == s.mem.tokens[k])
  {
    hide Take, Disconnect, CheckAbort, CheckFired, StoreHandle, LoadState, ClosureSection, DetachHandle, FoldToken,
      FoldAbort, Respond, BeginHealth, HealthCheck, DropConnection, SignalDone, DropReceiver;
  }

  // ── no lost interrupt ─────────────────────────────────────────────────────────────────────────────

  /** The closure of job `j` has been started. */
  ghost predicate ClosureRan(pc: Pc, ledger: seq<Entry>, j: JobId) {
    || (Running(pc) && pc.job == j)
    || exists i :: 0 <= i < |ledger| && ledger[i].job == j && Started(ledger[i])
  }

  lemma StageOfRan(pc: Pc, m: Memory, ledger: seq<Entry>, j: JobId)
    requires HandlesAgree(pc, m, ledger) && ClosureRan(pc, ledger, j) && j < |m.tokens|
    ensures m.stages[j].Attached? || m.stages[j].Detached?
    ensures !InAttach(pc, j)
  {
    if Running(pc) && pc.job == j {
      StageOfCurrent(pc, m, ledger, j);
    } else {
      var i :| 0 <= i < |ledger| && ledger[i].job == j && Started(ledger[i]);
      assert m.stages[ledger[i].job] == if Started(ledger[i]) then Detached else Queued;
      assert CurrentJob(pc) != Some(ledger[i].job);
    }
  }

  ghost predicate FireCounts(pc: Pc, m: Memory, ledger: seq<Entry>, fire: Fire) {
    && (fire.cas.Queued? ==> !ClosureRan(pc, ledger, fire.job))
    && (fire.locked.Some? && ClosureRan(pc, ledger, fire.job) ==>
          HasInterrupted(m.tokens, fire.job) || fire.locked == Some(Stage.Detached))
  }

  predicate HasInterrupted(tokens: seq<Token>, j: JobId) {
    j < |tokens| && tokens[j].calls > 0
  }

  lemma AnsweredCounts(pc: Pc, m: Memory, ledger: seq<Entry>, fire: Fire)
    requires HandlesAgree(pc, m, ledger) && Answered(pc, m, fire)
    ensures FireCounts(pc, m, ledger, fire)
  {
    if ClosureRan(pc, ledger, fire.job) {
      StageOfRan(pc, m, ledger, fire.job);
    }
  }

  /** A fire is never lost.  If its compare-exchange came before the queued-stage check, the closure never runs.
      Otherwise, once the fire is complete and the closure has started, either an interrupt was made through the
      token while its handle was registered, or the fire's locked section came after `detach`. */
  lemma NoLostInterrupt(c: Config, s: State, f: nat)
    requires ValidConfig(c) && Reachable(c, s) && f < |s.who.fires|
    ensures FireCounts(s.pc, s.mem, s.log.ledger, s.who.fires[f])
  {
    hide FireCounts, HandlesAgree, Answered;
    TokensHold(c, s);
    AnsweredCounts(s.pc, s.mem, s.log.ledger, s.who.fires[f]);
  }

  // ── the sequential machine ────────────────────────────────────────────────────────────────────────

  /** What the closure of a job does when it runs alone (arbitrary if it never ends). */
  ghost function Effect(cl: Closure, db: Db): (Db, Outcome) {
    if exists d, o :: Alone(cl, db, d, o) then
      var d, o :| Alone(cl, db, d, o);
      (d, o)
    else (db, Panic)
  }

  /** The answer of a job that the queued-stage check stopped. */
  function SkipAnswer(tokens: seq<Token>, j: JobId): Answer {
    if HasFired(tokens, j) then Err(tokens[j].Fired().value) else Err(Closed)
  }

  /** One turn of the sequential machine: a discarded or skipped job leaves the database alone, a job that ran
      acts as its closure does alone; only an interrupted job is taken as it came. */
  ghost function Turn(c: Config, tokens: seq<Token>, db: Db, e: Entry): (Db, Answer) {
    match e.fate
    case Discarded => (db, Err(Closed))
    case Skipped => (db, SkipAnswer(tokens, e.job))
    case Ran => var (d, o) := Effect(c.job(e.job).body, db); (d, Direct(o))
    case Cut => (e.db, e.answer)
  }

  /** Left fold of the sequential machine over settled jobs. */
  ghost function Replay(c: Config, tokens: seq<Token>, ledger: seq<Entry>): (r: (Db, seq<Answer>))
    ensures |r.1| == |ledger|
  {
    if ledger == [] then (c.db, [])
    else
      var (db, answers) := Replay(c, tokens, ledger[..|ledger| - 1]);
      var (d, a) := Turn(c, tokens, db, ledger[|ledger| - 1]);
      (d, answers + [a])
  }

  lemma TurnExplained(c: Config, tokens: seq<Token>, before: Db, e: Entry)
    requires Explained(c, before, e) && Agrees(tokens, e.job, e.answer)
    ensures Turn(c, tokens, before, e) == (e.db, e.answer)
  {
    if e.fate.Ran? {
      var o :| Alone(c.job(e.job).body, before, e.db, o) && e.answer == Direct(o);
      var (d, p) := Effect(c.job(e.job).body, before);
      AloneIsAFunction(c.job(e.job).body, before, e.db, o, d, p);
    }
  }

  lemma {:induction false} SerialReplays(c: Config, tokens: seq<Token>, ledger: seq<Entry>)
    requires Serial(c, ledger) && AnswersAgree(tokens, ledger)
    ensures Replay(c, tokens, ledger).0 == Before(c, ledger, |ledger|)
    ensures forall i :: 0 <= i < |ledger| ==> Replay(c, tokens, ledger).1[i] == ledger[i].answer
  {
    hide Explained, Turn, Agrees;
    if ledger != [] {
      var init := ledger[..|ledger| - 1];
      assert forall i :: 0 <= i < |init| ==> Before(c, init, i) == Before(c, ledger, i) && init[i] == ledger[i];
      SerialReplays(c, tokens, init);
      TurnExplained(c, tokens, Before(c, ledger, |init|), ledger[|init|]);
    }
  }

  /** Everything a fate stands for.  Only abort discards; only a fire that came before the check skips, and no job with
      such a fire runs; a job counts as interrupted exactly if one of its own statements was, which takes a fire on it
      that came before its `detach`, or the driver. */
  ghost predicate Deserved(m: Memory, fires: seq<Fire>, e: Entry) {
    && (e.fate.Discarded? ==> m.abort)
    && (e.fate.Skipped? ==> EarlyFire(fires, e.job))
    && (Started(e) ==> !EarlyFire(fires, e.job))
    && (e.fate.Cut? <==> OwnCut(m.cuts, e.job))
    && (e.fate.Cut? ==> m.abort || TimelyFire(fires, e.job))
  }

  /** At the queued-stage check a job is stopped exactly if some fire on it is on record by then. */
  lemma OnlyEarlyFiresStop(c: Config, s: State, usable: bool)
    requires ValidConfig(c) && Reachable(c, s) && s.pc.AtFiredCheck? && WellPlaced(s)
    ensures ThreadStep(c, s, usable).pc.AtRespond? <==> FireOn(s.who.fires, s.pc.job)
    ensures FireOn(s.who.fires, s.pc.job) ==> EarlyFire(s.who.fires, s.pc.job)
  {
    TokensHold(c, s);
    ReachableEarned(c, s);
    CheckFiredEarned(s, s.pc.job);
    hide HandlesAgree, FiresAnswered, InterruptsTimely, CutsOwned, SkipsEarned;
  }

  lemma EarlyFireStops(c: Config, s: State, i: nat)
    requires ValidConfig(c) && Reachable(c, s) && i < |s.log.ledger| && Started(s.log.ledger[i])
    ensures !EarlyFire(s.who.fires, s.log.ledger[i].job)
  {
    var j := s.log.ledger[i].job;
    if EarlyFire(s.who.fires, j) {
      var f :| 0 <= f < |s.who.fires| && s.who.fires[f].job == j && s.who.fires[f].cas.Queued?;
      NoLostInterrupt(c, s, f);
    }
  }

  /** No job is settled twice: the ledger follows the accepted requests, and no job is accepted twice. */
  lemma SettledOnce(accepted: seq<Request>, callers: seq<Caller>, ledger: seq<Entry>, a: nat, b: nat)
    requires SettledInOrder(accepted, ledger) && AcceptedOnce(accepted, callers) && a < b < |ledger|
    ensures ledger[a].job != ledger[b].job
  {
    assert accepted[a] == Run(ledger[a].job) && accepted[b] == Run(ledger[b].job);
  }

  lemma OnlyCutJobsHaveCuts(c: Config, s: State, i: nat)
    requires ValidConfig(c) && Reachable(c, s) && i < |s.log.ledger| && OwnCut(s.mem.cuts, s.log.ledger[i].job)
    ensures s.log.ledger[i].fate.Cut?
  {
    hide FiresRecorded, InterruptsTimely, SkipsEarned, FiresAnswered, ReasonFirst, InOrder, Bounded, AcceptedOnce,
      SettledInOrder;
    ReachableEarned(c, s);
    TokensHold(c, s);
    ChannelHolds(c, s);
    var ledger, j := s.log.ledger, s.log.ledger[i].job;
    var x :| 0 <= x < |s.mem.cuts| && s.mem.cuts[x].job == Some(j);
    assert CurrentJob(s.pc) != Some(j);
    var k :| 0 <= k < |ledger| && ledger[k].job == j && ledger[k].fate == Cut;
    if k < i {
      SettledOnce(s.chan.accepted, s.who.callers, ledger, k, i);
    } else if i < k {
      SettledOnce(s.chan.accepted, s.who.callers, ledger, i, k);
    }
  }

  lemma CutsAreTimely(c: Config, s: State, j: JobId)
    requires ValidConfig(c) && Reachable(c, s) && OwnCut(s.mem.cuts, j)
    ensures s.mem.abort || TimelyFire(s.who.fires, j)
  {
    hide FiresRecorded, CutsOwned, SkipsEarned, Serial, InProgress, ConnAgrees, NothingRaw, AnswersAgree, PanicsChecked,
      TimelyFire;
    ReachableEarned(c, s);
    LedgerHolds(c, s);
    var x :| 0 <= x < |s.mem.cuts| && s.mem.cuts[x].job == Some(j);
    assert Blamed(s.mem, s.mem.cuts[x]);
    var source :| source in s.mem.cuts[x].blame;
  }

  /** In every run, every settled job deserved its fate. */
  lemma UndisturbedJobsRun(c: Config, s: State, i: nat)
    requires ValidConfig(c) && Reachable(c, s) && i < |s.log.ledger|
    ensures Deserved(s.mem, s.who.fires, s.log.ledger[i])
  {
    var e := s.log.ledger[i];
    ReachableEarned(c, s);
    hide FiresRecorded, InterruptsTimely, CutsBlamed, ConnAgrees, PanicsChecked, InProgress, Serial, EarlyFire,
      TimelyFire, OwnCut, AnswersAgree;
    LedgerHolds(c, s);
    if Started(e) {
      EarlyFireStops(c, s, i);
    }
    if OwnCut(s.mem.cuts, e.job) {
      OnlyCutJobsHaveCuts(c, s, i);
      CutsAreTimely(c, s, e.job);
    }
  }

  /** In every run, whatever the interleaving: the jobs are settled in the order in which they were accepted, every
      answer is the answer of the sequential machine, and so is the database between jobs.  What the machine takes from
      the ledger is deserved: the fate of a job, and of an interrupted one its effect, which is its closure's own. */
  lemma RefinesSequentialMachine(c: Config, s: State)
    requires ValidConfig(c) && Reachable(c, s)
    ensures SettledInOrder(s.chan.accepted, s.log.ledger)
    ensures forall i :: 0 <= i < |s.log.ledger| ==>
              Replay(c, s.mem.tokens, s.log.ledger).1[i] == s.log.ledger[i].answer
    ensures CurrentJob(s.pc).None? ==> s.mem.conn.db == Replay(c, s.mem.tokens, s.log.ledger).0
    ensures forall i :: 0 <= i < |s.log.ledger| ==>
              && Deserved(s.mem, s.who.fires, s.log.ledger[i])
              && (s.log.ledger[i].fate.Cut? ==> OwnDoing(c, Before(c, s.log.ledger, i), s.log.ledger[i]))
  {
    hide Serial, NothingRaw, CutsBlamed, ConnAgrees, AnswersAgree, PanicsChecked, AcceptedOnce, Replay, Deserved,
      OwnDoing, Before, SettledInOrder;
    ChannelHolds(c, s);
    SequentialAtRest(c, s);
    forall i | 0 <= i < |s.log.ledger|
      ensures Deserved(s.mem, s.who.fires, s.log.ledger[i])
      ensures s.log.ledger[i].fate.Cut? ==> OwnDoing(c, Before(c, s.log.ledger, i), s.log.ledger[i])
    {
      UndisturbedJobsRun(c, s, i);
      if s.log.ledger[i].fate.Cut? {
        EffectsAreIsolated(c, s, i);
      }
    }
  }

  lemma SequentialAtRest(c: Config, s: State)
    requires ValidConfig(c) && Reachable(c, s)
    ensures forall i :: 0 <= i < |s.log.ledger| ==>
              Replay(c, s.mem.tokens, s.log.ledger).1[i] == s.log.ledger[i].answer
    ensures CurrentJob(s.pc).None? ==> s.mem.conn.db == Replay(c, s.mem.tokens, s.log.ledger).0
  {
    hide Serial, NothingRaw, CutsBlamed, ConnAgrees, AnswersAgree, PanicsChecked, Replay;
    LedgerHolds(c, s);
    SerialReplays(c, s.mem.tokens, s.log.ledger);
  }

  /** The closures of the requests, one after the other, each running alone. */
  ghost function Fold(c: Config, requests: seq<Request>): (r: (Db, seq<Answer>))
    ensures |r.1| == |requests|
  {
    if requests == [] then (c.db, [])
    else
      var (db, answers) := Fold(c, requests[..|requests| - 1]);
      match requests[|requests| - 1]
      case Shutdown => (db, answers + [Err(Closed)])
      case Run(j) => var (d, o) := Effect(c.job(j).body, db); (d, answers + [Direct(o)])
  }

  lemma {:induction false} FoldIsReplay(c: Config, tokens: seq<Token>, accepted: seq<Request>, ledger: seq<Entry>)
    requires SettledInOrder(accepted, ledger) && forall i :: 0 <= i < |ledger| ==> ledger[i].fate.Ran?
    ensures Fold(c, accepted[..|ledger|]) == Replay(c, tokens, ledger)
  {
    if ledger != [] {
      var n := |ledger| - 1;
      assert accepted[..n + 1][..n] == accepted[..n];
      FoldIsReplay(c, tokens, accepted, ledger[..n]);
    }
  }

  /** A run without abort in which no settled job was fired before its check and none had a statement cut is the
      accepted closures one after the other: concurrency is invisible. */
  lemma UninterruptedIsFold(c: Config, s: State)
    requires ValidConfig(c) && Reachable(c, s) && !s.mem.abort
    requires forall i :: 0 <= i < |s.log.ledger| ==>
               !EarlyFire(s.who.fires, s.log.ledger[i].job) && !OwnCut(s.mem.cuts, s.log.ledger[i].job)
    ensures |s.log.ledger| <= |s.chan.accepted|
    ensures forall i :: 0 <= i < |s.log.ledger| ==>
              Fold(c, s.chan.accepted[..|s.log.ledger|]).1[i] == s.log.ledger[i].answer
    ensures CurrentJob(s.pc).None? ==> s.mem.conn.db == Fold(c, s.chan.accepted[..|s.log.ledger|]).0
  {
    hide EarlyFire, TimelyFire, OwnCut, Fold, Replay, InOrder, Bounded, AcceptedOnce;
    ChannelHolds(c, s);
    SequentialAtRest(c, s);
    forall i | 0 <= i < |s.log.ledger|
      ensures s.log.ledger[i].fate.Ran?
    {
      UndisturbedJobsRun(c, s, i);
    }
    FoldIsReplay(c, s.mem.tokens, s.chan.accepted, s.log.ledger);
  }

  /** Late fires are harmless: without abort, and if every fire on a settled job came after its `detach` (as when the
      handle of a finished job is dropped), the run is the accepted closures one after the other. */
  lemma UndisturbedIsFold(c: Config, s: State)
    requires ValidConfig(c) && Reachable(c, s) && !s.mem.abort
    requires forall f :: 0 <= f < |s.who.fires| && InLedger(s.log.ledger, s.who.fires[f].job) ==>
               s.who.fires[f].cas.Detached?
    ensures |s.log.ledger| <= |s.chan.accepted|
    ensures forall i :: 0 <= i < |s.log.ledger| ==>
              Fold(c, s.chan.accepted[..|s.log.ledger|]).1[i] == s.log.ledger[i].answer
    ensures CurrentJob(s.pc).None? ==> s.mem.conn.db == Fold(c, s.chan.accepted[..|s.log.ledger|]).0
  {
    hide OwnCut, Fold;
    forall i | 0 <= i < |s.log.ledger|
      ensures !EarlyFire(s.who.fires, s.log.ledger[i].job) && !OwnCut(s.mem.cuts, s.log.ledger[i].job)
    {
      var j := s.log.ledger[i].job;
      assert InLedger(s.log.ledger, j);
      assert !TimelyFire(s.who.fires, j);
      if OwnCut(s.mem.cuts, j) {
        CutsAreTimely(c, s, j);
      }
    }
    UninterruptedIsFold(c, s);
  }
}
