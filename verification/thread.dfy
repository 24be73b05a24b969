/** The SQLite thread (src/thread.rs): `run_loop`, the wrapper that `make_job` builds, and `normalize_error`, as
    programs over the shared memory.  They run against every plan of what the other threads do in between.

    The first methods are the thread's atomic sections; the programs are built from them. */
module ThreadBody {
  import opened Errors
  import opened Sqlite
  import opened Protocol
  import opened Invariant
  import opened Preservation
  import opened Runs
  import opened Evolution
  import opened Guarantees
  import opened Lifecycle
  import opened Worlds

  datatype JobOutcome = Completed | Panicking

  lemma Placed(c: Config, s: State)
    requires ValidConfig(c) && Reachable(c, s)
    ensures WellPlaced(s)
  {
    ChannelHolds(c, s);
  }

  // ── atomic sections ───────────────────────────────────────────────────────────────────────────────

  method Receive(w: World) returns (r: Option<Request>)
    requires w.Valid() && w.s.pc.AtNext? && (w.s.chan.queue != [] || !w.s.chan.txOpen)
    modifies w`s, w`steps
    ensures w.steps == old(w.steps) + 1
    ensures w.Valid() && w.s.log.ledger == old(w.s.log.ledger) && w.s.log.healthy == old(w.s.log.healthy)
    ensures match r
            case None => old(w.s.chan.queue) == [] && w.s.pc.AtExit? && w.s.log.exit.ByDisconnect?
            case Some(Shutdown) => old(w.s.chan.queue) != [] && w.s.pc.AtExit? && w.s.log.exit.ByShutdown?
            case Some(Run(j)) => old(w.s.chan.queue) != [] && w.s.pc == AtAbortCheck(j)
  {
    Placed(w.c, w.s);
    r := if w.s.chan.queue == [] then None else Some(w.s.chan.queue[0]);
    w.Do(Thread(true));
  }

  method AbortCheck(w: World, j: JobId) returns (aborting: bool)
    requires w.Valid() && w.s.pc == AtAbortCheck(j)
    modifies w`s, w`steps
    ensures w.steps == old(w.steps) + 1
    ensures w.Valid() && aborting == old(w.s.mem.abort) && w.s == CheckAbort(old(w.s), j)
  {
    Placed(w.c, w.s);
    aborting := w.s.mem.abort;
    w.Do(Thread(true));
  }

  method FiredCheck(w: World, j: JobId) returns (r: Option<IsleError>)
    requires w.Valid() && w.s.pc == AtFiredCheck(j)
    modifies w`s, w`steps
    ensures w.steps == old(w.steps) + 1
    ensures w.Valid() && w.s.log == old(w.s.log)
    ensures if r.Some? then w.s.pc == AtRespond(j, Err(r.value), Skipped) else w.s.pc == AtStore(j)
    ensures r.Some? ==> r.value.Cancelled? || r.value.Timeout?
  {
    Placed(w.c, w.s);
    r := w.s.mem.tokens[j].Fired();
    w.Do(Thread(true));
  }

  method AttachStore(w: World, j: JobId)
    requires w.Valid() && w.s.pc == AtStore(j)
    modifies w`s, w`steps
    ensures w.steps == old(w.steps) + 1
    ensures w.Valid() && w.s.log == old(w.s.log) && w.s.pc == AtLoad(j)
    ensures j < |w.s.mem.tokens| == |old(w.s).mem.tokens| && w.s.mem.tokens[j] == old(w.s).mem.tokens[j].Store()
  {
    Placed(w.c, w.s);
    w.Do(Thread(true));
  }

  method AttachLoad(w: World, j: JobId) returns (fired: bool)
    requires w.Valid() && w.s.pc == AtLoad(j)
    modifies w`s, w`steps
    ensures w.steps == old(w.steps) + 1
    ensures w.Valid() && w.s.log == old(w.s.log)
    ensures w.s.pc == if fired then AtAttachInterrupt(j) else ClosureStart(w.c, j)
    ensures w.s.mem == old(w.s).mem && (fired <==> HasFired(w.s.mem.tokens, j))
  {
    Placed(w.c, w.s);
    fired := !w.s.mem.tokens[j].state.Unfired?;
    w.Do(Thread(true));
  }

  method AttachLocked(w: World, j: JobId)
    requires w.Valid() && w.s.pc == AtAttachInterrupt(j)
    modifies w`s, w`steps
    ensures w.steps == old(w.steps) + 1
    ensures w.Valid() && w.s.log == old(w.s.log) && w.s.pc == ClosureStart(w.c, j)
    ensures j < |w.s.mem.tokens| == |old(w.s).mem.tokens| && w.s.mem.tokens[j] == old(w.s).mem.tokens[j].Interrupt()
    ensures ByToken(j) in w.s.mem.conn.pending
  {
    Placed(w.c, w.s);
    AttachRaisesFlag(w.c, w.s, true);
    w.Do(Thread(true));
  }

  /** The closure acts once; when it finishes its outcome is in the result. */
  method Act(w: World, j: JobId) returns (r: Option<Outcome>)
    requires w.Valid() && w.s.pc.InClosure? && w.s.pc.job == j
    modifies w`s, w`steps
    ensures w.steps == old(w.steps) + 1
    ensures w.Valid() && w.s.log == old(w.s.log)
    ensures if r.Some? then w.s.pc == AtDetach(j, r.value, old(w.s.pc.cut)) else w.s.pc.InClosure? && w.s.pc.job == j
  {
    Placed(w.c, w.s);
    var act := w.c.job(j).body.act(w.s.pc.at);
    r := if act.Finish? then Some(act.o) else None;
    w.Do(Thread(true));
  }

  method DetachToken(w: World, j: JobId)
    requires w.Valid() && w.s.pc.AtDetach? && w.s.pc.job == j
    modifies w`s, w`steps
    ensures w.steps == old(w.steps) + 1
    ensures w.Valid() && w.s.log == old(w.s.log) && w.s.pc == AfterClosure(j, old(w.s.pc.outcome), old(w.s.pc.cut))
  {
    Placed(w.c, w.s);
    w.Do(Thread(true));
  }

  method FiredLoad(w: World, j: JobId) returns (r: Option<IsleError>)
    requires w.Valid() && w.s.pc.AtFiredLoad? && w.s.pc.job == j
    modifies w`s, w`steps
    ensures w.steps == old(w.steps) + 1
    ensures w.Valid() && w.s.log == old(w.s.log)
    ensures if r.Some? then w.s.pc == AtRespond(j, Err(r.value), RanFate(old(w.s.pc.cut)))
            else w.s.pc == AtAbortLoad(j, old(w.s.pc.cut))
    ensures r.Some? ==> r.value.Cancelled? || r.value.Timeout?
  {
    Placed(w.c, w.s);
    r := w.s.mem.tokens[j].Fired();
    w.Do(Thread(true));
  }

  method AbortLoad(w: World, j: JobId) returns (aborting: bool)
    requires w.Valid() && w.s.pc.AtAbortLoad? && w.s.pc.job == j
    modifies w`s, w`steps
    ensures w.steps == old(w.steps) + 1
    ensures w.Valid() && w.s.log == old(w.s.log)
    ensures w.s.pc == AtRespond(j, Err(if aborting then Closed else Sqlite(Interrupted)), RanFate(old(w.s.pc.cut)))
  {
    Placed(w.c, w.s);
    aborting := w.s.mem.abort;
    w.Do(Thread(true));
  }

  method SendResponse(w: World, j: JobId, a: Answer)
    requires w.Valid() && w.s.pc.AtRespond? && w.s.pc.job == j && w.s.pc.answer == a
    modifies w`s, w`steps
    ensures w.steps == old(w.steps) + 1
    ensures w.Valid() && w.s == Respond(old(w.s))
  {
    Placed(w.c, w.s);
    w.Do(Thread(true));
  }

  method BeginSelect1(w: World)
    requires w.Valid() && w.s.pc == AtHealth(false)
    modifies w`s, w`steps
    ensures w.steps == old(w.steps) + 1
    ensures w.Valid() && w.s.log == old(w.s.log) && w.s.pc == AtHealth(true)
  {
    Placed(w.c, w.s);
    w.Do(Thread(true));
  }

  method EndSelect1(w: World, usable: bool) returns (healthy: bool)
    requires w.Valid() && w.s.pc == AtHealth(true)
    modifies w`s, w`steps
    ensures w.steps == old(w.steps) + 1
    ensures w.Valid() && w.s.log.ledger == old(w.s.log.ledger)
    ensures healthy <==> usable && old(w.s.mem.conn.pending) == {}
    ensures !healthy && usable ==> w.s.mem.abort
    ensures w.s.log.healthy == old(w.s.log.healthy) + One(healthy)
    ensures if healthy then w.s.pc.AtNext? else w.s.pc.AtExit? && w.s.log.exit.ByHealth?
  {
    Placed(w.c, w.s);
    PanicsAreContained(w.c, w.s);
    healthy := usable && w.s.mem.conn.pending == {};
    w.Do(Thread(usable));
  }

  // ── programs ──────────────────────────────────────────────────────────────────────────────────────

  lemma ResponseIsClean(c: Config, s: State)
    requires ValidConfig(c) && Reachable(c, s) && s.pc.AtRespond?
    ensures !RawInterrupt(s.pc.answer)
  {
    hide CutsBlamed, InProgress, Serial, AnswersAgree, NothingRaw, PanicsChecked;
    LedgerHolds(c, s);
  }

  /** `normalize_error`: an INTERRUPT becomes the token's reason, or `Closed` under abort; any other error stays. */
  method NormalizeError(w: World, j: JobId, e: DbError, ghost cut: bool) returns (r: Option<IsleError>)
    requires w.Valid() && w.s.pc == AfterClosure(j, Error(e), cut)
    modifies w
    ensures |w.plan| <= |old(w.plan)| && w.Idled() <= old(w.Idled()) - One(e.Interrupted?)
    ensures w.Valid() && w.s.log == old(w.s.log)
    ensures r.None? ==> w.plan == [] && e.Interrupted?
    ensures r.Some? ==> w.s.pc == AtRespond(j, Err(r.value), RanFate(cut))
    ensures r.Some? ==>
              if e.Interrupted? then r.value.Cancelled? || r.value.Timeout? || r.value.Closed? else r.value == Sqlite(e)
    ensures w.Rushed() <= old(w.Rushed()) + One(e.Interrupted?)
  {
    hide Reachable, AfterBatch;
    if e.Interrupted? {
      var fired := FiredLoad(w, j);
      if fired.Some? {
        return fired;
      }
      var ok := w.Yield(SqliteThread);
      if !ok {
        return None;
      }
      var aborting := AbortLoad(w, j);
      ResponseIsClean(w.c, w.s);
      return Some(if aborting then Closed else Sqlite(Interrupted));
    }
    return Some(Sqlite(e));
  }

  /** The user closure, one action at a time. */
  method RunClosure(w: World, j: JobId) returns (r: Option<Outcome>)
    requires w.Valid() && w.s.pc.InClosure? && w.s.pc.job == j
    modifies w
    ensures |w.plan| <= |old(w.plan)| && w.Idled() <= old(w.Idled())
    ensures w.Valid() && w.s.log == old(w.s.log)
    ensures if r.Some? then w.s.pc.AtDetach? && w.s.pc.job == j && w.s.pc.outcome == r.value else w.plan == []
    ensures w.Rushed() <= old(w.Rushed())
  {
    hide Reachable, AfterBatch;
    r := None;
    while r.None?
      invariant w.Valid() && w.s.log == old(w.s.log)
      invariant if r.Some? then w.s.pc.AtDetach? && w.s.pc.job == j && w.s.pc.outcome == r.value
                else w.s.pc.InClosure? && w.s.pc.job == j
      invariant |w.plan| <= |old(w.plan)| && w.Idled() <= old(w.Idled())
      invariant w.Rushed() <= old(w.Rushed())
      decreases |w.plan|, r.None?
    {
      var ok := w.Yield(SqliteThread);
      if !ok {
        return None;
      }
      r := Act(w, j);
    }
  }

  /** Inside `attach` the handle is there, and what has been fired or interrupted stays so while the others run. */
  lemma AttachedMeanwhile(c: Config, s: State, t: State, j: JobId)
    requires ValidConfig(c) && Reachable(c, s) && Later(c, s, t) && t.pc == s.pc && InAttach(s.pc, j)
    ensures j < |s.mem.tokens| <= |t.mem.tokens| && t.mem.tokens[j].attached
    ensures s.mem.tokens[j].calls <= t.mem.tokens[j].calls && (HasFired(s.mem.tokens, j) ==> HasFired(t.mem.tokens, j))
  {
    LaterEvolves(c, s, t);
    LaterIsReachable(c, s, t);
    TokensHold(c, s);
    TokensHold(c, t);
    StageOfCurrent(t.pc, t.mem, t.log.ledger, j);
    hide HandlesAgree, FiresAnswered, ReasonFirst, Settling, CallersSettle, FiresSettle, Chances;
  }

  /** `token.attach`: store, load, and make good a fire that came too early: when the closure starts, the handle is
      registered, and a token that had been fired by then has interrupted. */
  method Attach(w: World, j: JobId) returns (ok: bool)
    requires w.Valid() && w.s.pc == AtStore(j)
    modifies w
    ensures |w.plan| <= |old(w.plan)| && w.Idled() < old(w.Idled())
    ensures w.Valid() && w.s.log == old(w.s.log)
    ensures if ok then w.s.pc == ClosureStart(w.c, j) else w.plan == []
    ensures ok ==> j < |w.s.mem.tokens| && w.s.mem.tokens[j].attached
    ensures ok && HasFired(w.s.mem.tokens, j) ==> w.s.mem.tokens[j].calls > 0 && ByToken(j) in w.s.mem.conn.pending
    ensures w.Rushed() <= old(w.Rushed()) + 1
  {
    AttachStore(w, j);
    hide Reachable, Later, AfterBatch;
    ghost var stored := w.s;
    ok := w.Yield(SqliteThread);
    if ok {
      AttachedMeanwhile(w.c, stored, w.s, j);
      var fired := AttachLoad(w, j);
      if fired {
        ghost var loaded := w.s;
        ok := w.Yield(SqliteThread);
        if ok {
          AttachedMeanwhile(w.c, loaded, w.s, j);
          AttachLocked(w, j);
        }
      }
    }
  }

  /** After the closure: detach, then one response. */
  method Deliver(w: World, j: JobId, result: Outcome) returns (outcome: Option<JobOutcome>)
    requires w.Valid() && w.s.pc.AtDetach? && w.s.pc.job == j && w.s.pc.outcome == result
    modifies w
    ensures |w.plan| <= |old(w.plan)| && w.Idled() < old(w.Idled()) && w.Valid()
    ensures outcome.Some? ==> SettledBy(j, old(w.s.log.ledger), w.s.log.ledger)
    ensures outcome.Some? ==> (outcome.value.Panicking? <==> result.Panic?)
    ensures outcome.Some? ==> (result.Panic? <==> IsPanic(w.s.log.ledger[|w.s.log.ledger| - 1].answer))
    ensures outcome.Some? && !result.Error? ==> w.s.log.ledger[|w.s.log.ledger| - 1].answer == Direct(result)
    ensures outcome.Some? ==> w.s.pc == if result.Panic? then AtHealth(false) else AtNext
    ensures outcome.None? ==> w.s.log.ledger == old(w.s.log.ledger) && w.plan == []
    ensures w.s.log.healthy == old(w.s.log.healthy) && w.s.log.exit == old(w.s.log.exit)
    ensures w.Rushed() <= old(w.Rushed()) + 1
  {
    hide Reachable, AfterBatch;
    ghost var cut := w.s.pc.cut;
    DetachToken(w, j);
    var ok := w.Yield(SqliteThread);
    if !ok { return None; }
    match result {
      case Fine(v) =>
        SendResponse(w, j, Ok(v));
        return Some(Completed);
      case Error(e) =>
        var err := NormalizeError(w, j, e, cut);
        if err.None? { return None; }
        if e.Interrupted? {
          ok := w.Yield(SqliteThread);
          if !ok { return None; }
        }
        ResponseIsClean(w.c, w.s);
        SendResponse(w, j, Err(err.value));
        return Some(Completed);
      case Panic =>
        SendResponse(w, j, Err(Panicked));
        return Some(Panicking);
    }
  }

  /** The wrapper of `make_job`.  When it returns, the job has exactly one new entry in the ledger, which is not a raw
      interrupt, and the outcome tells whether that entry is a panic. */
  method RunJob(w: World, j: JobId) returns (outcome: Option<JobOutcome>)
    requires w.Valid() && w.s.pc == AtFiredCheck(j)
    modifies w
    ensures |w.plan| <= |old(w.plan)| && w.Idled() < old(w.Idled())
    ensures w.Valid()
    ensures outcome.Some? ==> SettledBy(j, old(w.s.log.ledger), w.s.log.ledger)
    ensures outcome.Some? ==> (outcome.value.Panicking? <==> IsPanic(w.s.log.ledger[|w.s.log.ledger| - 1].answer))
    ensures outcome.Some? ==> w.s.pc == if outcome.value.Panicking? then AtHealth(false) else AtNext
    ensures outcome.None? ==> w.s.log.ledger == old(w.s.log.ledger) && w.plan == []
    ensures w.s.log.healthy == old(w.s.log.healthy) && w.s.log.exit == old(w.s.log.exit)
    ensures w.Rushed() <= old(w.Rushed()) + 1
  {
    hide Reachable, AfterBatch;
    var fired := FiredCheck(w, j);
    var ok := w.Yield(SqliteThread);
    if !ok { return None; }
    if fired.Some? {
      SendResponse(w, j, Err(fired.value));
      return Some(Completed);
    }

    ok := Attach(w, j);
    if !ok { return None; }
    var result := RunClosure(w, j);
    if result.None? { return None; }
    ok := w.Yield(SqliteThread);
    if !ok { return None; }
    outcome := Deliver(w, j, result.value);
  }

  /** `after` is `before` and one entry for job `j`, which is not a raw interrupt. */
  predicate SettledBy(j: JobId, before: seq<Entry>, after: seq<Entry>) {
    && |after| == |before| + 1 && before <= after
    && after[|before|].job == j && !RawInterrupt(after[|before|].answer)
  }

  /** One health check, after a panic. */
  method CheckHealth(w: World, usable: nat -> bool) returns (healthy: Option<bool>)
    requires w.Valid() && w.s.pc == AtHealth(false)
    modifies w
    ensures |w.plan| <= |old(w.plan)| && w.Idled() <= old(w.Idled())
    ensures w.Valid() && w.s.log.ledger == old(w.s.log.ledger)
    ensures w.s.log.healthy == old(w.s.log.healthy) + One(healthy == Some(true))
    ensures match healthy
            case None => w.plan == []
            case Some(true) => w.s.pc.AtNext? && usable(old(w.s.log.healthy))
            case Some(false) =>
              w.s.pc.AtExit? && w.s.log.exit.ByHealth? && (usable(old(w.s.log.healthy)) ==> w.s.mem.abort)
    ensures w.Rushed() <= old(w.Rushed())
  {
    hide Reachable, AfterBatch;
    var ok := w.Yield(SqliteThread);
    if !ok { return None; }
    BeginSelect1(w);
    ok := w.Yield(SqliteThread);
    if !ok { return None; }
    var passed := EndSelect1(w, usable(w.s.log.healthy));
    return Some(passed);
  }

  /** One dequeued job: drop it under abort, or run it and look after the connection if it panicked.  None is the end of
      the plan, Some(false) the end of the loop. */
  method Serve(w: World, j: JobId, usable: nat -> bool) returns (go: Option<bool>)
    requires w.Valid() && w.s.pc == AtAbortCheck(j)
    modifies w
    ensures |w.plan| <= |old(w.plan)| && w.Idled() <= old(w.Idled())
    ensures w.Valid() && old(w.s.log.ledger) <= w.s.log.ledger
    ensures old(w.s.log.healthy) <= w.s.log.healthy <= old(w.s.log.healthy) + 1
    ensures old(w.s.log.healthy) < w.s.log.healthy ==> usable(old(w.s.log.healthy))
    ensures match go
            case None => w.plan == []
            case Some(true) => w.s.pc.AtNext?
            case Some(false) => w.s.pc.AtExit? && w.s.log.exit.ByHealth? && (!usable(w.s.log.healthy) || w.s.mem.abort)
    ensures w.Rushed() <= old(w.Rushed())
  {
    hide Reachable, AfterBatch;
    var ok := w.Yield(SqliteThread);
    if !ok { return None; }
    var aborting := AbortCheck(w, j);
    if aborting { return Some(true); }
    ok := w.Yield(SqliteThread);
    if !ok { return None; }
    var outcome := RunJob(w, j);
    if outcome.None? { return None; }
    if outcome.value.Completed? { return Some(true); }
    go := CheckHealth(w, usable);
  }

  /** `run_loop`.  It stops only when it has left the loop for one of its three reasons, or when the plan is used up,
      and it takes a section in every turn that leaves it one.  The ledger only grows; every health check that passed
      found the connection usable, and one that failed found it broken or was interrupted by an aborting driver. */
  method RunLoop(w: World, usable: nat -> bool) returns (returned: bool)
    requires w.Valid() && w.s.pc.AtNext?
    modifies w
    ensures w.Valid() && old(w.s.log.ledger) <= w.s.log.ledger
    ensures if returned then w.s.pc.AtExit? && !w.s.log.exit.StillLooping? else w.plan == []
    ensures w.Idled() <= old(w.Idled())
    ensures old(w.s.log.healthy) <= w.s.log.healthy
    ensures forall n :: old(w.s.log.healthy) <= n < w.s.log.healthy ==> usable(n)
    ensures returned && w.s.log.exit.ByHealth? ==> !usable(w.s.log.healthy) || w.s.mem.abort
    ensures w.Rushed() <= old(w.Rushed())
  {
    hide Reachable, AfterBatch;
    while true
      invariant w.Valid() && w.s.pc.AtNext? && old(w.s.log.ledger) <= w.s.log.ledger
      invariant w.Idled() <= old(w.Idled()) && old(w.s.log.healthy) <= w.s.log.healthy
      invariant forall n :: old(w.s.log.healthy) <= n < w.s.log.healthy ==> usable(n)
      invariant w.Rushed() <= old(w.Rushed())
      decreases |w.plan|
    {
      var ok := w.Yield(SqliteThread);
      if !ok { return false; }
      if w.s.chan.queue == [] && w.s.chan.txOpen {
        continue;
      }
      var req := Receive(w);
      match req {
        case None => return true;
        case Some(Shutdown) => return true;
        case Some(Run(j)) =>
          var go := Serve(w, j, usable);
          if go.None? { return false; }
          if !go.value { return true; }
      }
    }
  }

  /** The thread's body: the loop, then the connection is dropped, the done signal sent (async only), and at last the
      receiver dropped. */
  method RunThread(w: World, usable: nat -> bool) returns (ended: bool)
    requires w.Valid() && w.s.pc.AtNext?
    modifies w
    ensures w.Valid() && old(w.s.log.ledger) <= w.s.log.ledger
    ensures ended ==> w.s.pc.Finished? && !w.s.chan.rxOpen && w.s.chan.queue == [] && !w.s.mem.conn.open
    ensures !ended ==> w.plan == []
    ensures w.Idled() <= old(w.Idled())
    ensures w.Rushed() <= old(w.Rushed())
  {
    hide Reachable, AfterBatch;
    ended := RunLoop(w, usable);
    while ended && !w.s.pc.Finished?
      invariant w.Valid() && old(w.s.log.ledger) <= w.s.log.ledger
      invariant w.Idled() <= old(w.Idled()) && (!ended ==> w.plan == [])
      invariant ended ==> w.s.pc.AtExit? || w.s.pc.AtDone? || w.s.pc.AtDropReceiver? || w.s.pc.Finished?
      invariant w.Rushed() <= old(w.Rushed())
      decreases |w.plan|, ended
    {
      ended := w.Yield(SqliteThread);
      if ended {
        LastSections(w);
      }
    }
    if ended {
      EndIsClosed(w.c, w.s);
    }
  }

  /** One of the three sections after the loop. */
  method LastSections(w: World)
    requires w.Valid() && (w.s.pc.AtExit? || w.s.pc.AtDone? || w.s.pc.AtDropReceiver?)
    modifies w`s, w`steps
    ensures w.steps == old(w.steps) + 1
    ensures w.Valid() && w.s.log.ledger == old(w.s.log.ledger)
    ensures w.s.pc == if old(w.s).pc.AtExit? then AtDone else if old(w.s).pc.AtDone? then AtDropReceiver else Finished
    ensures old(w.s).pc.AtDone? ==> w.s.log.doneSent == w.c.async
  {
    Placed(w.c, w.s);
    w.Do(Thread(true));
  }

  lemma EndIsClosed(c: Config, s: State)
    requires ValidConfig(c) && Reachable(c, s) && s.pc.Finished?
    ensures !s.chan.rxOpen && s.chan.queue == [] && !s.mem.conn.open
  {
    hide CutsBlamed, InProgress, Serial, AnswersAgree, NothingRaw, PanicsChecked, InOrder, SettledInOrder, AcceptedOnce;
    LedgerHolds(c, s);
    ChannelHolds(c, s);
  }
}
