/** The callers' side: submission and waiting (src/handle.rs, src/async_isle.rs, src/task.rs, src/async_task.rs) and
    the shutdown calls, as programs over the shared memory.  A program that runs out of plan stops, and
    says so in its result. */
module Handles {
  import opened Errors
  import opened Sqlite
  import opened Protocol
  import opened Invariant
  import opened Tokens
  import opened Runs
  import opened Evolution
  import opened Guarantees
  import opened Lifecycle
  import opened Worlds
  import opened ThreadBody

  // ── submission ────────────────────────────────────────────────────────────────────────────────────

  /** `make_job_task`: the next job, its fresh token, and a caller about to send it. */
  method MakeJobTask(w: World) returns (j: JobId)
    requires w.Valid() && w.s.chan.txOpen
    modifies w`s, w`steps
    ensures w.Valid() && j == |old(w.s).who.callers| && w.s == CreateJob(old(w.s))
    ensures w.s.who.callers[j].Sending? && w.s.mem.tokens == old(w.s).mem.tokens + [FRESH] && w.s.chan == old(w.s).chan
    ensures w.steps == old(w.steps) + 1
  {
    Placed(w.c, w.s);
    j := |w.s.who.callers|;
    w.Do(Create);
  }

  /** `tx.send`: wait for capacity.  The job is accepted, or the channel is closed. */
  method Send(w: World, j: JobId) returns (sent: Option<bool>)
    requires w.Valid() && j < |w.s.who.callers| && w.s.who.callers[j].Sending? && w.s.chan.txOpen
    modifies w
    ensures w.Valid() && j < |w.s.who.callers| && w.Idled() <= old(w.Idled()) && w.awaited == old(w.awaited)
    ensures sent.Some? && sent.value ==> w.s.who.callers[j].Waiting? && Run(j) in w.s.chan.accepted
    ensures sent.Some? && !sent.value ==> w.s.who.callers[j] == Rejected(Closed) && !w.s.chan.rxOpen
    ensures sent.None? ==> w.s.who.callers[j].Sending? && w.plan == []
    ensures w.Rushed() <= old(w.Rushed())
  {
    hide Reachable, Later, AfterBatch;
    while true
      invariant w.Valid() && j < |w.s.who.callers| && w.s.who.callers[j].Sending? && w.s.chan.txOpen
      invariant w.Idled() <= old(w.Idled()) && w.awaited == old(w.awaited)
      invariant w.Rushed() <= old(w.Rushed())
      decreases |w.plan|
    {
      var ok := w.Yield(CallerOf(j));
      if !ok { return None; }
      Placed(w.c, w.s);
      if !w.s.chan.rxOpen {
        w.Do(CallerStep(j, Rejected(Closed)));
        return Some(false);
      }
      if |w.s.chan.queue| < w.c.capacity {
        w.Do(CallerStep(j, Waiting));
        return Some(true);
      }
    }
  }

  /** `tx.try_send`: one attempt.  Accepting appends exactly this job; refusing changes nothing but the caller. */
  method TrySend(w: World, j: JobId) returns (refused: Option<IsleError>)
    requires w.Valid() && j < |w.s.who.callers| && w.s.who.callers[j].Sending? && w.s.chan.txOpen
    requires w.c.job(j).kind.TryCall?
    modifies w`s, w`steps
    ensures w.Valid() && j < |w.s.who.callers| && w.steps == old(w.steps) + 1
    ensures refused == if !old(w.s).chan.rxOpen then Some(Closed)
                       else if |old(w.s).chan.queue| >= w.c.capacity then Some(QueueFull) else None
    ensures w.s.chan == if refused.None? then Enqueue(old(w.s).chan, Run(j)) else old(w.s).chan
    ensures w.s.who.callers == old(w.s).who.callers[j := if refused.None? then Waiting else Rejected(refused.value)]
    ensures w.s.mem == old(w.s).mem && w.s.pc == old(w.s).pc && w.s.log == old(w.s).log
  {
    hide Reachable, Later, AfterBatch;
    Placed(w.c, w.s);
    if !w.s.chan.rxOpen {
      w.Do(CallerStep(j, Rejected(Closed)));
      return Some(Closed);
    }
    if |w.s.chan.queue| >= w.c.capacity {
      w.Do(CallerStep(j, Rejected(QueueFull)));
      return Some(QueueFull);
    }
    w.Do(CallerStep(j, Waiting));
    return None;
  }

  // ── waiting ───────────────────────────────────────────────────────────────────────────────────────

  /** `AsyncTask::poll`: the result if there is one, `Closed` if its sender was dropped, and nothing else happens. */
  method Poll(w: World, j: JobId) returns (r: Option<Answer>)
    requires w.Valid() && j < |w.s.who.callers| && w.s.who.callers[j].Waiting?
    modifies w`s, w`steps
    ensures w.steps == old(w.steps) + One(r.Some?)
    ensures r.Some? ==> WaitResult(w.s, j) == r
    ensures w.Valid() && r == WaitResult(old(w.s), j) && Later(w.c, old(w.s), w.s)
    ensures var who := old(w.s).who;
            var callers := if r.Some? then who.callers[j := Returned(r.value)] else who.callers;
            w.s == old(w.s).(who := who.(callers := callers))
  {
    LaterThanItself(w.c, w.s);
    hide Reachable, Later, AfterBatch, Settled;
    Placed(w.c, w.s);
    r := WaitResult(w.s, j);
    if r.Some? {
      w.Do(CallerStep(j, Returned(r.value)));
    }
  }

  /** `Task::wait`, and awaiting an `AsyncTask`: block until there is a result and take it. */
  method Wait(w: World, j: JobId) returns (r: Option<Answer>)
    requires w.Valid() && j < |w.s.who.callers| && w.s.who.callers[j].Waiting?
    modifies w
    ensures w.Valid() && j < |w.s.who.callers|
    ensures r.Some? ==> w.s.who.callers[j] == Returned(r.value) && WaitResult(w.s, j) == r
    ensures r.None? ==> w.s.who.callers[j].Waiting? && w.plan == []
    ensures w.Idled() <= old(w.Idled())
    ensures Later(w.c, old(w.s), w.s) && w.awaited >= old(w.awaited)
    ensures w.Rushed() <= old(w.Rushed())
  {
    LaterThanItself(w.c, w.s);
    hide Reachable, Later, AfterBatch, Settled;
    while true
      invariant w.Valid() && j < |w.s.who.callers| && w.s.who.callers[j].Waiting? && Later(w.c, old(w.s), w.s)
      invariant w.Idled() <= old(w.Idled()) && w.awaited >= old(w.awaited)
      invariant w.Rushed() <= old(w.Rushed())
      decreases |w.plan|
    {
      ghost var before := w.s;
      var ok := w.Yield(CallerOf(j));
      if !ok { return None; }
      LaterTransitively(w.c, old(w.s), before, w.s);
      before := w.s;
      r := Poll(w, j);
      if r.Some? {
        LaterTransitively(w.c, old(w.s), before, w.s);
        return;
      }
    }
  }

  /** `call`: the result is the job's one result, and never `Cancelled`, `Timeout` or a raw interrupt. */
  method CallJob(w: World) returns (r: Option<Answer>)
    requires w.Valid() && w.s.chan.txOpen && w.c.job(|w.s.who.callers|).kind.Call?
    modifies w
    ensures w.Valid() && w.Idled() <= old(w.Idled()) && (r.None? ==> w.plan == [])
    ensures r.Some? ==> r.value != Err(Cancelled) && r.value != Err(Timeout) && !RawInterrupt(r.value)
    ensures var j := |old(w.s).who.callers|;
            r.Some? ==>
              if Run(j) in w.s.chan.accepted then WaitResult(w.s, j) == r
              else r.value == Err(Closed) && !w.s.chan.rxOpen
    ensures w.Rushed() <= old(w.Rushed()) + 1
  {
    hide Reachable, Later, AfterBatch, WaitResult;
    var j := MakeJobTask(w);
    var sent := Send(w, j);
    if sent.None? { return None; }
    if !sent.value {
      RefusedNotAccepted(w.c, w.s, j);
      return Some(Err(Closed));
    }
    r := Wait(w, j);
    if r.Some? {
      ReturnedWasAccepted(w.c, w.s, j);
      AnswersNameTheReason(w.c, w.s, j);
      NoRawInterrupt(w.c, w.s, j, r.value);
    }
  }

  lemma ReturnedWasAccepted(c: Config, s: State, j: JobId)
    requires ValidConfig(c) && Reachable(c, s) && j < |s.who.callers| && s.who.callers[j].Returned?
    ensures Run(j) in s.chan.accepted
  {
    hide InOrder, SettledInOrder;
    ChannelHolds(c, s);
  }

  lemma RefusedNotAccepted(c: Config, s: State, j: JobId)
    requires ValidConfig(c) && Reachable(c, s) && j < |s.who.callers|
    requires s.who.callers[j].Sending? || s.who.callers[j].Rejected?
    ensures Run(j) !in s.chan.accepted
  {
    hide InOrder, SettledInOrder;
    ChannelHolds(c, s);
  }

  /** What came of waiting with a deadline: a result, none in time, or the end of the plan. */
  datatype Received = InTime(a: Answer) | Elapsed | Stopped

  /** `rx.recv_timeout`: take a result that comes within `patience + 1` turns. */
  method RecvTimeout(w: World, j: JobId, patience: nat) returns (r: Received)
    requires w.Valid() && j < |w.s.who.callers| && w.s.who.callers[j].Waiting?
    modifies w
    ensures w.Valid() && j < |w.s.who.callers| && w.Idled() <= old(w.Idled())
    ensures w.awaited <= old(w.awaited) + patience + 1
    ensures match r
            case InTime(a) => w.s.who.callers[j] == Returned(a) && WaitResult(w.s, j) == Some(a)
            case Elapsed =>
              w.s.who.callers[j].Waiting? && WaitResult(w.s, j).None? && w.awaited == old(w.awaited) + patience + 1
            case Stopped => w.s.who.callers[j].Waiting? && w.plan == []
    ensures w.Rushed() <= old(w.Rushed())
  {
    hide Reachable, Later, AfterBatch, WaitResult;
    for looks := 0 to patience + 1
      invariant w.Valid() && j < |w.s.who.callers| && w.s.who.callers[j].Waiting?
      invariant w.Idled() <= old(w.Idled()) && w.awaited == old(w.awaited) + looks
      invariant w.Rushed() <= old(w.Rushed())
      invariant looks > 0 ==> WaitResult(w.s, j).None?
    {
      var ok := w.Yield(CallerOf(j));
      if !ok { return Stopped; }
      var now := Poll(w, j);
      if now.Some? {
        return InTime(now.value);
      }
    }
    return Elapsed;
  }

  /** `call_timeout`: if no result comes in time, expire the token and wait on.  Never `Cancelled`.  A call that has
      waited for longer than its patience has fired the token, both sections of it. */
  method CallWithTimeout(w: World, patience: nat) returns (r: Option<Answer>, inTime: bool)
    requires w.Valid() && w.s.chan.txOpen && w.c.job(|w.s.who.callers|).kind.CallTimeout?
    modifies w
    ensures w.Valid() && w.Idled() <= old(w.Idled()) && (r.None? ==> w.plan == [])
    ensures r.Some? ==> r.value != Err(Cancelled) && !RawInterrupt(r.value)
    ensures var j := |old(w.s).who.callers|;
            r.Some? ==>
              if Run(j) in w.s.chan.accepted then WaitResult(w.s, j) == r
              else r.value == Err(Closed) && !w.s.chan.rxOpen
    ensures var j := |old(w.s).who.callers|;
            r.Some? && Run(j) in w.s.chan.accepted ==>
              if inTime then w.awaited <= old(w.awaited) + patience + 1
              else w.awaited > old(w.awaited) + patience && HasFired(w.s.mem.tokens, j) &&
                   exists f: nat :: FireDone(w.s, f, j)
    ensures w.Rushed() <= old(w.Rushed()) + 1
  {
    hide Reachable, Later, AfterBatch, WaitResult, HasFired, FireDone;
    inTime := true;
    var j := MakeJobTask(w);
    var sent := Send(w, j);
    if sent.None? { return None, inTime; }
    if !sent.value {
      RefusedNotAccepted(w.c, w.s, j);
      return Some(Err(Closed)), inTime;
    }
    var received := RecvTimeout(w, j, patience);
    match received {
      case Stopped => return None, inTime;
      case InTime(a) => r := Some(a);
      case Elapsed =>
        inTime := false;
        r := ExpireAndWait(w, j);
        if r.None? { return; }
    }
    ReturnedWasAccepted(w.c, w.s, j);
    AnswersNameTheReason(w.c, w.s, j);
    NoRawInterrupt(w.c, w.s, j, r.value);
  }

  /** After the deadline: fire, and wait for the result. */
  method ExpireAndWait(w: World, j: JobId) returns (r: Option<Answer>)
    requires w.Valid() && j < |w.s.who.callers| && w.s.who.callers[j].Waiting? && w.c.job(j).kind.CallTimeout?
    modifies w
    ensures w.Valid() && j < |w.s.who.callers| && w.Idled() <= old(w.Idled()) && w.awaited >= old(w.awaited)
    ensures r.None? ==> w.plan == []
    ensures r.Some? ==> w.s.who.callers[j] == Returned(r.value) && WaitResult(w.s, j) == r
    ensures r.Some? ==> HasFired(w.s.mem.tokens, j) && exists f: nat :: FireDone(w.s, f, j)
    ensures w.Rushed() <= old(w.Rushed())
  {
    hide Reachable, Later, AfterBatch, WaitResult, HasFired, FireDone;
    var ok := w.Yield(CallerOf(j));
    if !ok { return None; }
    ghost var f := |w.s.who.fires|;
    ok := Expire(w, j);
    if !ok { return None; }
    ghost var before := w.s;
    r := Wait(w, j);
    ReasonIsFinal(w.c, before, w.s, j);
    FireStaysDone(w.c, before, w.s, f, j);
  }

  lemma FireStaysDone(c: Config, s: State, t: State, f: nat, j: JobId)
    requires ValidConfig(c) && Reachable(c, s) && Later(c, s, t) && FireDone(s, f, j)
    ensures FireDone(t, f, j)
  {
    hide Settling, Grew, CallersSettle, Chances;
    LaterEvolves(c, s, t);
  }

  /** Both sections of fire `f`, on the token of job `j`, are done. */
  predicate FireDone(s: State, f: nat, j: JobId) {
    f < |s.who.fires| && s.who.fires[f].job == j && s.who.fires[f].locked.Some?
  }

  /** `fire`, by a job's own caller: first the state, then the handle. */
  method FireToken(w: World, j: JobId, r: Reason) returns (ok: bool)
    requires w.Valid() && j < |w.s.who.callers| && MayFire(w.c, w.s, j, r)
    modifies w
    ensures w.Valid() && j < |w.s.who.callers| && w.s.who.callers[j] == old(w.s).who.callers[j]
    ensures HasFired(w.s.mem.tokens, j) && (ok ==> FireDone(w.s, |old(w.s).who.fires|, j))
    ensures ok && InWindow(w.s.pc, j) ==> ByToken(j) in w.s.mem.conn.pending
    ensures !ok ==> w.plan == []
    ensures w.Idled() < old(w.Idled()) && w.awaited == old(w.awaited)
    ensures w.Rushed() <= old(w.Rushed()) + 1
    ensures |w.plan| <= |old(w.plan)|
  {
    hide Reachable, Later, AfterBatch, WaitResult;
    Placed(w.c, w.s);
    var f := |w.s.who.fires|;
    w.Do(FireCas(j, r));
    ok := w.Yield(CallerFiring(j, f));
    FiredHolds(w.c, w.s, f);
    if ok {
      Placed(w.c, w.s);
      if InWindow(w.s.pc, j) {
        FireRaisesFlag(w.c, w.s, f);
      }
      w.Do(FireLock(f));
      FiredHolds(w.c, w.s, f);
    }
  }

  /** `token.expire()`, by the caller that waits. */
  method Expire(w: World, j: JobId) returns (ok: bool)
    requires w.Valid() && j < |w.s.who.callers| && w.s.who.callers[j].Waiting? && w.c.job(j).kind.CallTimeout?
    modifies w
    ensures w.Valid() && j < |w.s.who.callers| && w.s.who.callers[j].Waiting?
    ensures HasFired(w.s.mem.tokens, j) && (ok ==> FireDone(w.s, |old(w.s).who.fires|, j))
    ensures ok && InWindow(w.s.pc, j) ==> ByToken(j) in w.s.mem.conn.pending
    ensures !ok ==> w.plan == []
    ensures w.Idled() < old(w.Idled()) && w.awaited == old(w.awaited)
    ensures w.Rushed() <= old(w.Rushed()) + 1
  {
    hide Reachable, Later, AfterBatch, WaitResult;
    ok := FireToken(w, j, Reason.Expire);
  }

  lemma FiredHolds(c: Config, s: State, f: nat)
    requires ValidConfig(c) && Reachable(c, s) && f < |s.who.fires|
    ensures HasFired(s.mem.tokens, s.who.fires[f].job)
  {
    hide HandlesAgree, FiresAnswered;
    TokensHold(c, s);
  }

  /** `Drop for AsyncTask`: unless the handle was detached, a fire on the job's token is made, both sections of it.
      Dropping never blocks, so only the plan can stop it. */
  method DropTask(w: World, j: JobId, detached: bool) returns (ok: bool)
    requires w.Valid() && w.c.async && j < |w.s.who.callers|
    modifies w
    ensures w.Valid()
    ensures !detached ==> HasFired(w.s.mem.tokens, j)
    ensures !detached && ok && InWindow(w.s.pc, j) ==> ByToken(j) in w.s.mem.conn.pending
    ensures !ok ==> w.plan == []
    ensures !detached && ok ==> exists f: nat :: |old(w.s).who.fires| <= f && FireDone(w.s, f, j)
    ensures detached ==> ok && w.s.mem == old(w.s.mem)
    ensures w.plan != [] ==> w.Rushed() <= old(w.Rushed()) + 1
  {
    hide Reachable, Later, AfterBatch, WaitResult, FireDone;
    Placed(w.c, w.s);
    ghost var before := |w.s.who.fires|;
    if w.s.who.callers[j].Sending? || w.s.who.callers[j].Waiting? {
      w.Do(CallerStep(j, Abandoned));
    }
    if detached {
      return true;
    }
    ghost var given := w.s;
    var _ := w.Yield(CallerOf(j));
    FiresStay(w.c, given, w.s);
    ghost var f := |w.s.who.fires|;
    ok := FireToken(w, j, Reason.Cancel);
    assert ok ==> before <= f && FireDone(w.s, f, j);
  }

  lemma FiresStay(c: Config, s: State, t: State)
    requires ValidConfig(c) && Reachable(c, s) && Later(c, s, t)
    ensures |s.who.fires| <= |t.who.fires|
  {
    hide Settling, Grew, CallersSettle, Chances;
    LaterEvolves(c, s, t);
  }

  // ── shutdown ──────────────────────────────────────────────────────────────────────────────────────

  /** What a shutdown call that waited for the thread can rely on. */
  ghost predicate EndedCleanly(s: State) {
    && s.pc.Finished? && !s.chan.rxOpen
    && forall j: JobId :: Run(j) in s.chan.accepted ==> WaitResult(s, j).Some?
  }

  lemma JoinedIsClean(c: Config, s: State, k: nat)
    requires ValidConfig(c) && Reachable(c, s) && k < |s.who.closers|
    requires s.who.closers[k].CloserReturned? && (c.async || s.who.closers[k].joined)
    ensures EndedCleanly(s)
  {
    hide WaitResult;
    ReturnedAfterEnd(c, s, k);
    ChannelHolds(c, s);
    forall j: JobId | Run(j) in s.chan.accepted
      ensures WaitResult(s, j).Some?
    {
      AllResolvedAtEnd(c, s, j);
    }
  }

  /** Call `k`, which stood at `was`, has just taken the section it stood at, to its full effect. */
  predicate Advanced(c: Config, was: Closer, t: State, k: nat) {
    && k < |t.who.closers|
    && match was
       case StoringAbort => t.who.closers[k].Interrupting? && t.mem.abort
       case Interrupting => t.who.closers[k].SendingShutdown? && (t.mem.conn.open ==> ByDriver in t.mem.conn.pending)
       case SendingShutdown =>
         && t.who.closers[k] == (if c.async then AwaitingDone else TakingJoin)
         && (t.chan.rxOpen ==> t.chan.accepted != [] && t.chan.accepted[|t.chan.accepted| - 1] == Shutdown)
       case AwaitingDone => t.who.closers[k].TakingJoin?
       case TakingJoin => !t.who.joinHeld && (t.who.closers[k].Joining? || t.who.closers[k] == CloserReturned(false))
       case Joining => t.who.closers[k] == CloserReturned(true)
       case CloserReturned(_) => true
  }

  lemma CloserAdvances(c: Config, s: State, k: nat)
    requires Enabled(c, s, CloserStep(k))
    ensures Advanced(c, s.who.closers[k], Apply(c, s, CloserStep(k)), k)
  {
  }

  /** Wait until shutdown call `k` may take its next section, and take it. */
  method Advance(w: World, k: nat) returns (ok: bool)
    requires w.Valid() && k < |w.s.who.closers| && !w.s.who.closers[k].CloserReturned?
    modifies w
    ensures |w.plan| <= |old(w.plan)| && w.Valid() && k < |w.s.who.closers| && Later(w.c, old(w.s), w.s)
    ensures w.Idled() <= old(w.Idled())
    ensures !ok ==> w.s.who.closers[k] == old(w.s).who.closers[k] && w.plan == []
    ensures ok ==> Advanced(w.c, old(w.s).who.closers[k], w.s, k)
    ensures w.Rushed() <= old(w.Rushed())
  {
    LaterThanItself(w.c, w.s);
    hide Reachable, Later, AfterBatch, Apply, Advanced, AdvanceCloser;
    while true
      invariant w.Valid() && k < |w.s.who.closers| && w.s.who.closers[k] == old(w.s).who.closers[k]
      invariant w.Idled() <= old(w.Idled())
      invariant |w.plan| <= |old(w.plan)| && Later(w.c, old(w.s), w.s)
      invariant w.Rushed() <= old(w.Rushed())
      decreases |w.plan|
    {
      ghost var before := w.s;
      var more := w.Yield(CloserOf(k));
      LaterTransitively(w.c, old(w.s), before, w.s);
      if !more { return false; }
      Placed(w.c, w.s);
      before := w.s;
      if CloserMay(w.c, w.s, k) {
        CloserAdvances(w.c, w.s, k);
        w.Do(CloserStep(k));
        LaterTransitively(w.c, old(w.s), before, w.s);
        return true;
      }
    }
  }

  /** `join.lock().take()`, and `join.join()` by the call that got the handle. */
  method TakeAndJoin(w: World, k: nat) returns (joined: Option<bool>)
    requires w.Valid() && k < |w.s.who.closers| && w.s.who.closers[k].TakingJoin?
    modifies w
    ensures w.Idled() <= old(w.Idled()) && (joined.None? ==> w.plan == [])
    ensures w.Valid() && k < |w.s.who.closers| && Later(w.c, old(w.s), w.s)
    ensures joined.Some? ==> w.s.who.closers[k] == CloserReturned(joined.value)
    ensures joined.Some? && (w.c.async || joined.value) ==> EndedCleanly(w.s)
    ensures w.Rushed() <= old(w.Rushed())
  {
    hide Reachable, Later, AfterBatch, EndedCleanly;
    var ok := Advance(w, k);
    if !ok { return None; }
    if w.s.who.closers[k].Joining? {
      ghost var taken := w.s;
      ok := Advance(w, k);
      LaterTransitively(w.c, old(w.s), taken, w.s);
      if !ok { return None; }
    }
    joined := Some(w.s.who.closers[k].joined);
    if w.c.async || joined.value {
      JoinedIsClean(w.c, w.s, k);
    }
  }

  /** `Isle::shutdown`: any number of callers at once; the one that takes the join handle waits for the thread. */
  method ShutdownSync(w: World) returns (joined: Option<bool>)
    requires w.Valid() && w.s.chan.txOpen && !w.c.async
    modifies w
    ensures w.Idled() <= old(w.Idled()) && (joined.None? ==> w.plan == [])
    ensures w.Valid()
    ensures joined.Some? && joined.value ==> EndedCleanly(w.s)
    ensures var k := |old(w.s).who.closers|;
            joined.Some? ==> k < |w.s.who.closers| && w.s.who.closers[k] == CloserReturned(joined.value)
    ensures w.Rushed() <= old(w.Rushed()) + 1
  {
    hide Reachable, Later, AfterBatch, EndedCleanly;
    Placed(w.c, w.s);
    var k := |w.s.who.closers|;
    w.Do(OpenCloser(false));
    var ok := Advance(w, k);
    if !ok { return None; }
    joined := TakeAndJoin(w, k);
  }

  /** `Drop for Isle`: one attempt to send `Shutdown`, which neither blocks nor joins.  If there is room the message is
      the last of the channel. */
  method DropIsle(w: World)
    requires w.Valid() && w.s.chan.txOpen && !w.c.async
    modifies w`s, w`steps
    ensures w.Valid()
    ensures if old(w.s).chan.rxOpen && |old(w.s).chan.queue| < w.c.capacity then
              && w.s.chan.accepted == old(w.s).chan.accepted + [Shutdown]
              && w.s.chan.queue == old(w.s).chan.queue + [Shutdown]
            else w.s.chan == old(w.s).chan
    ensures w.s == old(w.s).(chan := w.s.chan)
  {
    Placed(w.c, w.s);
    if w.s.chan.rxOpen && |w.s.chan.queue| < w.c.capacity {
      w.Do(HintShutdown);
    }
  }

  /** `AsyncIsleDriver::finish`: the done signal, then the join. */
  method Finish(w: World, k: nat) returns (joined: Option<bool>)
    requires w.Valid() && k < |w.s.who.closers| && w.s.who.closers[k].AwaitingDone? && w.c.async
    modifies w
    ensures w.Idled() <= old(w.Idled()) && (joined.None? ==> w.plan == [])
    ensures w.Valid() && Later(w.c, old(w.s), w.s)
    ensures joined.Some? ==> EndedCleanly(w.s)
    ensures w.Rushed() <= old(w.Rushed())
  {
    hide Reachable, Later, AfterBatch, EndedCleanly;
    var ok := Advance(w, k);
    if !ok { return None; }
    ghost var done := w.s;
    joined := TakeAndJoin(w, k);
    LaterTransitively(w.c, old(w.s), done, w.s);
  }

  /** `AsyncIsleDriver::shutdown`, which consumes the driver. */
  method ShutdownAsync(w: World) returns (joined: Option<bool>)
    requires w.Valid() && w.s.chan.txOpen && w.c.async && w.s.who.closers == []
    modifies w
    ensures w.Idled() <= old(w.Idled()) && (joined.None? ==> w.plan == [])
    ensures w.Valid()
    ensures joined.Some? ==> EndedCleanly(w.s)
    ensures w.Rushed() <= old(w.Rushed()) + 1
  {
    hide Reachable, Later, AfterBatch, EndedCleanly;
    Placed(w.c, w.s);
    w.Do(OpenCloser(false));
    var ok := Advance(w, 0);
    if !ok { return None; }
    joined := Finish(w, 0);
  }

  /** `AsyncIsleDriver::shutdown_now`: first the abort flag, then the interrupt, then the message.  Wherever the call
      has got to, the flag is set before it is past its first section. */
  method ShutdownNow(w: World) returns (joined: Option<bool>)
    requires w.Valid() && w.s.chan.txOpen && w.c.async && w.s.who.closers == []
    modifies w
    ensures w.Idled() <= old(w.Idled()) && (joined.None? ==> w.plan == [])
    ensures w.Valid()
    ensures joined.Some? ==> EndedCleanly(w.s) && w.s.mem.abort
    ensures |w.s.who.closers| > 0 && (w.s.who.closers[0].StoringAbort? || w.s.mem.abort)
    ensures w.Rushed() <= old(w.Rushed()) + 1
  {
    hide Reachable, Later, AfterBatch, EndedCleanly;
    Placed(w.c, w.s);
    w.Do(OpenCloser(true));
    var ok := Advance(w, 0);
    if !ok { return None; }
    ghost var aborting := w.s;
    ok := Advance(w, 0);
    AbortStays(w.c, aborting, w.s);
    if !ok { return None; }
    ghost var interrupted := w.s;
    ok := Advance(w, 0);
    AbortStays(w.c, interrupted, w.s);
    if !ok { return None; }
    ghost var sent := w.s;
    joined := Finish(w, 0);
    AbortStays(w.c, sent, w.s);
    AbortHasCaller(w.c, w.s);
  }

  lemma AbortHasCaller(c: Config, s: State)
    requires ValidConfig(c) && Reachable(c, s) && s.mem.abort
    ensures s.who.closers != []
  {
    PeopleHold(c, s);
  }
}
