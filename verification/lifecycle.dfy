/** What becomes of every job: one resolution each, in order, through shutdown, abort, panics and backpressure. */
module Lifecycle {
  import opened Errors
  import opened Sqlite
  import opened Protocol
  import opened Invariant
  import opened Preservation
  import opened Runs
  import opened Evolution
  import opened Guarantees

  // ── every accepted job is resolved once ───────────────────────────────────────────────────────────

  /** The receiver was dropped with the job still in the channel. */
  ghost predicate DroppedUnread(s: State, j: JobId) {
    s.pc.Finished? && s.chan.taken <= |s.chan.accepted| && Run(j) in s.chan.accepted[s.chan.taken..]
  }

  /** Where the i-th accepted request is, by position alone. */
  lemma PlaceOf(c: Config, s: State, i: nat, j: JobId)
    requires ValidConfig(c) && Reachable(c, s) && i < |s.chan.accepted| && s.chan.accepted[i] == Run(j)
    ensures Run(j) in s.chan.queue <==> s.chan.rxOpen && i >= s.chan.taken
    ensures CurrentJob(s.pc) == Some(j) <==> |s.log.ledger| <= i < s.chan.taken
    ensures InLedger(s.log.ledger, j) <==> i < |s.log.ledger|
    ensures DroppedUnread(s, j) <==> s.pc.Finished? && i >= s.chan.taken
  {
    ChannelHolds(c, s);
    var accepted, n := s.chan.accepted, |s.log.ledger|;
    assert forall k :: 0 <= k < |accepted| && accepted[k] == Run(j) ==> k == i;
    if i < n {
      assert s.log.ledger[i].job == j;
    }
    if i >= s.chan.taken {
      assert accepted[s.chan.taken..][i - s.chan.taken] == Run(j);
    }
  }

  /** Exactly once: every accepted job is in exactly one place, and no job has two entries in the ledger. */
  lemma ExactlyOnce(c: Config, s: State, j: JobId)
    requires ValidConfig(c) && Reachable(c, s) && Run(j) in s.chan.accepted
    ensures One(Run(j) in s.chan.queue) + One(CurrentJob(s.pc) == Some(j)) + One(InLedger(s.log.ledger, j)) +
            One(DroppedUnread(s, j)) == 1
    ensures forall a, b :: 0 <= a < b < |s.log.ledger| ==> s.log.ledger[a].job != s.log.ledger[b].job
  {
    hide DroppedUnread, InLedger;
    var i :| 0 <= i < |s.chan.accepted| && s.chan.accepted[i] == Run(j);
    PlaceOf(c, s, i, j);
    ChannelHolds(c, s);
    forall a, b | 0 <= a < b < |s.log.ledger|
      ensures s.log.ledger[a].job != s.log.ledger[b].job
    {
      SettledOnce(s.chan.accepted, s.who.callers, s.log.ledger, a, b);
    }
  }

  lemma {:induction false} EntryIsSettled(ledger: seq<Entry>, i: nat)
    requires i < |ledger| && forall a, b :: 0 <= a < b < |ledger| ==> ledger[a].job != ledger[b].job
    ensures Settled(ledger, ledger[i].job) == Some(ledger[i].answer)
  {
    var n := |ledger| - 1;
    if i < n {
      EntryIsSettled(ledger[..n], i);
    }
  }

  lemma LedgerIsSettled(c: Config, s: State, i: nat)
    requires ValidConfig(c) && Reachable(c, s) && i < |s.log.ledger|
    ensures Settled(s.log.ledger, s.log.ledger[i].job) == Some(s.log.ledger[i].answer)
  {
    hide AcceptedOnce, InOrder, SettledInOrder;
    ChannelHolds(c, s);
    forall a, b | 0 <= a < b < |s.log.ledger|
      ensures s.log.ledger[a].job != s.log.ledger[b].job
    {
      SettledOnce(s.chan.accepted, s.who.callers, s.log.ledger, a, b);
    }
    EntryIsSettled(s.log.ledger, i);
  }

  /** A result, once there, is the result for good. */
  lemma ResultIsFinal(c: Config, s: State, t: State, j: JobId)
    requires ValidConfig(c) && Reachable(c, s) && Later(c, s, t) && WaitResult(s, j).Some?
    ensures WaitResult(t, j) == WaitResult(s, j)
  {
    hide Grew, CallersSettle, FiresSettle, Chances;
    LaterEvolves(c, s, t);
    LaterIsReachable(c, s, t);
    if Settled(s.log.ledger, j).Some? {
      SettledIsEntry(s.log.ledger, j);
      var i :| 0 <= i < |s.log.ledger| && s.log.ledger[i].job == j &&
               Settled(s.log.ledger, j) == Some(s.log.ledger[i].answer);
      assert t.log.ledger[i] == s.log.ledger[i];
      LedgerIsSettled(c, t, i);
    }
  }

  /** Once the thread has ended every accepted job has its result: its one answer if it was settled, `Closed` if
      it was never read. */
  lemma AllResolvedAtEnd(c: Config, s: State, j: JobId)
    requires ValidConfig(c) && Reachable(c, s) && s.pc.Finished? && Run(j) in s.chan.accepted
    ensures WaitResult(s, j).Some?
    ensures DroppedUnread(s, j) ==> WaitResult(s, j) == Some(Err(Closed))
    ensures !DroppedUnread(s, j) ==>
              (exists i :: 0 <= i < |s.log.ledger| && s.log.ledger[i].job == j &&
                 WaitResult(s, j) == Some(s.log.ledger[i].answer))
  {
    hide DroppedUnread;
    var k :| 0 <= k < |s.chan.accepted| && s.chan.accepted[k] == Run(j);
    PlaceOf(c, s, k, j);
    ExactlyOnce(c, s, j);
    if InLedger(s.log.ledger, j) {
      var i :| 0 <= i < |s.log.ledger| && s.log.ledger[i].job == j;
      LedgerIsSettled(c, s, i);
      assert s.log.ledger[i].job == j && WaitResult(s, j) == Some(s.log.ledger[i].answer);
    } else if Settled(s.log.ledger, j).Some? {
      SettledIsEntry(s.log.ledger, j);
    }
  }

  // ── shutdown ──────────────────────────────────────────────────────────────────────────────────────

  /** The first `Shutdown` was accepted at position `k`. */
  predicate FirstShutdown(accepted: seq<Request>, k: nat) {
    k < |accepted| && accepted[k].Shutdown? && forall i :: 0 <= i < k ==> accepted[i].Run?
  }

  /** The loop drains what is ahead of the first `Shutdown`, in order, in at most k + 1 dequeues whatever is
      appended later, and never touches what is behind it. */
  lemma DrainsUpToShutdown(c: Config, s: State, k: nat)
    requires ValidConfig(c) && Reachable(c, s) && FirstShutdown(s.chan.accepted, k)
    ensures s.chan.taken <= k + 1 && |s.log.ledger| <= k
    ensures s.chan.taken == k + 1 ==> s.log.exit.ByShutdown?
    ensures forall i :: 0 <= i < |s.log.ledger| ==> s.chan.accepted[i] == Run(s.log.ledger[i].job)
    ensures !Looping(s.pc) ==> s.log.exit.ByHealth? || |s.log.ledger| == k
    ensures !s.mem.abort ==> forall i :: 0 <= i < |s.log.ledger| ==> !s.log.ledger[i].fate.Discarded?
    ensures forall i: nat, j: JobId :: k < i < |s.chan.accepted| && s.chan.accepted[i] == Run(j) ==>
              !InLedger(s.log.ledger, j) && CurrentJob(s.pc) != Some(j)
  {
    ChannelHolds(c, s);
    hide InLedger;
    forall i: nat, j: JobId | k < i < |s.chan.accepted| && s.chan.accepted[i] == Run(j)
      ensures !InLedger(s.log.ledger, j) && CurrentJob(s.pc) != Some(j)
    {
      PlaceOf(c, s, i, j);
    }
    NoDiscardWithoutAbort(c, s);
  }

  lemma NoDiscardWithoutAbort(c: Config, s: State)
    requires ValidConfig(c) && Reachable(c, s)
    ensures !s.mem.abort ==> forall i :: 0 <= i < |s.log.ledger| ==> !s.log.ledger[i].fate.Discarded?
  {
    hide CutsBlamed, ConnAgrees, PanicsChecked, InProgress, Serial, AnswersAgree;
    LedgerHolds(c, s);
  }

  /** Once the thread has ended nothing more is accepted: every submission is turned away with `Closed`. */
  lemma EndedTurnsAway(c: Config, s: State, t: State, j: JobId)
    requires ValidConfig(c) && Reachable(c, s) && Later(c, s, t) && s.pc.Finished?
    ensures t.pc.Finished? && t.chan.accepted == s.chan.accepted
    ensures !CallerMay(c, t, j, Waiting)
    ensures j < |t.who.callers| && t.who.callers[j].Sending? ==> CallerMay(c, t, j, Rejected(Closed))
    ensures forall why :: CallerMay(c, t, j, Rejected(why)) ==> why.Closed?
  {
    hide Chances, FiresSettle, Grew, InOrder, SettledInOrder, AcceptedOnce;
    LaterEvolves(c, s, t);
    LaterIsReachable(c, s, t);
    ChannelHolds(c, t);
  }

  lemma ReturnedAfterEnd(c: Config, s: State, k: nat)
    requires ValidConfig(c) && Reachable(c, s) && k < |s.who.closers|
    requires s.who.closers[k].CloserReturned? && (c.async || s.who.closers[k].joined)
    ensures s.pc.Finished?
  {
    hide CallersAgree;
    PeopleHold(c, s);
  }

  /** A shutdown call that took the join handle returns only when the thread has ended: its receiver is gone, every
      accepted job has its result, and from then on nothing is accepted any more.  On the async side every returned
      call took the handle. */
  lemma ShutdownCompletes(c: Config, s: State, k: nat, t: State, j: JobId)
    requires ValidConfig(c) && Reachable(c, s) && Later(c, s, t)
    requires k < |s.who.closers| && s.who.closers[k].CloserReturned? && (c.async || s.who.closers[k].joined)
    ensures s.pc.Finished? && t.chan.accepted == s.chan.accepted
    ensures Run(j) in s.chan.accepted ==> WaitResult(s, j).Some?
    ensures !CallerMay(c, t, j, Waiting)
    ensures j < |t.who.callers| && t.who.callers[j].Sending? ==> CallerMay(c, t, j, Rejected(Closed))
    ensures forall why :: CallerMay(c, t, j, Rejected(why)) ==> why.Closed?
  {
    hide WaitResult, CallerMay;
    ReturnedAfterEnd(c, s, k);
    EndedTurnsAway(c, s, t, j);
    if Run(j) in s.chan.accepted {
      AllResolvedAtEnd(c, s, j);
    }
  }

  // ── abort ─────────────────────────────────────────────────────────────────────────────────────────

  /** Once the abort flag is stored at most one more closure starts: that of the job, if any, whose abort check
      came first. */
  lemma AbortStopsStarts(c: Config, s: State, t: State)
    requires ValidConfig(c) && Reachable(c, s) && Later(c, s, t) && s.mem.abort
    ensures StartedSoFar(t) <= StartedSoFar(s) + One(AboutToStart(s.pc))
  {
    hide Grew, CallersSettle, FiresSettle, Settling;
    LaterEvolves(c, s, t);
  }

  /** From position `n` on the ledger holds only discarded jobs, and no such job is past its abort check. */
  predicate OnlyDiscards(pc: Pc, ledger: seq<Entry>, n: nat) {
    && (forall i :: n <= i < |ledger| ==> ledger[i].fate.Discarded?)
    && (n <= |ledger| ==> CurrentJob(pc).None? || pc.AtAbortCheck?)
  }

  lemma ThreadOnlyDiscards(c: Config, s: State, usable: bool, n: nat)
    requires WellPlaced(s) && ThreadCanStep(s) && s.mem.abort && OnlyDiscards(s.pc, s.log.ledger, n)
    ensures var t := ThreadStep(c, s, usable); OnlyDiscards(t.pc, t.log.ledger, n)
  {
  }

  lemma {:induction false} RunOnlyDiscards(c: Config, s: State, events: seq<Event>, t: State, n: nat)
    requires ValidConfig(c) && Reachable(c, s) && Leads(c, s, events, t)
    requires s.mem.abort && OnlyDiscards(s.pc, s.log.ledger, n)
    ensures OnlyDiscards(t.pc, t.log.ledger, n)
    decreases |events|
  {
    hide OnlyDiscards, Evolves, ThreadStep, Enabled, Reachable, Grew;
    if events != [] {
      var init, e := events[..|events| - 1], events[|events| - 1];
      var mid := RunFrom(c, s, init).value;
      assert Later(c, s, mid) by { assert Leads(c, s, init, mid); }
      RunOnlyDiscards(c, s, init, mid, n);
      AbortStays(c, s, mid);
      StepOnlyDiscards(c, mid, e, n);
    }
  }

  lemma AbortStays(c: Config, s: State, t: State)
    requires ValidConfig(c) && Reachable(c, s) && Later(c, s, t) && s.mem.abort
    ensures t.mem.abort
  {
    LaterEvolves(c, s, t);
  }

  lemma StepOnlyDiscards(c: Config, s: State, e: Event, n: nat)
    requires Enabled(c, s, e) && s.mem.abort && OnlyDiscards(s.pc, s.log.ledger, n)
    ensures var t := Apply(c, s, e); OnlyDiscards(t.pc, t.log.ledger, n)
  {
    hide ThreadStep, OnlyDiscards, CallerMay, CloserMay, MayFire, MayDropSenders;
    if e.Thread? {
      ThreadOnlyDiscards(c, s, e.usable, n);
    }
  }

  lemma DiscardedAnswersClosed(c: Config, s: State, i: nat)
    requires ValidConfig(c) && Reachable(c, s) && i < |s.log.ledger| && s.log.ledger[i].fate.Discarded?
    ensures s.log.ledger[i].answer == Err(Closed)
  {
    hide CutsBlamed, ConnAgrees, PanicsChecked, InProgress, AnswersAgree, NothingRaw, RanAlone;
    LedgerHolds(c, s);
    assert Explained(c, Before(c, s.log.ledger, i), s.log.ledger[i]);
  }

  /** The entries of the i-th accepted job are at position `i`. */
  lemma EntryAtPosition(c: Config, s: State, i: nat, j: JobId, k: nat)
    requires ValidConfig(c) && Reachable(c, s) && i < |s.chan.accepted| && s.chan.accepted[i] == Run(j)
    requires k < |s.log.ledger| && s.log.ledger[k].job == j
    ensures k == i
  {
    hide InOrder, Bounded;
    ChannelHolds(c, s);
    assert s.chan.accepted[k] == Run(j);
  }

  lemma NothingInHandBeyond(c: Config, s: State)
    requires ValidConfig(c) && Reachable(c, s)
    ensures OnlyDiscards(s.pc, s.log.ledger, s.chan.taken)
  {
    hide AcceptedOnce, SettledInOrder;
    ChannelHolds(c, s);
  }

  /** A job still in the channel when the abort flag is stored, or accepted later, never starts: its only possible
      result is `Closed`. */
  lemma AbortDiscardsTheRest(c: Config, s: State, t: State, i: nat, j: JobId)
    requires ValidConfig(c) && Reachable(c, s) && Later(c, s, t) && s.mem.abort
    requires s.chan.taken <= i < |t.chan.accepted| && t.chan.accepted[i] == Run(j)
    ensures !ClosureRan(t.pc, t.log.ledger, j)
    ensures WaitResult(t, j).None? || WaitResult(t, j) == Some(Err(Closed))
  {
    hide Reachable;
    NothingInHandBeyond(c, s);
    LaterIsReachable(c, s, t);
    PlaceOf(c, t, i, j);
    var events :| Leads(c, s, events, t);
    RunOnlyDiscards(c, s, events, t, s.chan.taken);
    forall k | 0 <= k < |t.log.ledger| && t.log.ledger[k].job == j
      ensures t.log.ledger[k].fate.Discarded? && t.log.ledger[k].answer == Err(Closed)
    {
      EntryAtPosition(c, t, i, j, k);
      DiscardedAnswersClosed(c, t, k);
    }
    InHandIsTaken(c, t);
    if Settled(t.log.ledger, j).Some? {
      SettledIsEntry(t.log.ledger, j);
    }
  }

  lemma InHandIsTaken(c: Config, s: State)
    requires ValidConfig(c) && Reachable(c, s)
    ensures CurrentJob(s.pc).Some? ==> s.chan.taken == |s.log.ledger| + 1
  {
    hide AcceptedOnce, SettledInOrder;
    ChannelHolds(c, s);
  }

  // ── reasons ───────────────────────────────────────────────────────────────────────────────────────

  /** First reason wins: a fired token keeps its reason, whoever fires it again. */
  lemma ReasonIsFinal(c: Config, s: State, t: State, j: JobId)
    requires ValidConfig(c) && Reachable(c, s) && Later(c, s, t) && HasFired(s.mem.tokens, j)
    ensures HasFired(t.mem.tokens, j) && t.mem.tokens[j].state == s.mem.tokens[j].state
  {
    hide Settling, CallersSettle, FiresSettle, Chances;
    LaterEvolves(c, s, t);
  }

  /** A `Cancelled` or `Timeout` answer names the reason on the token; `call` never returns either, `call_timeout`
      never returns `Cancelled`, and only `call_timeout` returns `Timeout`. */
  lemma AnswersNameTheReason(c: Config, s: State, j: JobId)
    requires ValidConfig(c) && Reachable(c, s) && j < |s.who.callers|
    ensures WaitResult(s, j).Some? ==> Agrees(s.mem.tokens, j, WaitResult(s, j).value)
    ensures WaitResult(s, j) == Some(Err(Timeout)) ==> c.job(j).kind.CallTimeout?
    ensures s.who.callers[j] == Returned(Err(Cancelled)) ==> c.job(j).kind.SpawnCall? || c.job(j).kind.TryCall?
    ensures s.who.callers[j] == Returned(Err(Timeout)) ==> c.job(j).kind.CallTimeout?
  {
    hide CutsBlamed, ConnAgrees, PanicsChecked, InProgress, Serial, ClosersAgree, WaitResult;
    LedgerHolds(c, s);
    PeopleHold(c, s);
    assert Promised(c.job(j).kind, s.who.callers[j], s.mem.tokens[j].state);
    if WaitResult(s, j).Some? {
      ReceivedAgrees(s, j, WaitResult(s, j).value);
    }
  }

  // ── panics ────────────────────────────────────────────────────────────────────────────────────────

  /** A job gets as far as its closure only if every panic before it was followed by a passed health check; no
      token holds the connection during the check, so only an aborting driver can have raised the flag it sees;
      and a failed check is the end of the loop. */
  lemma PanicsAreContained(c: Config, s: State)
    requires ValidConfig(c) && Reachable(c, s)
    ensures CurrentJob(s.pc).Some? ==> Panics(s.log.ledger) == s.log.healthy
    ensures s.pc.AtHealth? ==> forall k :: 0 <= k < |s.mem.tokens| ==> !s.mem.tokens[k].attached
    ensures s.pc == AtHealth(true) && s.mem.conn.pending != {} ==> s.mem.conn.pending == {ByDriver} && s.mem.abort
    ensures s.log.exit.ByHealth? ==> !Looping(s.pc) && Panics(s.log.ledger) == s.log.healthy + 1
  {
    hide CutsBlamed, InProgress, Serial, AnswersAgree, NothingRaw, AcceptedOnce, FiresAnswered, Panics, SettledInOrder;
    LedgerHolds(c, s);
    TokensHold(c, s);
    ChannelHolds(c, s);
    forall k | s.pc.AtHealth? && 0 <= k < |s.mem.tokens|
      ensures !s.mem.tokens[k].attached
    {
      if s.mem.tokens[k].attached {
        WindowOfHandle(s.pc, s.mem, s.log.ledger, k);
      }
    }
    if s.pc == AtHealth(true) && s.mem.conn.pending != {} {
      var source :| source in s.mem.conn.pending;
      assert s.mem.conn.pending == {ByDriver};
    }
  }

  // ── backpressure ──────────────────────────────────────────────────────────────────────────────────

  /** The queue never exceeds the capacity, and all of it is what was accepted and not yet taken, in order. */
  lemma QueueIsBounded(c: Config, s: State)
    requires ValidConfig(c) && Reachable(c, s)
    ensures |s.chan.queue| <= c.capacity
    ensures s.chan.taken <= |s.chan.accepted|
    ensures s.chan.queue == if s.chan.rxOpen then s.chan.accepted[s.chan.taken..] else []
  {
    ChannelHolds(c, s);
  }

  /** A job turned away with `QueueFull` or `Closed` is never accepted and never runs, however the run continues. */
  lemma RejectedNeverRuns(c: Config, s: State, t: State, j: JobId)
    requires ValidConfig(c) && Reachable(c, s) && Later(c, s, t)
    requires j < |s.who.callers| && s.who.callers[j].Rejected?
    ensures |t.chan.queue| <= c.capacity
    ensures Run(j) !in t.chan.accepted && !ClosureRan(t.pc, t.log.ledger, j)
    ensures WaitResult(t, j).None?
  {
    hide Settling, Grew, FiresSettle, Chances;
    LaterEvolves(c, s, t);
    LaterIsReachable(c, s, t);
    ChannelHolds(c, t);
    if Settled(t.log.ledger, j).Some? {
      SettledIsEntry(t.log.ledger, j);
    }
  }
}
