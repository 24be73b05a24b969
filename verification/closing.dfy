/** What a returned shutdown call stands for, whether or not it waited for the thread. */
module Closing {
  import opened Errors
  import opened Protocol
  import opened Invariant
  import opened Preservation
  import opened Runs
  import opened Evolution
  import opened Guarantees
  import opened Lifecycle

  predicate PastSending(closer: Closer) {
    closer.AwaitingDone? || closer.TakingJoin? || closer.Joining? || closer.CloserReturned?
  }

  /** The call's `Shutdown` is in the channel, or the receiver was gone already. */
  predicate NothingMore(s: State) {
    !s.chan.rxOpen || Shutdown in s.chan.accepted
  }

  predicate SentShutdown(s: State) {
    forall k :: 0 <= k < |s.who.closers| && PastSending(s.who.closers[k]) ==> NothingMore(s)
  }

  /** A shutdown call that got the join handle waits for the thread before it returns. */
  predicate HasHandle(s: State, k: nat) {
    k < |s.who.closers| && (s.who.closers[k].Joining? || s.who.closers[k] == CloserReturned(true))
  }

  lemma ThreadLeavesClosers(c: Config, s: State, usable: bool)
    requires WellPlaced(s) && ThreadCanStep(s)
    ensures var t := ThreadStep(c, s, usable);
      t.who == s.who && t.chan.accepted == s.chan.accepted && (!s.chan.rxOpen ==> !t.chan.rxOpen)
  {
  }

  lemma StepSends(c: Config, s: State, e: Event)
    requires Enabled(c, s, e) && SentShutdown(s)
    ensures SentShutdown(Apply(c, s, e))
  {
    hide ThreadStep, CallerMay, MayFire, ThreadCanStep, CurrentJob;
    if e.Thread? {
      ThreadLeavesClosers(c, s, e.usable);
    }
  }

  lemma StepHolds(c: Config, s: State, e: Event, k: nat)
    requires Enabled(c, s, e) && HasHandle(s, k)
    ensures HasHandle(Apply(c, s, e), k)
  {
    hide ThreadStep, CallerMay, MayFire, ThreadCanStep, CurrentJob;
    if e.Thread? {
      ThreadLeavesClosers(c, s, e.usable);
    }
  }

  lemma {:induction false} RunSends(c: Config, events: seq<Event>, s: State)
    requires Leads(c, Init(c), events, s)
    ensures SentShutdown(s)
  {
    hide SentShutdown, Apply, Enabled;
    if events == [] {
      InitSends(c);
    } else {
      var init := events[..|events| - 1];
      RunSends(c, init, RunFrom(c, Init(c), init).value);
      StepSends(c, RunFrom(c, Init(c), init).value, events[|events| - 1]);
    }
  }

  lemma InitSends(c: Config)
    ensures SentShutdown(Init(c))
  {
  }

  lemma {:induction false} RunHolds(c: Config, s: State, events: seq<Event>, t: State, k: nat)
    requires Leads(c, s, events, t) && HasHandle(s, k)
    ensures HasHandle(t, k)
    decreases |events|
  {
    hide HasHandle, Apply, Enabled;
    if events != [] {
      var init := events[..|events| - 1];
      RunHolds(c, s, init, RunFrom(c, s, init).value, k);
      StepHolds(c, RunFrom(c, s, init).value, events[|events| - 1], k);
    }
  }

  lemma {:induction false} SomeShutdownIsFirst(accepted: seq<Request>)
    requires Shutdown in accepted
    ensures exists k :: FirstShutdown(accepted, k)
  {
    var n := |accepted| - 1;
    if Shutdown in accepted[..n] {
      SomeShutdownIsFirst(accepted[..n]);
      var k :| FirstShutdown(accepted[..n], k);
      assert FirstShutdown(accepted, k);
    } else {
      assert forall i :: 0 <= i < n ==> accepted[i] == accepted[..n][i];
      assert FirstShutdown(accepted, n);
    }
  }

  /** The job does not exist yet, or its caller is still about to send it. */
  predicate NotYetSubmitted(s: State, j: JobId) {
    j < |s.who.callers| ==> s.who.callers[j].Sending?
  }

  ghost predicate NeverRead(s: State, j: JobId) {
    !InLedger(s.log.ledger, j) && CurrentJob(s.pc) != Some(j)
  }

  /** A job accepted behind the first `Shutdown`. */
  lemma BehindIsNeverRead(c: Config, s: State, k: nat, j: JobId)
    requires ValidConfig(c) && Reachable(c, s) && FirstShutdown(s.chan.accepted, k)
    requires forall i :: 0 <= i <= k ==> s.chan.accepted[i] != Run(j)
    ensures NeverRead(s, j) && !ClosureRan(s.pc, s.log.ledger, j)
  {
    hide AcceptedOnce, SettledInOrder;
    ChannelHolds(c, s);
    DrainsUpToShutdown(c, s, k);
  }

  lemma UnacceptedIsNeverRead(c: Config, s: State, j: JobId)
    requires ValidConfig(c) && Reachable(c, s) && Run(j) !in s.chan.accepted
    ensures NeverRead(s, j) && !ClosureRan(s.pc, s.log.ledger, j)
  {
    hide AcceptedOnce;
    ChannelHolds(c, s);
  }

  lemma SendersNotAccepted(c: Config, s: State, j: JobId)
    requires ValidConfig(c) && Reachable(c, s) && NotYetSubmitted(s, j)
    ensures Run(j) !in s.chan.accepted
  {
    hide InOrder, SettledInOrder;
    ChannelHolds(c, s);
  }

  lemma PastSendingSent(c: Config, s: State, k: nat)
    requires ValidConfig(c) && Reachable(c, s) && k < |s.who.closers| && PastSending(s.who.closers[k])
    ensures s.pc.Finished? || Shutdown in s.chan.accepted
  {
    hide InOrder, SettledInOrder, AcceptedOnce;
    ChannelHolds(c, s);
    var events :| Leads(c, Init(c), events, s);
    RunSends(c, events, s);
  }

  /** Once a shutdown call has sent its message (so too when it has returned, whether or not it waited), a job that was
      not submitted by then is never taken from the channel, however the run continues. */
  lemma NothingReadAfterShutdown(c: Config, s: State, k: nat, t: State, j: JobId)
    requires ValidConfig(c) && Reachable(c, s) && Later(c, s, t)
    requires k < |s.who.closers| && PastSending(s.who.closers[k]) && NotYetSubmitted(s, j)
    ensures NeverRead(t, j) && !ClosureRan(t.pc, t.log.ledger, j)
  {
    hide NeverRead, ClosureRan, Grew, CallersSettle, FiresSettle, Chances, NotYetSubmitted;
    PastSendingSent(c, s, k);
    SendersNotAccepted(c, s, j);
    LaterIsReachable(c, s, t);
    if s.pc.Finished? {
      EndedTurnsAway(c, s, t, j);
      UnacceptedIsNeverRead(c, t, j);
    } else {
      LaterEvolves(c, s, t);
      SomeShutdownIsFirst(s.chan.accepted);
      var n :| FirstShutdown(s.chan.accepted, n);
      BehindIsNeverRead(c, t, n, j);
    }
  }

  /** So its closure never runs, and its only possible result is `Closed`. */
  lemma NothingRunsAfterShutdown(c: Config, s: State, k: nat, t: State, j: JobId)
    requires ValidConfig(c) && Reachable(c, s) && Later(c, s, t)
    requires k < |s.who.closers| && PastSending(s.who.closers[k]) && NotYetSubmitted(s, j)
    ensures !ClosureRan(t.pc, t.log.ledger, j)
    ensures WaitResult(t, j).None? || WaitResult(t, j) == Some(Err(Closed))
  {
    NothingReadAfterShutdown(c, s, k, t, j);
    hide Reachable, Later, InLedger;
    if Settled(t.log.ledger, j).Some? {
      SettledIsEntry(t.log.ledger, j);
    }
  }

  /** What a submission that does not wait is told: `Closed` exactly if the thread has ended. */
  lemma SubmissionIsTold(c: Config, s: State, j: JobId)
    requires ValidConfig(c) && Reachable(c, s) && s.chan.txOpen
    requires j < |s.who.callers| && s.who.callers[j].Sending? && c.job(j).kind.TryCall?
    ensures CallerMay(c, s, j, Rejected(Closed)) <==> s.pc.Finished?
    ensures CallerMay(c, s, j, Rejected(QueueFull)) <==> !s.pc.Finished? && |s.chan.queue| == c.capacity
    ensures CallerMay(c, s, j, Waiting) <==> !s.pc.Finished? && |s.chan.queue| < c.capacity
  {
    hide InOrder, SettledInOrder, AcceptedOnce;
    ChannelHolds(c, s);
  }

  /** A call that finds the join handle still there returns only when the thread has ended; one that finds it gone
      returns at once, leaving thread and channel as they are. */
  lemma JoinHeldDecides(c: Config, s: State, k: nat, t: State)
    requires ValidConfig(c) && Reachable(c, s) && Enabled(c, s, CloserStep(k)) && s.who.closers[k].TakingJoin?
    ensures var u := Apply(c, s, CloserStep(k));
      if s.who.joinHeld then
        Later(c, u, t) && k < |t.who.closers| && t.who.closers[k].CloserReturned? ==> t.pc.Finished?
      else
        u.who.closers[k] == CloserReturned(false) && u.pc == s.pc && u.chan == s.chan
  {
    var u := Apply(c, s, CloserStep(k));
    StepIsReachable(c, s, CloserStep(k));
    hide Reachable;
    if s.who.joinHeld && Later(c, u, t) && k < |t.who.closers| && t.who.closers[k].CloserReturned? {
      LaterIsReachable(c, u, t);
      var events :| Leads(c, u, events, t);
      RunHolds(c, u, events, t, k);
      ReturnedAfterEnd(c, t, k);
    }
  }

  /** Call `k`, about to take the join handle in `s`, returns in `t`: at once, or by the section that ends its wait for
      the thread. */
  ghost predicate ReturnsIn(c: Config, s: State, k: nat, t: State)
    requires Enabled(c, s, CloserStep(k))
  {
    var u := Apply(c, s, CloserStep(k));
    || (u.who.closers[k].CloserReturned? && t == u)
    || (u.who.closers[k].Joining? && exists r :: JoinsIn(c, u, k, r, t))
  }

  ghost predicate JoinsIn(c: Config, u: State, k: nat, r: State, t: State) {
    Later(c, u, r) && Enabled(c, r, CloserStep(k)) && r.who.closers[k].Joining? && t == Apply(c, r, CloserStep(k))
  }

  /** Call by call: when it returns, the thread has ended exactly if the handle was there when the call came to take it,
      or the thread had ended by then. */
  lemma EndedOnReturn(c: Config, s: State, k: nat, t: State)
    requires Enabled(c, s, CloserStep(k)) && s.who.closers[k].TakingJoin? && ReturnsIn(c, s, k, t)
    ensures t.pc.Finished? <==> s.who.joinHeld || s.pc.Finished?
  {
    hide Later;
  }
}
