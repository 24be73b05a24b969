/** Nobody waits for ever on anything but a closure: whoever waits, the thread can go on; and once a `Shutdown` is in
    the channel the thread has only so many sections left, closures apart. */
module Progress {
  import opened Errors
  import opened Protocol
  import opened Invariant
  import opened Runs
  import opened Evolution
  import opened Lifecycle
  import opened Closing

  // ── no deadlock ───────────────────────────────────────────────────────────────────────────────────

  /** The done signal comes before the receiver is dropped, and only async calls wait for it. */
  predicate DoneFirst(c: Config, s: State) {
    && (c.async && (s.pc.AtDropReceiver? || s.pc.Finished?) ==> s.log.doneSent)
    && (forall k :: 0 <= k < |s.who.closers| && s.who.closers[k].AwaitingDone? ==> c.async)
  }

  lemma ThreadSignals(c: Config, s: State, usable: bool)
    requires WellPlaced(s) && ThreadCanStep(s) && DoneFirst(c, s)
    ensures DoneFirst(c, ThreadStep(c, s, usable))
  {
  }

  lemma StepSignals(c: Config, s: State, e: Event)
    requires Enabled(c, s, e) && DoneFirst(c, s)
    ensures DoneFirst(c, Apply(c, s, e))
  {
    hide ThreadStep, CallerMay, MayFire, ThreadCanStep, CurrentJob;
    if e.Thread? {
      ThreadSignals(c, s, e.usable);
    }
  }

  lemma {:induction false} RunSignals(c: Config, events: seq<Event>, s: State)
    requires Leads(c, Init(c), events, s)
    ensures DoneFirst(c, s)
  {
    hide DoneFirst, Apply, Enabled;
    if events == [] {
      InitSignals(c);
    } else {
      var init := events[..|events| - 1];
      RunSignals(c, init, RunFrom(c, Init(c), init).value);
      StepSignals(c, RunFrom(c, Init(c), init).value, events[|events| - 1]);
    }
  }

  lemma InitSignals(c: Config)
    ensures DoneFirst(c, Init(c))
  {
  }

  lemma ReachableSignals(c: Config, s: State)
    requires Reachable(c, s)
    ensures DoneFirst(c, s)
  {
    hide DoneFirst;
    var events :| Leads(c, Init(c), events, s);
    RunSignals(c, events, s);
  }

  /** A thread that waits for the next request has settled everything that was accepted. */
  lemma WaitingThreadIsDone(c: Config, s: State)
    requires ValidConfig(c) && Reachable(c, s) && !ThreadCanStep(s) && !s.pc.Finished?
    ensures s.pc.AtNext? && s.chan.queue == [] && |s.log.ledger| == |s.chan.accepted|
    ensures Shutdown !in s.chan.accepted
  {
    hide AcceptedOnce;
    ChannelHolds(c, s);
  }

  /** A shutdown call never hangs: it can take its next section, or the thread can go on. */
  lemma ShutdownNeverHangs(c: Config, s: State, k: nat)
    requires ValidConfig(c) && Reachable(c, s) && k < |s.who.closers| && !s.who.closers[k].CloserReturned?
    ensures CloserMay(c, s, k) || ThreadCanStep(s)
  {
    if !ThreadCanStep(s) {
      ReachableSignals(c, s);
      if s.pc.Finished? {
        EndClosesChannel(c, s);
      } else {
        WaitingThreadIsDone(c, s);
        if PastSending(s.who.closers[k]) {
          PastSendingSent(c, s, k);
        }
      }
    }
  }

  /** Nor does a caller: an accepted job has its result, a submission can be accepted or refused, or the thread can go
      on. */
  lemma CallersNeverHang(c: Config, s: State, j: JobId)
    requires ValidConfig(c) && Reachable(c, s)
    ensures Run(j) in s.chan.accepted ==> WaitResult(s, j).Some? || ThreadCanStep(s)
    ensures j < |s.who.callers| && s.who.callers[j].Sending? && s.chan.txOpen ==>
              CallerMay(c, s, j, Waiting) || CallerMay(c, s, j, Rejected(Closed)) || ThreadCanStep(s)
  {
    if !ThreadCanStep(s) {
      if s.pc.Finished? {
        EndClosesChannel(c, s);
        if Run(j) in s.chan.accepted {
          AllResolvedAtEnd(c, s, j);
        }
      } else {
        WaitingThreadIsDone(c, s);
        if Run(j) in s.chan.accepted {
          var i :| 0 <= i < |s.chan.accepted| && s.chan.accepted[i] == Run(j);
          AcceptedIsSettled(c, s, i);
        }
      }
    }
  }

  lemma EndClosesChannel(c: Config, s: State)
    requires ValidConfig(c) && Reachable(c, s) && s.pc.Finished?
    ensures !s.chan.rxOpen
  {
    hide AcceptedOnce, SettledInOrder, InOrder;
    ChannelHolds(c, s);
  }

  lemma AcceptedIsSettled(c: Config, s: State, i: nat)
    requires ValidConfig(c) && Reachable(c, s) && i < |s.log.ledger| <= |s.chan.accepted| && s.chan.accepted[i].Run?
    ensures WaitResult(s, s.chan.accepted[i].job).Some?
  {
    hide AcceptedOnce, InOrder;
    ChannelHolds(c, s);
    LedgerIsSettled(c, s, i);
  }

  // ── how much is left ──────────────────────────────────────────────────────────────────────────────

  /** Sections until the thread is back at its queue, or at its end. */
  function Rank(pc: Pc): nat {
    match pc
    case Finished => 0
    case AtDropReceiver => 1
    case AtDone => 2
    case AtExit => 3
    case AtNext => 4
    case AtHealth(begun) => if begun then 5 else 6
    case AtRespond(_, _, _) => 7
    case AtAbortLoad(_, _) => 8
    case AtFiredLoad(_, _) => 9
    case AtDetach(_, _, _) => 10
    case InClosure(_, _, _, _) => 11
    case AtAttachInterrupt(_) => 12
    case AtLoad(_) => 13
    case AtStore(_) => 14
    case AtFiredCheck(_) => 15
    case AtAbortCheck(_) => 16
  }

  const RANKS := 17

  /** The sections the thread has left at most, apart from actions of closures, if the first `Shutdown` is at position
      `k`. */
  function SectionsLeft(s: State, k: int): int {
    RANKS * (k + 1 - s.chan.taken) + Rank(s.pc)
  }

  /** How many sections of the thread, apart from actions of closures, the events hold. */
  function OwnSections(c: Config, s: State, events: seq<Event>): nat {
    if events == [] then 0
    else
      var init := events[..|events| - 1];
      match RunFrom(c, s, init)
      case None => 0
      case Some(t) =>
        OwnSections(c, s, init) + One(events[|events| - 1].Thread? && !t.pc.InClosure?)
  }

  lemma ThreadUsesSection(c: Config, s: State, usable: bool, k: int)
    requires WellPlaced(s) && ThreadCanStep(s)
    ensures SectionsLeft(ThreadStep(c, s, usable), k) + One(!s.pc.InClosure?) <= SectionsLeft(s, k)
  {
    hide WellPlaced;
  }

  lemma StepUsesSection(c: Config, s: State, e: Event, k: int)
    requires Enabled(c, s, e)
    ensures SectionsLeft(Apply(c, s, e), k) + One(e.Thread? && !s.pc.InClosure?) <= SectionsLeft(s, k)
  {
    hide ThreadStep, CallerMay, CloserMay, MayFire, ThreadCanStep, MayDropSenders, Rank;
    if e.Thread? {
      ThreadUsesSection(c, s, e.usable, k);
    }
  }

  lemma {:induction false} RunUsesSections(c: Config, s: State, events: seq<Event>, t: State, k: int)
    requires Leads(c, s, events, t)
    ensures SectionsLeft(t, k) + OwnSections(c, s, events) <= SectionsLeft(s, k)
    decreases |events|
  {
    hide SectionsLeft, Apply, Enabled;
    if events != [] {
      var init := events[..|events| - 1];
      var mid := RunFrom(c, s, init).value;
      RunUsesSections(c, s, init, mid, k);
      StepUsesSection(c, mid, events[|events| - 1], k);
    }
  }

  lemma SomeAreLeft(c: Config, s: State, k: nat)
    requires ValidConfig(c) && Reachable(c, s) && FirstShutdown(s.chan.accepted, k)
    ensures SectionsLeft(s, k) >= 0
  {
    hide Rank;
    DrainsUpToShutdown(c, s, k);
  }

  /** Once the first `Shutdown` is at position `k`, every continuation, whatever is fired or appended, holds only so
      many sections of the thread that are not actions of closures; and as long as the thread has not ended, it can go
      on. */
  lemma ShutdownIsBounded(c: Config, s: State, events: seq<Event>, t: State, k: nat)
    requires ValidConfig(c) && Reachable(c, s) && FirstShutdown(s.chan.accepted, k) && Leads(c, s, events, t)
    ensures OwnSections(c, s, events) <= SectionsLeft(s, k)
    ensures t.pc.Finished? || ThreadCanStep(t)
  {
    hide SectionsLeft, ThreadCanStep, Grew, CallersSettle, FiresSettle, Chances, Reachable;
    assert Later(c, s, t);
    LaterIsReachable(c, s, t);
    LaterEvolves(c, s, t);
    RunUsesSections(c, s, events, t, k);
    assert FirstShutdown(t.chan.accepted, k);
    SomeAreLeft(c, t, k);
    if !ThreadCanStep(t) && !t.pc.Finished? {
      WaitingThreadIsDone(c, t);
    }
  }

  // ── the end without a shutdown ────────────────────────────────────────────────────────────────────

  lemma NothingComesIn(c: Config, s: State, e: Event)
    requires ValidConfig(c) && Reachable(c, s) && Enabled(c, s, e) && !s.chan.txOpen
    ensures !Apply(c, s, e).chan.txOpen && Apply(c, s, e).chan.accepted == s.chan.accepted
  {
    PeopleHold(c, s);
    hide CallersAgree, ThreadStep, MayFire, ThreadCanStep, CurrentJob, Reachable, WaitResult;
    if e.Thread? {
      ThreadLeavesSenders(c, s, e.usable);
    }
  }

  lemma ThreadLeavesSenders(c: Config, s: State, usable: bool)
    requires WellPlaced(s) && ThreadCanStep(s)
    ensures ThreadStep(c, s, usable).chan.txOpen == s.chan.txOpen
    ensures ThreadStep(c, s, usable).chan.accepted == s.chan.accepted
  {
  }

  lemma {:induction false} NothingComesInLater(c: Config, s: State, events: seq<Event>, t: State)
    requires ValidConfig(c) && Reachable(c, s) && Leads(c, s, events, t) && !s.chan.txOpen
    ensures !t.chan.txOpen && t.chan.accepted == s.chan.accepted
    decreases |events|
  {
    hide Apply, Enabled, Reachable;
    if events != [] {
      var init := events[..|events| - 1];
      var mid := RunFrom(c, s, init).value;
      NothingComesInLater(c, s, init, mid);
      assert Leads(c, s, init, mid);
      LaterIsReachable(c, s, mid);
      NothingComesIn(c, mid, events[|events| - 1]);
    }
  }

  /** Once every sender is gone the thread works off what was accepted and ends by itself: the sections it has left are
      bounded, closures apart, and until its end it can always go on. */
  lemma DisconnectIsBounded(c: Config, s: State, events: seq<Event>, t: State)
    requires ValidConfig(c) && Reachable(c, s) && !s.chan.txOpen && Leads(c, s, events, t)
    ensures OwnSections(c, s, events) <= SectionsLeft(s, |s.chan.accepted| - 1)
    ensures t.pc.Finished? || ThreadCanStep(t)
  {
    NothingComesInLater(c, s, events, t);
    RunUsesSections(c, s, events, t, |s.chan.accepted| - 1);
    assert Later(c, s, t);
    LaterIsReachable(c, s, t);
    QueueIsBounded(c, t);
    hide Reachable, Rank, OwnSections, Leads;
  }
}
