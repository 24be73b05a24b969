/** The invariant holds in every reachable state, and some facts only ever grow. */
module Runs {
  import opened Errors
  import opened Sqlite
  import opened Protocol
  import opened Invariant
  import opened Preservation

  lemma ThreadKeeps(c: Config, s: State, usable: bool)
    requires ValidConfig(c) && Inv(c, s) && WellPlaced(s) && ThreadCanStep(s)
    ensures Inv(c, ThreadStep(c, s, usable))
  {
    hide Inv, WellPlaced, Take, Disconnect, CheckAbort, CheckFired, StoreHandle, LoadState, AttachInterrupt,
      ClosureSection, DetachHandle, FoldToken, FoldAbort, Respond, BeginHealth, HealthCheck, DropConnection,
      SignalDone, DropReceiver;
    match s.pc {
      case AtNext => if s.chan.queue != [] { TakeKeeps(c, s); } else { DisconnectKeeps(c, s); }
      case AtAbortCheck(j) => CheckAbortKeeps(c, s, j);
      case AtFiredCheck(j) => CheckFiredKeeps(c, s, j);
      case AtStore(j) => StoreKeeps(c, s, j);
      case AtLoad(j) => LoadKeeps(c, s, j);
      case AtAttachInterrupt(j) => AttachInterruptKeeps(c, s, j);
      case InClosure(j, l, _, _) =>
        assert HonestAt(c.job(j).body, l);
        ClosureKeeps(c, s);
      case AtDetach(_, _, _) => DetachKeeps(c, s);
      case AtFiredLoad(j, cut) => FoldTokenKeeps(c, s, j, cut);
      case AtAbortLoad(j, cut) => FoldAbortKeeps(c, s, j, cut);
      case AtRespond(_, _, _) => RespondKeeps(c, s);
      case AtHealth(begun) => if begun { HealthCheckKeeps(c, s, usable); } else { BeginHealthKeeps(c, s); }
      case AtExit => DropConnectionKeeps(c, s);
      case AtDone => SignalDoneKeeps(c, s);
      case AtDropReceiver => DropReceiverKeeps(c, s);
    }
  }

  lemma StepKeeps(c: Config, s: State, e: Event)
    requires ValidConfig(c) && Inv(c, s) && Enabled(c, s, e)
    ensures Inv(c, Apply(c, s, e))
  {
    hide Inv, ThreadStep, CreateJob, MoveCaller, CasOn, LockFor, AddCloser, AdvanceCloser, Enqueue, CallerMay, MayFire,
      MayDropSenders, WellPlaced, ThreadCanStep, CloserMay;
    match e {
      case Thread(usable) => ThreadKeeps(c, s, usable);
      case Create => CreateKeeps(c, s);
      case CallerStep(j, next) => CallerKeeps(c, s, j, next);
      case FireCas(j, r) => CasKeeps(c, s, j, r);
      case FireLock(f) => LockKeeps(c, s, f);
      case OpenCloser(now) => AddCloserKeeps(c, s, now);
      case CloserStep(k) => AnyCloserKeeps(c, s, k);
      case HintShutdown => HintKeeps(c, s);
      case DropSenders => DropSendersKeeps(c, s);
    }
  }

  lemma AnyCloserKeeps(c: Config, s: State, k: nat)
    requires Inv(c, s) && CloserMay(c, s, k)
    ensures Inv(c, AdvanceCloser(c, s, k))
  {
    hide Inv, AdvanceCloser;
    if s.who.closers[k].StoringAbort? {
      StoreAbortKeeps(c, s, k);
    } else if s.who.closers[k].Interrupting? {
      DriverInterruptKeeps(c, s, k);
    } else {
      CloserKeeps(c, s, k);
    }
  }

  lemma InitInv(c: Config)
    requires ValidConfig(c)
    ensures Inv(c, Init(c))
  {
  }

  lemma {:induction false} RunKeeps(c: Config, s: State, events: seq<Event>, t: State)
    requires ValidConfig(c) && Inv(c, s) && Leads(c, s, events, t)
    ensures Inv(c, t)
    decreases |events|
  {
    hide Inv, Apply, Enabled;
    if events != [] {
      var before := RunFrom(c, s, events[..|events| - 1]).value;
      RunKeeps(c, s, events[..|events| - 1], before);
      StepKeeps(c, before, events[|events| - 1]);
    }
  }

  /** Every reachable state satisfies the invariant. */
  lemma ReachableInv(c: Config, s: State)
    requires ValidConfig(c) && Reachable(c, s)
    ensures Inv(c, s)
  {
    hide Inv;
    InitInv(c);
    var events :| Leads(c, Init(c), events, s);
    RunKeeps(c, Init(c), events, s);
  }

  lemma ChannelHolds(c: Config, s: State)
    requires ValidConfig(c) && Reachable(c, s)
    ensures WellPlaced(s)
    ensures Bounded(c, s.pc, s.chan, s.log.exit) && InOrder(s.pc, s.chan, |s.log.ledger|, s.log.exit)
    ensures SettledInOrder(s.chan.accepted, s.log.ledger) && AcceptedOnce(s.chan.accepted, s.who.callers)
  {
    ReachableInv(c, s);
  }

  lemma TokensHold(c: Config, s: State)
    requires ValidConfig(c) && Reachable(c, s)
    ensures WellPlaced(s)
    ensures HandlesAgree(s.pc, s.mem, s.log.ledger) && FiresAnswered(s.pc, s.mem, s.who.fires)
    ensures ReasonFirst(s.mem, s.who.fires, s.who.closers) && ReasonInHand(s.pc, s.mem.tokens)
  {
    ReachableInv(c, s);
  }

  lemma LedgerHolds(c: Config, s: State)
    requires ValidConfig(c) && Reachable(c, s)
    ensures Serial(c, s.log.ledger) && NothingRaw(s.mem, s.log.ledger) && AnswersAgree(s.mem.tokens, s.log.ledger)
    ensures InProgress(c, s.pc, s.mem.conn.db, Before(c, s.log.ledger, |s.log.ledger|))
    ensures CutsBlamed(s.mem) && PanicsChecked(s.pc, s.log) && ConnAgrees(c, s.pc, s.mem)
  {
    ReachableInv(c, s);
  }

  lemma PeopleHold(c: Config, s: State)
    requires ValidConfig(c) && Reachable(c, s)
    ensures CallersAgree(c, s.mem.tokens, s.who.callers)
    ensures ClosersAgree(c, s.pc, s.chan.txOpen, s.mem.abort, s.who.closers, s.who.joinHeld, s.log.doneSent)
  {
    ReachableInv(c, s);
  }

  lemma {:induction false} RunsCompose(c: Config, s: State, first: seq<Event>, t: State, second: seq<Event>, u: State)
    requires Leads(c, s, first, t) && Leads(c, t, second, u)
    ensures Leads(c, s, first + second, u)
    decreases |second|
  {
    hide Apply, Enabled;
    if second == [] {
      assert first + second == first;
    } else {
      var n := |second| - 1;
      var mid := RunFrom(c, t, second[..n]).value;
      RunsCompose(c, s, first, t, second[..n], mid);
      assert (first + second)[..|first + second| - 1] == first + second[..n];
    }
  }

  lemma LaterThanItself(c: Config, s: State)
    ensures Later(c, s, s)
  {
    assert Leads(c, s, [], s);
  }

  lemma LaterTransitively(c: Config, s: State, t: State, u: State)
    requires Later(c, s, t) && Later(c, t, u)
    ensures Later(c, s, u)
  {
    var first :| Leads(c, s, first, t);
    var second :| Leads(c, t, second, u);
    RunsCompose(c, s, first, t, second, u);
  }

  lemma LaterIsReachable(c: Config, s: State, t: State)
    requires Reachable(c, s) && Later(c, s, t)
    ensures Reachable(c, t)
  {
    LaterTransitively(c, Init(c), s, t);
  }

  /** One more event. */
  lemma StepIsReachable(c: Config, s: State, e: Event)
    requires Reachable(c, s) && Enabled(c, s, e)
    ensures Reachable(c, Apply(c, s, e)) && Later(c, s, Apply(c, s, e))
  {
    hide Apply, Enabled;
    var t := Apply(c, s, e);
    assert RunFrom(c, s, [e][..0]) == Some(s);
    assert Leads(c, s, [e], t);
    LaterIsReachable(c, s, t);
  }
}
