/** Exclusive access: whatever happens around it, a closure that ran has acted on the database its predecessor left,
    alone, with nothing but some of its own statements failing. */
module Isolation {
  import opened Errors
  import opened Sqlite
  import opened Protocol
  import opened Invariant
  import opened Runs

  /** The answers that may stand for an outcome: an SQLITE_INTERRUPT is folded into a reason, all else is passed on. */
  predicate StandsFor(a: Answer, o: Outcome) {
    if o == Error(Interrupted) then a == Err(Cancelled) || a == Err(Timeout) || a == Err(Closed) else a == Direct(o)
  }

  ghost predicate GotTo(cl: Closure, before: Db, l: Local, db: Db) {
    exists cuts :: Under(cl, before, cuts) == (l, db)
  }

  ghost predicate Ended(cl: Closure, before: Db, db: Db, o: Outcome) {
    exists cuts :: FinishesUnder(cl, before, cuts, db, o)
  }

  /** The entry is what the closure made of the database before it. */
  ghost predicate OwnDoing(c: Config, before: Db, e: Entry) {
    exists o :: Ended(c.job(e.job).body, before, e.db, o) && StandsFor(e.answer, o)
  }

  ghost predicate InHandIsolated(c: Config, pc: Pc, db: Db, before: Db) {
    match pc
    case InClosure(j, l, _, _) => GotTo(c.job(j).body, before, l, db)
    case AtDetach(j, o, _) => Ended(c.job(j).body, before, db, o)
    case AtFiredLoad(j, _) => Ended(c.job(j).body, before, db, Error(Interrupted))
    case AtAbortLoad(j, _) => Ended(c.job(j).body, before, db, Error(Interrupted))
    case AtRespond(j, a, fate) => fate.Ran? || fate.Cut? ==> OwnDoing(c, before, Entry(j, fate, a, db))
    case _ => true
  }

  ghost predicate LedgerIsolated(c: Config, ledger: seq<Entry>) {
    forall i :: 0 <= i < |ledger| && Started(ledger[i]) ==> OwnDoing(c, Before(c, ledger, i), ledger[i])
  }

  ghost predicate Isolated(c: Config, s: State) {
    && InHandIsolated(c, s.pc, s.mem.conn.db, Before(c, s.log.ledger, |s.log.ledger|))
    && LedgerIsolated(c, s.log.ledger)
  }

  lemma OneMore(cl: Closure, before: Db, l: Local, db: Db, cut: bool)
    requires GotTo(cl, before, l, db)
    ensures match cl.act(l)
      case Finish(o) => Ended(cl, before, db, o)
      case Begin(m) => GotTo(cl, before, m, db)
      case End(m) => GotTo(cl, before, m, db)
      case Step(run, m) => if cut then GotTo(cl, before, m, db) else GotTo(cl, before, run(db).1, run(db).0)
  {
    var cuts :| Under(cl, before, cuts) == (l, db);
    if cl.act(l).Finish? {
      assert FinishesUnder(cl, before, cuts, db, cl.act(l).o);
    } else {
      assert (cuts + [cut])[..|cuts|] == cuts;
      var next := Under(cl, before, cuts + [cut]);
      assert GotTo(cl, before, next.0, next.1);
    }
  }

  lemma StartsIsolated(cl: Closure, db: Db)
    ensures GotTo(cl, db, cl.start, db)
  {
    assert Under(cl, db, []) == (cl.start, db);
  }

  lemma ClosureIsolated(c: Config, s: State)
    requires s.pc.InClosure? && Isolated(c, s)
    ensures Isolated(c, ClosureSection(c, s))
  {
    hide GotTo, Ended, LedgerIsolated;
    OneMore(c.job(s.pc.job).body, Before(c, s.log.ledger, |s.log.ledger|), s.pc.at, s.mem.conn.db,
            s.mem.conn.pending != {});
  }

  lemma DetachIsolated(c: Config, s: State)
    requires s.pc.AtDetach? && s.pc.job < |s.mem.tokens| == |s.mem.stages| && Isolated(c, s)
    ensures Isolated(c, DetachHandle(s))
  {
    hide Ended, LedgerIsolated;
    assert s.pc.outcome != Error(Interrupted) ==> StandsFor(Direct(s.pc.outcome), s.pc.outcome);
  }

  lemma FoldIsolated(c: Config, s: State, j: JobId, cut: bool)
    requires j < |s.mem.tokens| && Isolated(c, s)
    ensures s.pc == AtFiredLoad(j, cut) ==> Isolated(c, FoldToken(s, j, cut))
    ensures s.pc == AtAbortLoad(j, cut) && s.mem.abort ==> Isolated(c, FoldAbort(s, j, cut))
  {
    hide Ended, LedgerIsolated;
    assert forall e: IsleError :: e.Cancelled? || e.Timeout? || e.Closed? ==> StandsFor(Err(e), Error(Interrupted));
  }

  lemma SettleIsolated(c: Config, s: State, t: State, e: Entry)
    requires Isolated(c, s) && t.log.ledger == s.log.ledger + [e]
    requires Started(e) ==> OwnDoing(c, Before(c, s.log.ledger, |s.log.ledger|), e)
    requires t.pc.AtNext? || t.pc.AtHealth?
    ensures Isolated(c, t)
  {
    hide OwnDoing;
    var ledger, more := s.log.ledger, t.log.ledger;
    assert forall i :: 0 <= i <= |ledger| ==> Before(c, more, i) == Before(c, ledger, i);
    assert forall i :: 0 <= i < |ledger| ==> more[i] == ledger[i];
  }

  lemma ThreadIsolated(c: Config, s: State, usable: bool)
    requires WellPlaced(s) && ThreadCanStep(s) && Isolated(c, s)
    requires InProgress(c, s.pc, s.mem.conn.db, Before(c, s.log.ledger, |s.log.ledger|))
    requires s.pc.AtAbortLoad? ==> s.mem.abort
    ensures Isolated(c, ThreadStep(c, s, usable))
  {
    var t := ThreadStep(c, s, usable);
    hide ClosureSection, DetachHandle, FoldToken, FoldAbort, LedgerIsolated, OwnDoing, GotTo, Ended, Solo, Alone,
      RanAlone;
    match s.pc {
      case AtAbortCheck(j) =>
        if s.mem.abort {
          SettleIsolated(c, s, t, Entry(j, Discarded, Err(Closed), s.mem.conn.db));
        }
      case AtLoad(j) => StartsIsolated(c.job(j).body, s.mem.conn.db);
      case AtAttachInterrupt(j) => StartsIsolated(c.job(j).body, s.mem.conn.db);
      case InClosure(_, _, _, _) => ClosureIsolated(c, s);
      case AtDetach(_, _, _) => DetachIsolated(c, s);
      case AtFiredLoad(j, cut) => FoldIsolated(c, s, j, cut);
      case AtAbortLoad(j, cut) => FoldIsolated(c, s, j, cut);
      case AtRespond(j, a, fate) => SettleIsolated(c, s, t, Entry(j, fate, a, s.mem.conn.db));
      case _ =>
    }
  }

  lemma StepIsolated(c: Config, s: State, e: Event)
    requires Enabled(c, s, e) && Isolated(c, s)
    requires InProgress(c, s.pc, s.mem.conn.db, Before(c, s.log.ledger, |s.log.ledger|))
    requires s.pc.AtAbortLoad? ==> s.mem.abort
    ensures Isolated(c, Apply(c, s, e))
  {
    hide LedgerIsolated, InHandIsolated, ThreadStep, CallerMay, CloserMay, MayFire, MayDropSenders, CurrentJob,
      InProgress;
    if e.Thread? {
      ThreadIsolated(c, s, e.usable);
    }
  }

  lemma {:induction false} RunIsolated(c: Config, events: seq<Event>, s: State)
    requires ValidConfig(c) && Leads(c, Init(c), events, s)
    ensures Isolated(c, s)
  {
    hide Apply, Enabled, InProgress, Serial, NothingRaw, CutsBlamed, AnswersAgree, PanicsChecked, LedgerIsolated;
    if events == [] {
      InitIsolated(c);
    } else {
      var init := events[..|events| - 1];
      var mid := RunFrom(c, Init(c), init).value;
      RunIsolated(c, init, mid);
      assert Leads(c, Init(c), init, mid);
      LedgerHolds(c, mid);
      StepIsolated(c, mid, events[|events| - 1]);
    }
  }

  lemma InitIsolated(c: Config)
    ensures Isolated(c, Init(c))
  {
  }

  /** In every run, a settled job whose closure ran has left the database, and has an answer, that come from its closure
      acting alone on the database before it, with some of its own statements cut. */
  lemma EffectsAreIsolated(c: Config, s: State, i: nat)
    requires ValidConfig(c) && Reachable(c, s) && i < |s.log.ledger| && Started(s.log.ledger[i])
    ensures OwnDoing(c, Before(c, s.log.ledger, i), s.log.ledger[i])
  {
    hide OwnDoing;
    var events :| Leads(c, Init(c), events, s);
    RunIsolated(c, events, s);
  }
}
