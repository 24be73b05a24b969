/** What a settled job's fate goes back to: a job is skipped only for a fire that came before its check, and counts as
    interrupted exactly if one of its own statements was, by a fire that came before its `detach` or by the driver. */
module Causes {
  import opened Errors
  import opened Sqlite
  import opened Tokens
  import opened Protocol
  import opened Invariant
  import opened Preservation
  import opened Runs

  ghost predicate FireOn(fires: seq<Fire>, j: JobId) {
    exists f :: 0 <= f < |fires| && fires[f].job == j
  }

  /** Some fire on job `j` came before its queued-stage check. */
  ghost predicate EarlyFire(fires: seq<Fire>, j: JobId) {
    exists f :: 0 <= f < |fires| && fires[f].job == j && fires[f].cas.Queued?
  }

  /** Some fire on job `j` came before its `detach`. */
  ghost predicate TimelyFire(fires: seq<Fire>, j: JobId) {
    exists f :: 0 <= f < |fires| && fires[f].job == j && !fires[f].cas.Detached?
  }

  /** A statement of job `j` failed with SQLITE_INTERRUPT. */
  ghost predicate OwnCut(cuts: seq<CutStatement>, j: JobId) {
    exists x :: 0 <= x < |cuts| && cuts[x].job == Some(j)
  }

  predicate CutInHand(pc: Pc) {
    match pc
    case InClosure(_, _, cut, _) => cut
    case AtDetach(_, _, cut) => cut
    case AtFiredLoad(_, cut) => cut
    case AtAbortLoad(_, cut) => cut
    case AtRespond(_, _, fate) => fate.Cut?
    case _ => false
  }

  ghost predicate SettledAs(ledger: seq<Entry>, j: JobId, fate: Fate) {
    exists i :: 0 <= i < |ledger| && ledger[i].job == j && ledger[i].fate == fate
  }

  /** A fired token has a fire on record, and fires know how far the wrapper had come. */
  ghost predicate FiresRecorded(m: Memory, fires: seq<Fire>) {
    && |m.tokens| == |m.stages|
    && (forall k :: HasFired(m.tokens, k) ==> FireOn(fires, k))
    && (forall f :: 0 <= f < |fires| ==>
          && fires[f].job < |m.stages|
          && (m.stages[fires[f].job].Queued? ==> fires[f].cas.Queued?)
          && (!m.stages[fires[f].job].Detached? ==> !fires[f].cas.Detached?))
  }

  /** Whoever raised the flag, or cut a statement, through a token did so for a fire that was not late. */
  ghost predicate InterruptsTimely(m: Memory, fires: seq<Fire>) {
    && (forall k :: ByToken(k) in m.conn.pending ==> TimelyFire(fires, k))
    && (forall x, k :: 0 <= x < |m.cuts| && ByToken(k) in m.cuts[x].blame ==> TimelyFire(fires, k))
  }

  /** The thread knows exactly of which jobs a statement was cut. */
  ghost predicate CutsOwned(pc: Pc, cuts: seq<CutStatement>, ledger: seq<Entry>) {
    && (CutInHand(pc) ==> OwnCut(cuts, pc.job))
    && (forall i :: 0 <= i < |ledger| && ledger[i].fate.Cut? ==> OwnCut(cuts, ledger[i].job))
    && (forall x :: 0 <= x < |cuts| && cuts[x].job.Some? ==>
          (CutInHand(pc) && pc.job == cuts[x].job.value) || SettledAs(ledger, cuts[x].job.value, Cut))
  }

  ghost predicate SkipsEarned(pc: Pc, fires: seq<Fire>, ledger: seq<Entry>) {
    && (pc.AtRespond? && pc.fate.Skipped? ==> EarlyFire(fires, pc.job))
    && (forall i :: 0 <= i < |ledger| && ledger[i].fate.Skipped? ==> EarlyFire(fires, ledger[i].job))
  }

  ghost predicate Earned(s: State) {
    && FiresRecorded(s.mem, s.who.fires)
    && InterruptsTimely(s.mem, s.who.fires)
    && CutsOwned(s.pc, s.mem.cuts, s.log.ledger)
    && SkipsEarned(s.pc, s.who.fires, s.log.ledger)
  }

  // ── what each kind of change does ─────────────────────────────────────────────────────────────────

  lemma FireRemembered(fires: seq<Fire>, more: seq<Fire>, j: JobId)
    requires |fires| <= |more|
    requires forall f :: 0 <= f < |fires| ==> more[f].job == fires[f].job && more[f].cas == fires[f].cas
    ensures FireOn(fires, j) ==> FireOn(more, j)
    ensures EarlyFire(fires, j) ==> EarlyFire(more, j)
    ensures TimelyFire(fires, j) ==> TimelyFire(more, j)
  {
  }

  /** Fires are only added. */
  lemma EarnedOnFires(m: Memory, pc: Pc, ledger: seq<Entry>, fires: seq<Fire>, more: seq<Fire>)
    requires |fires| <= |more|
    requires forall f :: 0 <= f < |fires| ==> more[f].job == fires[f].job && more[f].cas == fires[f].cas
    requires InterruptsTimely(m, fires) && SkipsEarned(pc, fires, ledger)
    ensures InterruptsTimely(m, more) && SkipsEarned(pc, more, ledger)
  {
    hide EarlyFire, TimelyFire;
    forall j: JobId
      ensures EarlyFire(fires, j) ==> EarlyFire(more, j)
      ensures TimelyFire(fires, j) ==> TimelyFire(more, j)
    {
      FireRemembered(fires, more, j);
    }
  }

  lemma CutsOnMore(pc: Pc, next: Pc, cuts: seq<CutStatement>, x: CutStatement, ledger: seq<Entry>)
    requires CutsOwned(pc, cuts, ledger)
    requires if x.job.Some? then CutInHand(next) && next.job == x.job.value && CurrentJob(pc) == Some(next.job)
             else !CutInHand(pc) && !CutInHand(next)
    ensures CutsOwned(next, cuts + [x], ledger)
  {
    var more := cuts + [x];
    assert more[|cuts|] == x;
    forall j: JobId | OwnCut(cuts, j)
      ensures OwnCut(more, j)
    {
      var y :| 0 <= y < |cuts| && cuts[y].job == Some(j);
      assert more[y].job == Some(j);
    }
  }

  lemma CutsOnSettle(pc: Pc, next: Pc, cuts: seq<CutStatement>, ledger: seq<Entry>, e: Entry)
    requires CutsOwned(pc, cuts, ledger) && !CutInHand(next)
    requires CutInHand(pc) <==> e.fate.Cut?
    requires CutInHand(pc) ==> pc.job == e.job
    ensures CutsOwned(next, cuts, ledger + [e])
  {
    var more := ledger + [e];
    assert more[|ledger|] == e;
    forall j: JobId | SettledAs(ledger, j, Cut)
      ensures SettledAs(more, j, Cut)
    {
      var i :| 0 <= i < |ledger| && ledger[i].job == j && ledger[i].fate == Cut;
      assert more[i].job == j && more[i].fate == Cut;
    }
  }

  // ── every event keeps it ──────────────────────────────────────────────────────────────────────────

  /** A section of the thread that cuts nothing, settles nothing and raises no flag. */
  lemma EarnedOnMove(s: State, t: State)
    requires Earned(s) && t.who == s.who && t.log.ledger == s.log.ledger && t.mem.cuts == s.mem.cuts
    requires t.mem.conn.pending <= s.mem.conn.pending && FiresRecorded(t.mem, t.who.fires)
    requires CutInHand(t.pc) == CutInHand(s.pc) && (CutInHand(s.pc) ==> t.pc.job == s.pc.job)
    requires t.pc.AtRespond? && t.pc.fate.Skipped? ==> EarlyFire(s.who.fires, t.pc.job)
    ensures Earned(t)
  {
    hide FiresRecorded, EarlyFire, TimelyFire, OwnCut, SettledAs;
  }

  /** The section may move one job out of `Queued`, but only if its token has not fired. */
  lemma RecordedOnStage(m: Memory, n: Memory, fires: seq<Fire>, j: JobId, stage: Stage)
    requires FiresRecorded(m, fires) && j < |m.tokens|
    requires n.stages == m.stages[j := stage] && |n.tokens| == |m.tokens|
    requires forall k :: 0 <= k < |m.tokens| ==> n.tokens[k].state == m.tokens[k].state
    requires !stage.Queued? && (m.stages[j].Detached? ==> stage.Detached?)
    ensures FiresRecorded(n, fires)
  {
    hide FireOn;
  }

  lemma RecordedInPlace(m: Memory, n: Memory, fires: seq<Fire>)
    requires FiresRecorded(m, fires) && n.stages == m.stages && |n.tokens| == |m.tokens|
    requires forall k :: 0 <= k < |m.tokens| ==> n.tokens[k].state == m.tokens[k].state
    ensures FiresRecorded(n, fires)
  {
    hide FireOn;
  }

  lemma CheckFiredEarned(s: State, j: JobId)
    requires Earned(s) && HandlesAgree(s.pc, s.mem, s.log.ledger) && s.pc == AtFiredCheck(j) && j < |s.mem.tokens|
    ensures Earned(CheckFired(s, j))
    ensures var t := CheckFired(s, j); t.pc.AtRespond? ==> EarlyFire(s.who.fires, j)
  {
    var t := CheckFired(s, j);
    StageOfCurrent(s.pc, s.mem, s.log.ledger, j);
    if t.pc.AtStore? {
      RecordedOnStage(s.mem, t.mem, s.who.fires, j, Checked);
    } else {
      assert HasFired(s.mem.tokens, j);
      var f :| 0 <= f < |s.who.fires| && s.who.fires[f].job == j;
      assert s.who.fires[f].cas.Queued?;
    }
    hide FiresRecorded, HandlesAgree, EarlyFire;
    EarnedOnMove(s, t);
  }

  lemma AttachInterruptEarned(c: Config, s: State, j: JobId)
    requires Earned(s) && HandlesAgree(s.pc, s.mem, s.log.ledger)
    requires s.pc == AtAttachInterrupt(j) && HasFired(s.mem.tokens, j)
    ensures Earned(AttachInterrupt(c, s, j))
  {
    var t := AttachInterrupt(c, s, j);
    StageOfCurrent(s.pc, s.mem, s.log.ledger, j);
    RecordedInPlace(s.mem, t.mem, s.who.fires);
    var f :| 0 <= f < |s.who.fires| && s.who.fires[f].job == j;
    assert !s.who.fires[f].cas.Detached?;
    assert TimelyFire(s.who.fires, j);
    hide FiresRecorded, HandlesAgree, EarlyFire, TimelyFire, OwnCut, SettledAs;
  }

  lemma ClosureEarned(c: Config, s: State)
    requires Earned(s) && s.pc.InClosure?
    ensures Earned(ClosureSection(c, s))
  {
    var t := ClosureSection(c, s);
    RecordedInPlace(s.mem, t.mem, s.who.fires);
    hide FiresRecorded, EarlyFire, TimelyFire, OwnCut, SettledAs, CutsOwned;
    if t.mem.cuts == s.mem.cuts {
      EarnedOnMove(s, t);
    } else {
      CutsOnMore(s.pc, t.pc, s.mem.cuts, CutStatement(Some(s.pc.job), s.mem.conn.pending), s.log.ledger);
    }
  }

  lemma HealthEarned(s: State, usable: bool)
    requires Earned(s) && s.pc == AtHealth(true)
    ensures Earned(HealthCheck(s, usable))
  {
    var t := HealthCheck(s, usable);
    hide FiresRecorded, EarlyFire, TimelyFire, OwnCut, SettledAs, CutsOwned;
    assert FiresRecorded(t.mem, t.who.fires) by { RecordedInPlace(s.mem, t.mem, s.who.fires); }
    if t.mem.cuts == s.mem.cuts {
      EarnedOnMove(s, t);
    } else {
      CutsOnMore(s.pc, t.pc, s.mem.cuts, CutStatement(None, s.mem.conn.pending), s.log.ledger);
    }
  }

  /** The job in hand is settled. */
  lemma SettleEarned(s: State, t: State, e: Entry)
    requires Earned(s) && t.mem == s.mem && t.who == s.who && t.log.ledger == s.log.ledger + [e]
    requires !CutInHand(t.pc) && !t.pc.AtRespond? && (CutInHand(s.pc) <==> e.fate.Cut?)
    requires CutInHand(s.pc) ==> s.pc.job == e.job
    requires e.fate.Skipped? ==> s.pc.AtRespond? && s.pc.fate.Skipped? && s.pc.job == e.job
    ensures Earned(t)
  {
    hide FiresRecorded, InterruptsTimely, EarlyFire, OwnCut, SettledAs;
    CutsOnSettle(s.pc, t.pc, s.mem.cuts, s.log.ledger, e);
  }

  lemma StageMoveEarned(s: State, t: State, j: JobId, stage: Stage)
    requires Earned(s) && CurrentJob(s.pc) == Some(j) && j < |s.mem.tokens|
    requires t == s.(pc := t.pc, mem := s.mem.(tokens := t.mem.tokens, stages := s.mem.stages[j := stage]))
    requires |t.mem.tokens| == |s.mem.tokens|
    requires forall k :: 0 <= k < |s.mem.tokens| ==> t.mem.tokens[k].state == s.mem.tokens[k].state
    requires !stage.Queued? && (s.mem.stages[j].Detached? ==> stage.Detached?)
    requires CutInHand(t.pc) == CutInHand(s.pc) && (CutInHand(s.pc) ==> t.pc.job == s.pc.job)
    requires t.pc.AtRespond? ==> !t.pc.fate.Skipped?
    ensures Earned(t)
  {
    RecordedOnStage(s.mem, t.mem, s.who.fires, j, stage);
    hide FiresRecorded;
    EarnedOnMove(s, t);
  }

  /** Sections that change neither tokens, stages, cuts, flag nor ledger. */
  lemma QuietEarned(s: State, t: State)
    requires Earned(s) && t.who == s.who && t.log.ledger == s.log.ledger
    requires t.mem == s.mem.(conn := t.mem.conn) && t.mem.conn.pending <= s.mem.conn.pending
    requires CutInHand(t.pc) == CutInHand(s.pc) && (CutInHand(s.pc) ==> t.pc.job == s.pc.job)
    requires t.pc.AtRespond? ==> !t.pc.fate.Skipped?
    ensures Earned(t)
  {
    RecordedInPlace(s.mem, t.mem, s.who.fires);
    hide FiresRecorded;
    EarnedOnMove(s, t);
  }

  lemma RespondEarned(s: State)
    requires Earned(s) && s.pc.AtRespond?
    ensures Earned(Respond(s))
  {
    hide Earned;
    SettleEarned(s, Respond(s), Entry(s.pc.job, s.pc.fate, s.pc.answer, s.mem.conn.db));
  }

  lemma ThreadEarned(c: Config, s: State, usable: bool)
    requires WellPlaced(s) && ThreadCanStep(s) && Earned(s)
    requires HandlesAgree(s.pc, s.mem, s.log.ledger) && ReasonInHand(s.pc, s.mem.tokens)
    ensures Earned(ThreadStep(c, s, usable))
  {
    hide Earned, HandlesAgree, CheckFired, AttachInterrupt, ClosureSection, HealthCheck, Respond;
    var t := ThreadStep(c, s, usable);
    match s.pc {
      case AtAbortCheck(j) =>
        if s.mem.abort {
          SettleEarned(s, t, Entry(j, Discarded, Err(Closed), s.mem.conn.db));
        } else {
          QuietEarned(s, t);
        }
      case AtFiredCheck(j) => CheckFiredEarned(s, j);
      case AtStore(j) => StageOfCurrent(s.pc, s.mem, s.log.ledger, j); StageMoveEarned(s, t, j, Attached);
      case AtAttachInterrupt(j) => AttachInterruptEarned(c, s, j);
      case InClosure(_, _, _, _) => ClosureEarned(c, s);
      case AtDetach(j, _, _) => StageMoveEarned(s, t, j, Detached);
      case AtRespond(_, _, _) => RespondEarned(s);
      case AtHealth(begun) => if begun { HealthEarned(s, usable); } else { QuietEarned(s, t); }
      case _ => QuietEarned(s, t);
    }
  }

  lemma CasEarned(s: State, j: JobId, r: Reason)
    requires Earned(s) && j < |s.mem.tokens|
    ensures Earned(CasOn(s, j, r))
  {
    var t := CasOn(s, j, r);
    var fires, more := s.who.fires, t.who.fires;
    assert more[|fires|].job == j;
    forall k | HasFired(t.mem.tokens, k)
      ensures FireOn(more, k)
    {
      FireRemembered(fires, more, k);
    }
    hide FireOn, CutsOwned;
    EarnedOnFires(s.mem, s.pc, s.log.ledger, fires, more);
  }

  lemma LockEarned(s: State, f: nat)
    requires Earned(s) && HandlesAgree(s.pc, s.mem, s.log.ledger) && f < |s.who.fires|
    ensures s.who.fires[f].job < |s.mem.tokens| == |s.mem.stages| && Earned(LockFor(s, f))
  {
    var t := LockFor(s, f);
    var fires, more, j := s.who.fires, t.who.fires, s.who.fires[f].job;
    forall k: JobId
      ensures FireOn(fires, k) ==> FireOn(more, k)
    {
      FireRemembered(fires, more, k);
    }
    assert s.mem.tokens[j].attached ==> TimelyFire(fires, j);
    assert FiresRecorded(t.mem, more);
    hide FireOn, TimelyFire, EarlyFire, CutsOwned, HandlesAgree, FiresRecorded;
    EarnedOnFires(t.mem, s.pc, s.log.ledger, fires, more);
  }

  lemma CreateEarned(s: State)
    requires Earned(s)
    ensures Earned(CreateJob(s))
  {
    hide FireOn, TimelyFire, EarlyFire, CutsOwned;
  }

  /** Callers and shutdown calls: only `shutdown_now` touches the connection, and not through a token. */
  lemma BystandersEarned(s: State, t: State)
    requires Earned(s) && t.pc == s.pc && t.log == s.log && t.who.fires == s.who.fires
    requires t.mem == s.mem.(abort := t.mem.abort, conn := t.mem.conn)
    requires t.mem.conn.pending <= s.mem.conn.pending + {ByDriver}
    ensures Earned(t)
  {
    hide FireOn, TimelyFire, EarlyFire, CutsOwned, SkipsEarned;
  }

  lemma StepEarned(c: Config, s: State, e: Event)
    requires WellPlaced(s) && Earned(s) && Enabled(c, s, e)
    requires HandlesAgree(s.pc, s.mem, s.log.ledger) && ReasonInHand(s.pc, s.mem.tokens)
    ensures Earned(Apply(c, s, e))
  {
    hide Earned, HandlesAgree, ReasonInHand, ThreadStep, CreateJob, CasOn, LockFor, CallerMay, CloserMay, MayFire,
      MayDropSenders, ThreadCanStep, CurrentJob;
    match e {
      case Thread(usable) => ThreadEarned(c, s, usable);
      case Create => CreateEarned(s);
      case FireCas(j, r) => CasEarned(s, j, r);
      case FireLock(f) => LockEarned(s, f);
      case _ => BystandersEarned(s, Apply(c, s, e));
    }
  }

  lemma {:induction false} RunEarned(c: Config, events: seq<Event>, s: State)
    requires ValidConfig(c) && Leads(c, Init(c), events, s)
    ensures Earned(s)
  {
    hide Earned, Apply, Enabled;
    if events == [] {
      InitEarned(c);
    } else {
      var init := events[..|events| - 1];
      var mid := RunFrom(c, Init(c), init).value;
      RunEarned(c, init, mid);
      assert Leads(c, Init(c), init, mid);
      TokensHold(c, mid);
      StepEarned(c, mid, events[|events| - 1]);
    }
  }

  lemma InitEarned(c: Config)
    ensures Earned(Init(c))
  {
  }

  lemma ReachableEarned(c: Config, s: State)
    requires ValidConfig(c) && Reachable(c, s)
    ensures Earned(s)
  {
    hide Earned;
    var events :| Leads(c, Init(c), events, s);
    RunEarned(c, events, s);
  }
}
