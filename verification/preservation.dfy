/** Every step keeps the invariant: one lemma per atomic section, assembled from what each kind of change does
    to each part of the invariant. */
module Preservation {
  import opened Errors
  import opened Sqlite
  import opened Tokens
  import opened Protocol
  import opened Invariant

  // ── handles and stages ────────────────────────────────────────────────────────────────────────────

  lemma StageOfCurrent(pc: Pc, m: Memory, ledger: seq<Entry>, j: JobId)
    requires HandlesAgree(pc, m, ledger) && j < |m.tokens| && CurrentJob(pc) == Some(j)
    ensures m.stages[j] == StageAt(pc, j)
    ensures (m.tokens[j].attached <==> StageAt(pc, j).Attached?) && !InLedger(ledger, j)
  {
  }

  /** The thread moves on without changing the stage of any job. */
  lemma HandlesOnMove(pc: Pc, next: Pc, m: Memory, n: Memory, ledger: seq<Entry>)
    requires HandlesAgree(pc, m, ledger)
    requires n.stages == m.stages && |n.tokens| == |m.tokens|
    requires forall k :: 0 <= k < |m.tokens| ==> n.tokens[k].attached == m.tokens[k].attached
    requires forall k :: StageAt(next, k) == StageAt(pc, k)
    requires CurrentJob(next).Some? ==> !InLedger(ledger, CurrentJob(next).value)
    ensures HandlesAgree(next, n, ledger)
  {
  }

  lemma HandlesInPlace(pc: Pc, m: Memory, n: Memory, ledger: seq<Entry>)
    requires HandlesAgree(pc, m, ledger)
    requires n.stages == m.stages && |n.tokens| == |m.tokens|
    requires forall k :: 0 <= k < |m.tokens| ==> n.tokens[k].attached == m.tokens[k].attached
    ensures HandlesAgree(pc, n, ledger)
  {
  }

  /** The thread moves its current job to the stage the next section expects. */
  lemma HandlesOnStage(pc: Pc, next: Pc, m: Memory, n: Memory, ledger: seq<Entry>, j: JobId)
    requires HandlesAgree(pc, m, ledger)
    requires j < |m.tokens| && CurrentJob(pc) == Some(j) && CurrentJob(next) == Some(j)
    requires n.stages == m.stages[j := StageAt(next, j)]
    requires |n.tokens| == |m.tokens| && (n.tokens[j].attached <==> StageAt(next, j).Attached?)
    requires forall k :: 0 <= k < |m.tokens| && k != j ==> n.tokens[k].attached == m.tokens[k].attached
    ensures HandlesAgree(next, n, ledger)
  {
    assert forall k :: k != j ==> StageAt(next, k) == StageAt(pc, k);
  }

  lemma HandlesOnSettle(pc: Pc, next: Pc, m: Memory, ledger: seq<Entry>, e: Entry)
    requires HandlesAgree(pc, m, ledger)
    requires e.job < |m.tokens| && CurrentJob(pc) == Some(e.job) && CurrentJob(next).None?
    requires StageAt(pc, e.job) == if Started(e) then Detached else Queued
    ensures HandlesAgree(next, m, ledger + [e])
  {
    var after := ledger + [e];
    assert after[|ledger|] == e;
    assert !InLedger(ledger, e.job);
    forall k | InLedger(ledger, k)
      ensures InLedger(after, k)
    {
      var i :| 0 <= i < |ledger| && ledger[i].job == k;
      assert after[i].job == k;
    }
  }

  lemma HandlesOnCreate(pc: Pc, m: Memory, ledger: seq<Entry>)
    requires HandlesAgree(pc, m, ledger)
    requires CurrentJob(pc).Some? ==> CurrentJob(pc).value < |m.tokens|
    ensures HandlesAgree(pc, m.(tokens := m.tokens + [FRESH], stages := m.stages + [Queued]), ledger)
  {
  }

  // ── fires ─────────────────────────────────────────────────────────────────────────────────────────

  /** Between the store of the handle and the last section of `attach`. */
  predicate InAttach(pc: Pc, k: JobId) {
    pc == AtLoad(k) || pc == AtAttachInterrupt(k)
  }

  /** The thread moves on within a stage; leaving `attach` takes an interrupt if anybody has fired. */
  lemma FiresOnMove(pc: Pc, next: Pc, m: Memory, n: Memory, fires: seq<Fire>)
    requires FiresAnswered(pc, m, fires)
    requires n.stages == m.stages && |n.tokens| == |m.tokens|
    requires forall k :: 0 <= k < |m.tokens| ==> m.tokens[k].calls <= n.tokens[k].calls
    requires forall f :: 0 <= f < |fires| ==> HasFired(m.tokens, fires[f].job)
    requires forall k: JobId :: InAttach(pc, k) && HasFired(m.tokens, k) ==> InAttach(next, k) || n.tokens[k].calls > 0
    ensures FiresAnswered(next, n, fires)
  {
  }

  /** The thread moves its current job on, out of the stage `Queued` only if nobody has fired. */
  lemma FiresOnStage(pc: Pc, next: Pc, m: Memory, n: Memory, fires: seq<Fire>, j: JobId)
    requires FiresAnswered(pc, m, fires)
    requires forall f :: 0 <= f < |fires| ==> HasFired(m.tokens, fires[f].job)
    requires j < |m.tokens| == |m.stages| && |n.tokens| == |m.tokens|
    requires CurrentJob(pc) == Some(j) && !InAttach(pc, j)
    requires m.stages[j].Queued? ==> !HasFired(m.tokens, j)
    requires n.stages == m.stages[j := StageAt(next, j)]
    requires StageAt(next, j).Detached? || StageAt(next, j).Checked? ||
             (StageAt(next, j).Attached? && next == AtLoad(j))
    requires !m.stages[j].Detached?
    requires forall k :: 0 <= k < |m.tokens| ==> m.tokens[k].calls <= n.tokens[k].calls
    requires StageAt(next, j).Detached? ==> m.stages[j].Attached?
    ensures FiresAnswered(next, n, fires)
  {
  }

  // ── what grows ────────────────────────────────────────────────────────────────────────────────────

  lemma ReasonsGrow(m: Memory, n: Memory, fires: seq<Fire>, closers: seq<Closer>, ledger: seq<Entry>)
    requires Grew(m, n)
    requires ReasonFirst(m, fires, closers) && CutsBlamed(m) && NothingRaw(m, ledger) && AnswersAgree(m.tokens, ledger)
    ensures n.conn.pending <= m.conn.pending ==> ReasonFirst(n, fires, closers)
    ensures n.cuts == m.cuts ==> CutsBlamed(n)
    ensures NothingRaw(n, ledger)
    ensures AnswersAgree(n.tokens, ledger)
  {
  }

  lemma CallersOnMove(c: Config, tokens: seq<Token>, n: seq<Token>, callers: seq<Caller>)
    requires CallersAgree(c, tokens, callers)
    requires |n| == |tokens| && forall k :: 0 <= k < |tokens| ==> n[k].state == tokens[k].state
    ensures CallersAgree(c, n, callers)
  {
  }

  lemma ClosersOnMove(c: Config, pc: Pc, next: Pc, txOpen: bool, abort: bool, closers: seq<Closer>, joinHeld: bool,
      doneSent: bool)
    requires ClosersAgree(c, pc, txOpen, abort, closers, joinHeld, doneSent)
    requires (pc.AtDropReceiver? ==> next.Finished?) && !pc.Finished?
    ensures ClosersAgree(c, next, txOpen, abort, closers, joinHeld, doneSent)
  {
  }

  /** Raising the flag keeps the reasons, if the one who raises it has a reason. */
  lemma ReasonOnInterrupt(m: Memory, n: Memory, fires: seq<Fire>, closers: seq<Closer>, source: Source)
    requires ReasonFirst(m, fires, closers)
    requires n.conn.pending <= m.conn.pending + {source}
    requires match source case ByToken(k) => HasFired(m.tokens, k) case ByDriver => m.abort
    requires Grew(m, n)
    ensures ReasonFirst(n, fires, closers)
  {
  }

  lemma CutsOnCut(m: Memory, n: Memory, x: CutStatement)
    requires CutsBlamed(m) && Blamed(m, x)
    requires n.cuts == m.cuts + [x] && n.tokens == m.tokens && n.abort == m.abort
    ensures CutsBlamed(n)
  {
  }

  lemma ClosersOnDone(c: Config, pc: Pc, txOpen: bool, abort: bool, closers: seq<Closer>, joinHeld: bool,
      doneSent: bool)
    requires ClosersAgree(c, pc, txOpen, abort, closers, joinHeld, doneSent) && !pc.Finished?
    ensures ClosersAgree(c, AtDropReceiver, txOpen, abort, closers, joinHeld, c.async)
  {
  }

  /** A section of the thread keeps everything it has no hand in. */
  lemma ThreadKeepsRest(c: Config, s: State, t: State)
    requires Inv(c, s) && !s.pc.Finished? && (s.pc.AtDropReceiver? ==> t.pc.Finished?)
    requires t.who == s.who && t.chan.accepted == s.chan.accepted && t.chan.txOpen == s.chan.txOpen
    requires t.mem.abort == s.mem.abort && s.mem.cuts <= t.mem.cuts && |t.mem.tokens| == |s.mem.tokens|
    requires forall k :: 0 <= k < |s.mem.tokens| ==>
               t.mem.tokens[k].state == s.mem.tokens[k].state && s.mem.tokens[k].calls <= t.mem.tokens[k].calls
    ensures t.mem.conn.pending <= s.mem.conn.pending ==> ReasonFirst(t.mem, t.who.fires, t.who.closers)
    ensures t.mem.cuts == s.mem.cuts ==> CutsBlamed(t.mem)
    ensures AcceptedOnce(t.chan.accepted, t.who.callers)
    ensures NothingRaw(t.mem, s.log.ledger) && AnswersAgree(t.mem.tokens, s.log.ledger)
    ensures Serial(c, s.log.ledger) && SettledInOrder(t.chan.accepted, s.log.ledger)
    ensures CallersAgree(c, t.mem.tokens, t.who.callers)
    ensures t.log.doneSent == s.log.doneSent ==>
              ClosersAgree(c, t.pc, t.chan.txOpen, t.mem.abort, t.who.closers, t.who.joinHeld, t.log.doneSent)
    ensures forall f :: 0 <= f < |t.who.fires| ==> HasFired(t.mem.tokens, t.who.fires[f].job)
  {
    hide HandlesAgree, FiresAnswered, CutsBlamed, NothingRaw, Serial, AcceptedOnce, SettledInOrder, AnswersAgree,
      CallersAgree, ClosersAgree, InProgress, ConnAgrees, InOrder, PanicsChecked, Bounded, CurrentJob;
    ReasonsGrow(s.mem, t.mem, s.who.fires, s.who.closers, s.log.ledger);
    CallersOnMove(c, s.mem.tokens, t.mem.tokens, s.who.callers);
    ClosersOnMove(c, s.pc, t.pc, s.chan.txOpen, s.mem.abort, s.who.closers, s.who.joinHeld, s.log.doneSent);
  }

  // ── the thread's sections ─────────────────────────────────────────────────────────────────────────

  lemma PanicsOnSettle(ledger: seq<Entry>, e: Entry)
    ensures Panics(ledger + [e]) == Panics(ledger) + if IsPanic(e.answer) then 1 else 0
  {
    assert (ledger + [e])[..|ledger|] == ledger;
  }

  lemma LedgerOnSettle(c: Config, accepted: seq<Request>, m: Memory, ledger: seq<Entry>, e: Entry)
    requires SettledInOrder(accepted, ledger) && Serial(c, ledger)
    requires NothingRaw(m, ledger) && AnswersAgree(m.tokens, ledger)
    requires |ledger| < |accepted| && accepted[|ledger|] == Run(e.job)
    requires Explained(c, Before(c, ledger, |ledger|), e)
    requires !RawInterrupt(e.answer) && Agrees(m.tokens, e.job, e.answer) && (e.fate.Cut? ==> Cause(m, e.job))
    requires e.fate.Discarded? ==> m.abort
    ensures SettledInOrder(accepted, ledger + [e]) && Serial(c, ledger + [e])
    ensures NothingRaw(m, ledger + [e]) && AnswersAgree(m.tokens, ledger + [e])
  {
    hide RanAlone;
    assert forall i :: 0 <= i <= |ledger| ==> Before(c, ledger + [e], i) == Before(c, ledger, i);
  }

  /** The job in hand is settled with entry `e`. */
  lemma SettleKeeps(c: Config, s: State, next: Pc, e: Entry)
    requires Inv(c, s) && CurrentJob(s.pc) == Some(e.job) && CurrentJob(next).None? && !InAttach(s.pc, e.job)
    requires StageAt(s.pc, e.job) == if Started(e) then Detached else Queued
    requires Explained(c, Before(c, s.log.ledger, |s.log.ledger|), e)
    requires !RawInterrupt(e.answer) && Agrees(s.mem.tokens, e.job, e.answer) && (e.fate.Cut? ==> Cause(s.mem, e.job))
    requires e.fate.Discarded? ==> s.mem.abort
    ensures var ledger := s.log.ledger + [e];
      && HandlesAgree(next, s.mem, ledger) && FiresAnswered(next, s.mem, s.who.fires)
      && SettledInOrder(s.chan.accepted, ledger) && Serial(c, ledger)
      && NothingRaw(s.mem, ledger) && AnswersAgree(s.mem.tokens, ledger)
      && Panics(ledger) == Panics(s.log.ledger) + if IsPanic(e.answer) then 1 else 0
  {
    hide HandlesAgree, FiresAnswered, CutsBlamed, AcceptedOnce, CallersAgree, ClosersAgree, Explained, Panics, Before,
      InProgress, ConnAgrees, PanicsChecked, Bounded, Serial, SettledInOrder, NothingRaw, AnswersAgree, Agrees;
    LedgerOnSettle(c, s.chan.accepted, s.mem, s.log.ledger, e);
    HandlesOnSettle(s.pc, next, s.mem, s.log.ledger, e);
    FiresOnMove(s.pc, next, s.mem, s.mem, s.who.fires);
    PanicsOnSettle(s.log.ledger, e);
  }

  lemma NotYetSettled(c: Config, s: State, i: nat)
    requires Inv(c, s) && |s.log.ledger| <= i < |s.chan.accepted| && s.chan.accepted[i].Run?
    ensures s.chan.accepted[i].job < |s.mem.tokens|
    ensures !InLedger(s.log.ledger, s.chan.accepted[i].job)
  {
    hide HandlesAgree, FiresAnswered, CutsBlamed, NothingRaw, Serial, ReasonFirst, AnswersAgree,
      CallersAgree, ClosersAgree, InProgress, ConnAgrees, PanicsChecked, CurrentJob;
  }

  lemma TakeKeeps(c: Config, s: State)
    requires Inv(c, s) && s.pc.AtNext? && s.chan.queue != []
    ensures Inv(c, Take(s))
  {
    hide HandlesAgree, FiresAnswered, CutsBlamed, NothingRaw, Serial, AcceptedOnce, SettledInOrder, ReasonFirst,
      AnswersAgree, CallersAgree, ClosersAgree, RanAlone, Alone, Panics, Solo;
    var t := Take(s);
    assert s.chan.queue[0] == s.chan.accepted[s.chan.taken];
    if t.pc.AtAbortCheck? {
      NotYetSettled(c, s, s.chan.taken);
    }
    ThreadKeepsRest(c, s, t);
    HandlesOnMove(s.pc, t.pc, s.mem, t.mem, s.log.ledger);
    FiresOnMove(s.pc, t.pc, s.mem, t.mem, s.who.fires);
  }

  lemma DisconnectKeeps(c: Config, s: State)
    requires Inv(c, s) && s.pc.AtNext? && s.chan.queue == [] && !s.chan.txOpen
    ensures Inv(c, Disconnect(s))
  {
    hide HandlesAgree, FiresAnswered, CutsBlamed, NothingRaw, Serial, AcceptedOnce, SettledInOrder, ReasonFirst,
      AnswersAgree, CallersAgree, ClosersAgree, RanAlone, Alone, Panics, Solo;
    var t := Disconnect(s);
    ThreadKeepsRest(c, s, t);
    HandlesOnMove(s.pc, t.pc, s.mem, t.mem, s.log.ledger);
    FiresOnMove(s.pc, t.pc, s.mem, t.mem, s.who.fires);
  }

  lemma CheckAbortKeeps(c: Config, s: State, j: JobId)
    requires Inv(c, s) && s.pc == AtAbortCheck(j)
    ensures Inv(c, CheckAbort(s, j))
  {
    hide HandlesAgree, FiresAnswered, CutsBlamed, NothingRaw, Serial, AcceptedOnce, SettledInOrder, ReasonFirst,
      AnswersAgree, CallersAgree, ClosersAgree, RanAlone, Alone, Panics, Solo;
    var t := CheckAbort(s, j);
    StageOfCurrent(s.pc, s.mem, s.log.ledger, j);
    ThreadKeepsRest(c, s, t);
    if s.mem.abort {
      SettleKeeps(c, s, t.pc, Entry(j, Discarded, Err(Closed), s.mem.conn.db));
    } else {
      HandlesOnMove(s.pc, t.pc, s.mem, t.mem, s.log.ledger);
      FiresOnMove(s.pc, t.pc, s.mem, t.mem, s.who.fires);
    }
  }

  lemma CheckFiredKeeps(c: Config, s: State, j: JobId)
    requires Inv(c, s) && s.pc == AtFiredCheck(j)
    ensures Inv(c, CheckFired(s, j))
  {
    hide HandlesAgree, FiresAnswered, CutsBlamed, NothingRaw, Serial, AcceptedOnce, SettledInOrder, ReasonFirst,
      AnswersAgree, CallersAgree, ClosersAgree, RanAlone, Alone, Panics, Solo;
    var t := CheckFired(s, j);
    StageOfCurrent(s.pc, s.mem, s.log.ledger, j);
    ThreadKeepsRest(c, s, t);
    if t.pc.AtStore? {
      HandlesOnStage(s.pc, t.pc, s.mem, t.mem, s.log.ledger, j);
      FiresOnStage(s.pc, t.pc, s.mem, t.mem, s.who.fires, j);
    } else {
      HandlesOnMove(s.pc, t.pc, s.mem, t.mem, s.log.ledger);
      FiresOnMove(s.pc, t.pc, s.mem, t.mem, s.who.fires);
    }
  }

  lemma StoreKeeps(c: Config, s: State, j: JobId)
    requires Inv(c, s) && s.pc == AtStore(j)
    ensures Inv(c, StoreHandle(s, j))
  {
    hide HandlesAgree, FiresAnswered, CutsBlamed, NothingRaw, Serial, AcceptedOnce, SettledInOrder, ReasonFirst,
      AnswersAgree, CallersAgree, ClosersAgree, RanAlone, Alone, Panics, Solo;
    var t := StoreHandle(s, j);
    StageOfCurrent(s.pc, s.mem, s.log.ledger, j);
    ThreadKeepsRest(c, s, t);
    HandlesOnStage(s.pc, t.pc, s.mem, t.mem, s.log.ledger, j);
    FiresOnStage(s.pc, t.pc, s.mem, t.mem, s.who.fires, j);
  }

  lemma LoadKeeps(c: Config, s: State, j: JobId)
    requires Inv(c, s) && s.pc == AtLoad(j) && Honest(c.job(j).body)
    ensures Inv(c, LoadState(c, s, j))
  {
    hide HandlesAgree, FiresAnswered, CutsBlamed, NothingRaw, Serial, AcceptedOnce, SettledInOrder, ReasonFirst,
      AnswersAgree, CallersAgree, ClosersAgree, RanAlone, Alone, Panics;
    var t := LoadState(c, s, j);
    StageOfCurrent(s.pc, s.mem, s.log.ledger, j);
    ThreadKeepsRest(c, s, t);
    HandlesOnMove(s.pc, t.pc, s.mem, t.mem, s.log.ledger);
    FiresOnMove(s.pc, t.pc, s.mem, t.mem, s.who.fires);
  }

  lemma AttachInterruptKeeps(c: Config, s: State, j: JobId)
    requires Inv(c, s) && s.pc == AtAttachInterrupt(j) && Honest(c.job(j).body)
    ensures Inv(c, AttachInterrupt(c, s, j))
  {
    hide HandlesAgree, FiresAnswered, CutsBlamed, NothingRaw, Serial, AcceptedOnce, SettledInOrder, ReasonFirst,
      AnswersAgree, CallersAgree, ClosersAgree, RanAlone, Alone, Panics;
    var t := AttachInterrupt(c, s, j);
    StageOfCurrent(s.pc, s.mem, s.log.ledger, j);
    ThreadKeepsRest(c, s, t);
    ReasonOnInterrupt(s.mem, t.mem, s.who.fires, s.who.closers, ByToken(j));
    HandlesOnMove(s.pc, t.pc, s.mem, t.mem, s.log.ledger);
    FiresOnMove(s.pc, t.pc, s.mem, t.mem, s.who.fires);
  }

  lemma BlameCurrent(s: State, j: JobId)
    requires ReasonFirst(s.mem, s.who.fires, s.who.closers)
    requires s.mem.conn.pending != {} && s.mem.conn.pending <= {ByToken(j), ByDriver}
    ensures Blamed(s.mem, CutStatement(Some(j), s.mem.conn.pending)) && HasReason(s.mem, j)
  {
    var source :| source in s.mem.conn.pending;
  }

  lemma ClosureKeepsConn(c: Config, s: State)
    requires s.pc.InClosure? && HonestAt(c.job(s.pc.job).body, s.pc.at)
    requires ConnAgrees(c, s.pc, s.mem) && ReasonFirst(s.mem, s.who.fires, s.who.closers) && CutsBlamed(s.mem)
    ensures var t := ClosureSection(c, s); ConnAgrees(c, t.pc, t.mem) && CutsBlamed(t.mem)
  {
    var t := ClosureSection(c, s);
    if s.mem.conn.active > 0 && s.mem.conn.pending != {} {
      BlameCurrent(s, s.pc.job);
      if t.mem.cuts != s.mem.cuts {
        CutsOnCut(s.mem, t.mem, CutStatement(Some(s.pc.job), s.mem.conn.pending));
      }
    }
  }

  lemma ClosureKeepsProgress(c: Config, s: State, settled: Db)
    requires s.pc.InClosure? && InProgress(c, s.pc, s.mem.conn.db, settled)
    ensures var t := ClosureSection(c, s); InProgress(c, t.pc, t.mem.conn.db, settled)
  {
    var InClosure(j, l, cut, n) := s.pc;
    if !cut && c.job(j).body.act(l).Finish? {
      assert FinishesAt(c.job(j).body, settled, n, s.mem.conn.db, c.job(j).body.act(l).o);
    }
  }

  lemma ClosureFrame(c: Config, s: State)
    requires s.pc.InClosure?
    ensures var t := ClosureSection(c, s);
      && t == s.(pc := t.pc, mem := s.mem.(conn := t.mem.conn, cuts := t.mem.cuts))
      && (t.pc.InClosure? || t.pc.AtDetach?) && t.pc.job == s.pc.job
      && t.mem.conn.pending <= s.mem.conn.pending && s.mem.cuts <= t.mem.cuts
  {
  }

  lemma ClosureKeeps(c: Config, s: State)
    requires Inv(c, s) && s.pc.InClosure? && HonestAt(c.job(s.pc.job).body, s.pc.at)
    ensures Inv(c, ClosureSection(c, s))
  {
    hide HandlesAgree, FiresAnswered, CutsBlamed, NothingRaw, Serial, AcceptedOnce, SettledInOrder, ReasonFirst,
      AnswersAgree, CallersAgree, ClosersAgree, Panics, InProgress, ConnAgrees, HonestAt, ClosureSection;
    ClosureFrame(c, s);
    var t := ClosureSection(c, s);
    var j := s.pc.job;
    StageOfCurrent(s.pc, s.mem, s.log.ledger, j);
    ThreadKeepsRest(c, s, t);
    ClosureKeepsConn(c, s);
    ClosureKeepsProgress(c, s, Before(c, s.log.ledger, |s.log.ledger|));
    HandlesOnMove(s.pc, t.pc, s.mem, t.mem, s.log.ledger);
    FiresOnMove(s.pc, t.pc, s.mem, t.mem, s.who.fires);
  }

  lemma DetachKeeps(c: Config, s: State)
    requires Inv(c, s) && s.pc.AtDetach?
    ensures Inv(c, DetachHandle(s))
  {
    hide HandlesAgree, FiresAnswered, CutsBlamed, NothingRaw, Serial, AcceptedOnce, SettledInOrder, ReasonFirst,
      AnswersAgree, CallersAgree, ClosersAgree, Alone, Panics, Solo;
    var t := DetachHandle(s);
    var j := s.pc.job;
    StageOfCurrent(s.pc, s.mem, s.log.ledger, j);
    ThreadKeepsRest(c, s, t);
    if s.pc.outcome != Error(Interrupted) && !s.pc.cut {
      assert Explained(c, Before(c, s.log.ledger, |s.log.ledger|), Entry(j, Ran, Direct(s.pc.outcome), s.mem.conn.db));
    }
    HandlesOnStage(s.pc, t.pc, s.mem, t.mem, s.log.ledger, j);
    FiresOnStage(s.pc, t.pc, s.mem, t.mem, s.who.fires, j);
  }

  lemma FoldTokenKeeps(c: Config, s: State, j: JobId, cut: bool)
    requires Inv(c, s) && s.pc == AtFiredLoad(j, cut)
    ensures Inv(c, FoldToken(s, j, cut))
  {
    hide HandlesAgree, FiresAnswered, CutsBlamed, NothingRaw, Serial, AcceptedOnce, SettledInOrder, ReasonFirst,
      AnswersAgree, CallersAgree, ClosersAgree, RanAlone, Alone, Panics, Solo;
    var t := FoldToken(s, j, cut);
    StageOfCurrent(s.pc, s.mem, s.log.ledger, j);
    ThreadKeepsRest(c, s, t);
    HandlesOnMove(s.pc, t.pc, s.mem, t.mem, s.log.ledger);
    FiresOnMove(s.pc, t.pc, s.mem, t.mem, s.who.fires);
  }

  lemma FoldAbortKeeps(c: Config, s: State, j: JobId, cut: bool)
    requires Inv(c, s) && s.pc == AtAbortLoad(j, cut)
    ensures Inv(c, FoldAbort(s, j, cut))
  {
    hide HandlesAgree, FiresAnswered, CutsBlamed, NothingRaw, Serial, AcceptedOnce, SettledInOrder, ReasonFirst,
      AnswersAgree, CallersAgree, ClosersAgree, RanAlone, Alone, Panics, Solo;
    var t := FoldAbort(s, j, cut);
    StageOfCurrent(s.pc, s.mem, s.log.ledger, j);
    ThreadKeepsRest(c, s, t);
    HandlesOnMove(s.pc, t.pc, s.mem, t.mem, s.log.ledger);
    FiresOnMove(s.pc, t.pc, s.mem, t.mem, s.who.fires);
  }

  lemma RespondKeeps(c: Config, s: State)
    requires Inv(c, s) && s.pc.AtRespond?
    ensures Inv(c, Respond(s))
  {
    hide HandlesAgree, FiresAnswered, CutsBlamed, NothingRaw, Serial, AcceptedOnce, SettledInOrder, ReasonFirst,
      AnswersAgree, CallersAgree, ClosersAgree, RanAlone, Alone, Panics, Solo;
    var t := Respond(s);
    var j := s.pc.job;
    StageOfCurrent(s.pc, s.mem, s.log.ledger, j);
    ThreadKeepsRest(c, s, t);
    SettleKeeps(c, s, t.pc, Entry(j, s.pc.fate, s.pc.answer, s.mem.conn.db));
  }

  lemma BeginHealthKeeps(c: Config, s: State)
    requires Inv(c, s) && s.pc == AtHealth(false)
    ensures Inv(c, BeginHealth(s))
  {
    hide HandlesAgree, FiresAnswered, CutsBlamed, NothingRaw, Serial, AcceptedOnce, SettledInOrder, ReasonFirst,
      AnswersAgree, CallersAgree, ClosersAgree, RanAlone, Alone, Panics, Solo;
    var t := BeginHealth(s);
    ThreadKeepsRest(c, s, t);
    HandlesOnMove(s.pc, t.pc, s.mem, t.mem, s.log.ledger);
    FiresOnMove(s.pc, t.pc, s.mem, t.mem, s.who.fires);
  }

  lemma BlameDriver(s: State)
    requires ReasonFirst(s.mem, s.who.fires, s.who.closers)
    requires s.mem.conn.pending != {} && s.mem.conn.pending <= {ByDriver}
    ensures Blamed(s.mem, CutStatement(None, s.mem.conn.pending))
  {
    var source :| source in s.mem.conn.pending;
    assert s.mem.conn.pending == {ByDriver};
  }

  lemma HealthCheckKeeps(c: Config, s: State, usable: bool)
    requires Inv(c, s) && s.pc == AtHealth(true)
    ensures Inv(c, HealthCheck(s, usable))
  {
    hide HandlesAgree, FiresAnswered, CutsBlamed, NothingRaw, Serial, AcceptedOnce, SettledInOrder, ReasonFirst,
      AnswersAgree, CallersAgree, ClosersAgree, RanAlone, Alone, Panics, Solo;
    var t := HealthCheck(s, usable);
    ThreadKeepsRest(c, s, t);
    if s.mem.conn.pending != {} {
      BlameDriver(s);
      CutsOnCut(s.mem, t.mem, CutStatement(None, s.mem.conn.pending));
    }
    HandlesOnMove(s.pc, t.pc, s.mem, t.mem, s.log.ledger);
    FiresOnMove(s.pc, t.pc, s.mem, t.mem, s.who.fires);
  }

  lemma DropConnectionKeeps(c: Config, s: State)
    requires Inv(c, s) && s.pc.AtExit?
    ensures Inv(c, DropConnection(s))
  {
    hide HandlesAgree, FiresAnswered, CutsBlamed, NothingRaw, Serial, AcceptedOnce, SettledInOrder, ReasonFirst,
      AnswersAgree, CallersAgree, ClosersAgree, RanAlone, Alone, Panics, Solo;
    var t := DropConnection(s);
    ThreadKeepsRest(c, s, t);
    HandlesOnMove(s.pc, t.pc, s.mem, t.mem, s.log.ledger);
    FiresOnMove(s.pc, t.pc, s.mem, t.mem, s.who.fires);
  }

  lemma SignalDoneKeeps(c: Config, s: State)
    requires Inv(c, s) && s.pc.AtDone?
    ensures Inv(c, SignalDone(c, s))
  {
    hide HandlesAgree, FiresAnswered, CutsBlamed, NothingRaw, Serial, AcceptedOnce, SettledInOrder, ReasonFirst,
      AnswersAgree, CallersAgree, ClosersAgree, RanAlone, Alone, Panics, Solo;
    var t := SignalDone(c, s);
    ThreadKeepsRest(c, s, t);
    ClosersOnDone(c, s.pc, s.chan.txOpen, s.mem.abort, s.who.closers, s.who.joinHeld, s.log.doneSent);
    HandlesOnMove(s.pc, t.pc, s.mem, t.mem, s.log.ledger);
    FiresOnMove(s.pc, t.pc, s.mem, t.mem, s.who.fires);
  }

  lemma DropReceiverKeeps(c: Config, s: State)
    requires Inv(c, s) && s.pc.AtDropReceiver?
    ensures Inv(c, DropReceiver(s))
  {
    hide HandlesAgree, FiresAnswered, CutsBlamed, NothingRaw, Serial, AcceptedOnce, SettledInOrder, ReasonFirst,
      AnswersAgree, CallersAgree, ClosersAgree, RanAlone, Alone, Panics, Solo;
    var t := DropReceiver(s);
    ThreadKeepsRest(c, s, t);
    HandlesOnMove(s.pc, t.pc, s.mem, t.mem, s.log.ledger);
    FiresOnMove(s.pc, t.pc, s.mem, t.mem, s.who.fires);
  }

  // ── everybody else's sections ─────────────────────────────────────────────────────────────────────

  lemma AcceptOne(accepted: seq<Request>, callers: seq<Caller>, ledger: seq<Entry>, r: Request, next: seq<Caller>)
    requires AcceptedOnce(accepted, callers) && SettledInOrder(accepted, ledger)
    requires if r.Run? then r.job < |callers| && callers[r.job].Sending? && next == callers[r.job := Waiting]
             else next == callers
    ensures AcceptedOnce(accepted + [r], next) && SettledInOrder(accepted + [r], ledger)
  {
  }

  /** Appending at the end of the queue does not disturb the order. */
  lemma InOrderOnEnqueue(pc: Pc, chan: Channel, settled: nat, exit: Exit, r: Request)
    requires InOrder(pc, chan, settled, exit) && chan.rxOpen && chan.txOpen
    ensures InOrder(pc, Enqueue(chan, r), settled, exit)
  {
    hide CurrentJob;
  }

  lemma FiresInPlace(pc: Pc, m: Memory, n: Memory, fires: seq<Fire>)
    requires FiresAnswered(pc, m, fires)
    requires n.stages == m.stages && n.tokens == m.tokens
    ensures FiresAnswered(pc, n, fires)
  {
  }

  /** More reasons, more interrupts, more jobs: what the thread relies on stays true. */
  lemma MemoryGrows(c: Config, pc: Pc, m: Memory, n: Memory, fires: seq<Fire>, closers: seq<Closer>, ledger: seq<Entry>)
    requires Grew(m, n) && |n.stages| == |n.tokens| && |m.stages| == |m.tokens|
    requires forall k :: 0 <= k < |m.stages| ==> n.stages[k] == m.stages[k]
    requires n.conn == m.conn && n.cuts == m.cuts
    requires ConnAgrees(c, pc, m) && ReasonInHand(pc, m.tokens) && FiresAnswered(pc, m, fires)
    requires ReasonFirst(m, fires, closers) && CutsBlamed(m) && NothingRaw(m, ledger) && AnswersAgree(m.tokens, ledger)
    ensures ConnAgrees(c, pc, n) && ReasonInHand(pc, n.tokens) && FiresAnswered(pc, n, fires)
    ensures ReasonFirst(n, fires, closers) && CutsBlamed(n) && NothingRaw(n, ledger) && AnswersAgree(n.tokens, ledger)
  {
    ReasonsGrow(m, n, fires, closers, ledger);
    hide CutsBlamed, NothingRaw, ReasonFirst, AnswersAgree;
  }

  /** Raising the flag: by the driver, or through the token of the job whose handle is registered. */
  lemma FlagRaised(c: Config, pc: Pc, m: Memory, source: Source, fires: seq<Fire>, closers: seq<Closer>,
      ledger: seq<Entry>)
    requires source.ByDriver? || InWindow(pc, source.job)
    requires match source case ByToken(k) => HasFired(m.tokens, k) case ByDriver => m.abort
    requires ConnAgrees(c, pc, m) && ReasonFirst(m, fires, closers) && CutsBlamed(m) && NothingRaw(m, ledger)
    ensures var n := m.(conn := m.conn.Interrupt(source));
      ConnAgrees(c, pc, n) && ReasonFirst(n, fires, closers) && CutsBlamed(n) && NothingRaw(n, ledger)
  {
    ReasonsGrow(m, m.(conn := m.conn.Interrupt(source)), fires, closers, []);
  }

  lemma CreateKeepsCallers(c: Config, s: State)
    requires CallersAgree(c, s.mem.tokens, s.who.callers) && AcceptedOnce(s.chan.accepted, s.who.callers)
    ensures var t := CreateJob(s);
      CallersAgree(c, t.mem.tokens, t.who.callers) && AcceptedOnce(t.chan.accepted, t.who.callers)
  {
  }

  lemma CreateKeeps(c: Config, s: State)
    requires Inv(c, s) && s.chan.txOpen
    ensures Inv(c, CreateJob(s))
  {
    hide HandlesAgree, FiresAnswered, CutsBlamed, NothingRaw, Serial, AcceptedOnce, SettledInOrder, ReasonFirst,
      AnswersAgree, CallersAgree, ClosersAgree, InProgress, ConnAgrees, ReasonInHand, Panics, CurrentJob;
    var t := CreateJob(s);
    HandlesOnCreate(s.pc, s.mem, s.log.ledger);
    CreateKeepsCallers(c, s);
    MemoryGrows(c, s.pc, s.mem, t.mem, s.who.fires, s.who.closers, s.log.ledger);
  }

  lemma CasKeepsCallers(c: Config, s: State, j: JobId, r: Reason)
    requires CallersAgree(c, s.mem.tokens, s.who.callers) && |s.mem.stages| == |s.mem.tokens|
    requires j < |s.who.callers| && MayFire(c, s, j, r)
    ensures CallersAgree(c, CasOn(s, j, r).mem.tokens, s.who.callers)
  {
  }

  lemma FireAdded(pc: Pc, m: Memory, fires: seq<Fire>, closers: seq<Closer>, j: JobId)
    requires FiresAnswered(pc, m, fires) && ReasonFirst(m, fires, closers)
    requires HasFired(m.tokens, j) && |m.tokens| == |m.stages|
    ensures var next := fires + [Fire(j, m.stages[j], None)];
      FiresAnswered(pc, m, next) && ReasonFirst(m, next, closers)
  {
  }

  lemma CasKeeps(c: Config, s: State, j: JobId, r: Reason)
    requires Inv(c, s) && j < |s.who.callers| && MayFire(c, s, j, r)
    ensures Inv(c, CasOn(s, j, r))
  {
    hide HandlesAgree, FiresAnswered, CutsBlamed, NothingRaw, Serial, AcceptedOnce, SettledInOrder, ReasonFirst,
      AnswersAgree, CallersAgree, ClosersAgree, InProgress, ConnAgrees, ReasonInHand, Panics, CurrentJob;
    var t := CasOn(s, j, r);
    MemoryGrows(c, s.pc, s.mem, t.mem, s.who.fires, s.who.closers, s.log.ledger);
    CasKeepsCallers(c, s, j, r);
    FireAdded(s.pc, t.mem, s.who.fires, s.who.closers, j);
    HandlesInPlace(s.pc, s.mem, t.mem, s.log.ledger);
  }

  lemma FireLocked(pc: Pc, m: Memory, n: Memory, ledger: seq<Entry>, fires: seq<Fire>, closers: seq<Closer>, f: nat)
    requires HandlesAgree(pc, m, ledger) && FiresAnswered(pc, m, fires) && ReasonFirst(m, fires, closers)
    requires f < |fires| && fires[f].job < |m.tokens| && n == InterruptThrough(m, fires[f].job)
    ensures var next := fires[f := fires[f].(locked := Some(m.stages[fires[f].job]))];
      FiresAnswered(pc, n, next) && (ReasonFirst(n, fires, closers) ==> ReasonFirst(n, next, closers))
  {
  }

  lemma WindowOfHandle(pc: Pc, m: Memory, ledger: seq<Entry>, k: JobId)
    requires HandlesAgree(pc, m, ledger) && k < |m.tokens| && m.tokens[k].attached
    ensures InWindow(pc, k)
  {
  }

  lemma FireHasReason(m: Memory, fires: seq<Fire>, closers: seq<Closer>, f: nat)
    requires ReasonFirst(m, fires, closers) && f < |fires|
    ensures HasFired(m.tokens, fires[f].job)
  {
  }

  lemma LockKeeps(c: Config, s: State, f: nat)
    requires Inv(c, s) && f < |s.who.fires| && s.who.fires[f].locked.None?
    ensures Inv(c, LockFor(s, f))
  {
    hide HandlesAgree, FiresAnswered, CutsBlamed, NothingRaw, Serial, AcceptedOnce, SettledInOrder, ReasonFirst,
      AnswersAgree, CallersAgree, ClosersAgree, InProgress, ConnAgrees, ReasonInHand, Panics, CurrentJob;
    var t := LockFor(s, f);
    var j := s.who.fires[f].job;
    var counted := s.mem.(tokens := t.mem.tokens);
    MemoryGrows(c, s.pc, s.mem, counted, s.who.fires, s.who.closers, s.log.ledger);
    if s.mem.tokens[j].attached {
      WindowOfHandle(s.pc, s.mem, s.log.ledger, j);
      FireHasReason(s.mem, s.who.fires, s.who.closers, f);
      FlagRaised(c, s.pc, counted, ByToken(j), s.who.fires, s.who.closers, s.log.ledger);
    }
    FireLocked(s.pc, s.mem, t.mem, s.log.ledger, s.who.fires, s.who.closers, f);
    CallersOnMove(c, s.mem.tokens, t.mem.tokens, s.who.callers);
    HandlesInPlace(s.pc, s.mem, t.mem, s.log.ledger);
  }

  lemma {:induction false} SettledIsEntry(ledger: seq<Entry>, j: JobId)
    requires Settled(ledger, j).Some?
    ensures exists i :: 0 <= i < |ledger| && ledger[i].job == j && Settled(ledger, j) == Some(ledger[i].answer)
  {
    var n := |ledger| - 1;
    if ledger[n].job != j {
      SettledIsEntry(ledger[..n], j);
      var i :| 0 <= i < n && ledger[..n][i].job == j && Settled(ledger[..n], j) == Some(ledger[..n][i].answer);
      assert ledger[i].job == j;
    }
  }

  /** What a caller receives agrees with the token, and is never the raw interrupt. */
  lemma ReceivedAgrees(s: State, j: JobId, a: Answer)
    requires NothingRaw(s.mem, s.log.ledger) && AnswersAgree(s.mem.tokens, s.log.ledger)
    requires WaitResult(s, j) == Some(a)
    ensures !RawInterrupt(a) && Agrees(s.mem.tokens, j, a)
  {
    if Settled(s.log.ledger, j).Some? {
      SettledIsEntry(s.log.ledger, j);
    }
  }

  lemma CallersOnCaller(c: Config, s: State, j: JobId, next: Caller)
    requires CallersAgree(c, s.mem.tokens, s.who.callers) && AcceptedOnce(s.chan.accepted, s.who.callers)
    requires CallerMay(c, s, j, next)
    requires next.Returned? ==> !RawInterrupt(next.a) && Agrees(s.mem.tokens, j, next.a)
    ensures CallersAgree(c, s.mem.tokens, s.who.callers[j := next])
    ensures !next.Waiting? ==> AcceptedOnce(s.chan.accepted, s.who.callers[j := next])
  {
    hide WaitResult;
  }

  lemma CallerKeeps(c: Config, s: State, j: JobId, next: Caller)
    requires Inv(c, s) && CallerMay(c, s, j, next)
    ensures Inv(c, MoveCaller(s, j, next))
  {
    hide HandlesAgree, FiresAnswered, CutsBlamed, NothingRaw, Serial, AcceptedOnce, SettledInOrder, ReasonFirst,
      AnswersAgree, CallersAgree, ClosersAgree, InProgress, ConnAgrees, ReasonInHand, Panics, CurrentJob;
    var t := MoveCaller(s, j, next);
    if next.Returned? {
      ReceivedAgrees(s, j, next.a);
    }
    CallersOnCaller(c, s, j, next);
    if next.Waiting? {
      AcceptOne(s.chan.accepted, s.who.callers, s.log.ledger, Run(j), t.who.callers);
      InOrderOnEnqueue(s.pc, s.chan, |s.log.ledger|, s.log.exit, Run(j));
    }
  }

  lemma CloserAdded(c: Config, s: State, now: bool)
    requires s.chan.txOpen && (c.async ==> s.who.closers == []) && (now ==> c.async)
    requires ReasonFirst(s.mem, s.who.fires, s.who.closers)
    requires ClosersAgree(c, s.pc, s.chan.txOpen, s.mem.abort, s.who.closers, s.who.joinHeld, s.log.doneSent)
    ensures var t := AddCloser(s, now);
      && ReasonFirst(t.mem, t.who.fires, t.who.closers)
      && ClosersAgree(c, t.pc, t.chan.txOpen, t.mem.abort, t.who.closers, t.who.joinHeld, t.log.doneSent)
  {
  }

  lemma AddCloserKeeps(c: Config, s: State, now: bool)
    requires Inv(c, s) && s.chan.txOpen && (c.async ==> s.who.closers == []) && (now ==> c.async)
    ensures Inv(c, AddCloser(s, now))
  {
    hide HandlesAgree, FiresAnswered, CutsBlamed, NothingRaw, Serial, AcceptedOnce, SettledInOrder, ReasonFirst,
      AnswersAgree, CallersAgree, ClosersAgree, InProgress, ConnAgrees, ReasonInHand, Panics, CurrentJob;
    var t := AddCloser(s, now);
    CloserAdded(c, s, now);
  }

  lemma CloserMoved(c: Config, s: State, k: nat)
    requires CloserMay(c, s, k)
    requires ReasonFirst(s.mem, s.who.fires, s.who.closers)
    requires ClosersAgree(c, s.pc, s.chan.txOpen, s.mem.abort, s.who.closers, s.who.joinHeld, s.log.doneSent)
    ensures var t := AdvanceCloser(c, s, k);
      && (forall m: Memory :: ReasonFirst(m, s.who.fires, s.who.closers) && m.abort == t.mem.abort ==>
            ReasonFirst(m, t.who.fires, t.who.closers))
      && ClosersAgree(c, t.pc, t.chan.txOpen, t.mem.abort, t.who.closers, t.who.joinHeld, t.log.doneSent)
      && (s.chan.txOpen || t.chan == s.chan)
  {
  }

  lemma AbortBeforeInterrupt(m: Memory, fires: seq<Fire>, closers: seq<Closer>, k: nat)
    requires ReasonFirst(m, fires, closers) && k < |closers| && closers[k].Interrupting?
    ensures m.abort
  {
  }

  lemma StoreAbortKeeps(c: Config, s: State, k: nat)
    requires Inv(c, s) && k < |s.who.closers| && s.who.closers[k].StoringAbort?
    ensures Inv(c, AdvanceCloser(c, s, k))
  {
    hide HandlesAgree, FiresAnswered, CutsBlamed, NothingRaw, Serial, AcceptedOnce, SettledInOrder, ReasonFirst,
      AnswersAgree, CallersAgree, ClosersAgree, InProgress, ConnAgrees, ReasonInHand, Panics, CurrentJob;
    var t := AdvanceCloser(c, s, k);
    CloserMoved(c, s, k);
    MemoryGrows(c, s.pc, s.mem, t.mem, s.who.fires, s.who.closers, s.log.ledger);
    HandlesInPlace(s.pc, s.mem, t.mem, s.log.ledger);
  }

  lemma DriverInterruptKeeps(c: Config, s: State, k: nat)
    requires Inv(c, s) && k < |s.who.closers| && s.who.closers[k].Interrupting?
    ensures Inv(c, AdvanceCloser(c, s, k))
  {
    hide HandlesAgree, FiresAnswered, CutsBlamed, NothingRaw, Serial, AcceptedOnce, SettledInOrder, ReasonFirst,
      AnswersAgree, CallersAgree, ClosersAgree, InProgress, ConnAgrees, ReasonInHand, Panics, CurrentJob;
    var t := AdvanceCloser(c, s, k);
    CloserMoved(c, s, k);
    AbortBeforeInterrupt(s.mem, s.who.fires, s.who.closers, k);
    FlagRaised(c, s.pc, s.mem, ByDriver, s.who.fires, s.who.closers, s.log.ledger);
    HandlesInPlace(s.pc, s.mem, t.mem, s.log.ledger);
    FiresInPlace(s.pc, s.mem, t.mem, s.who.fires);
  }

  lemma CloserKeeps(c: Config, s: State, k: nat)
    requires Inv(c, s) && CloserMay(c, s, k) && !s.who.closers[k].StoringAbort? && !s.who.closers[k].Interrupting?
    ensures Inv(c, AdvanceCloser(c, s, k))
  {
    hide HandlesAgree, FiresAnswered, CutsBlamed, NothingRaw, Serial, AcceptedOnce, SettledInOrder, ReasonFirst,
      AnswersAgree, CallersAgree, ClosersAgree, InProgress, ConnAgrees, ReasonInHand, Panics, CurrentJob;
    var t := AdvanceCloser(c, s, k);
    CloserMoved(c, s, k);
    if s.who.closers[k].SendingShutdown? && s.chan.rxOpen {
      AcceptOne(s.chan.accepted, s.who.callers, s.log.ledger, Shutdown, s.who.callers);
      InOrderOnEnqueue(s.pc, s.chan, |s.log.ledger|, s.log.exit, Shutdown);
    }
  }

  lemma HintKeeps(c: Config, s: State)
    requires Inv(c, s) && s.chan.txOpen && s.chan.rxOpen && |s.chan.queue| < c.capacity
    ensures Inv(c, s.(chan := Enqueue(s.chan, Shutdown)))
  {
    hide HandlesAgree, FiresAnswered, CutsBlamed, NothingRaw, Serial, AcceptedOnce, SettledInOrder, ReasonFirst,
      AnswersAgree, CallersAgree, ClosersAgree, InProgress, ConnAgrees, ReasonInHand, Panics, CurrentJob;
    var t := s.(chan := Enqueue(s.chan, Shutdown));
    AcceptOne(s.chan.accepted, s.who.callers, s.log.ledger, Shutdown, s.who.callers);
    InOrderOnEnqueue(s.pc, s.chan, |s.log.ledger|, s.log.exit, Shutdown);
  }

  lemma ClosersOnDropSenders(c: Config, s: State)
    requires MayDropSenders(s)
    requires ClosersAgree(c, s.pc, s.chan.txOpen, s.mem.abort, s.who.closers, s.who.joinHeld, s.log.doneSent)
    ensures ClosersAgree(c, s.pc, false, s.mem.abort, s.who.closers, s.who.joinHeld, s.log.doneSent)
  {
  }

  lemma DropSendersKeeps(c: Config, s: State)
    requires Inv(c, s) && MayDropSenders(s)
    ensures Inv(c, s.(chan := s.chan.(txOpen := false)))
  {
    hide HandlesAgree, FiresAnswered, CutsBlamed, NothingRaw, Serial, AcceptedOnce, SettledInOrder, ReasonFirst,
      AnswersAgree, CallersAgree, ClosersAgree, InProgress, ConnAgrees, ReasonInHand, Panics, CurrentJob;
    var t := s.(chan := s.chan.(txOpen := false));
    ClosersOnDropSenders(c, s);
  }
}
