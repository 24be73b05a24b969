/** What only ever grows along a run. */
module Evolution {
  import opened Errors
  import opened Protocol
  import opened Invariant
  import opened Runs

  /** How many closures have been started. */
  function Starts(ledger: seq<Entry>): nat {
    if ledger == [] then 0
    else Starts(ledger[..|ledger| - 1]) + if Started(ledger[|ledger| - 1]) then 1 else 0
  }

  predicate Running(pc: Pc) {
    pc.InClosure? || pc.AtDetach? || (CurrentJob(pc).Some? && PastDetach(pc, CurrentJob(pc).value))
  }

  function StartedSoFar(s: State): nat {
    Starts(s.log.ledger) + if Running(s.pc) then 1 else 0
  }

  /** The current job has passed its abort check but its closure has not started. */
  predicate AboutToStart(pc: Pc) {
    pc.AtFiredCheck? || pc.AtStore? || pc.AtLoad? || pc.AtAttachInterrupt?
  }

  function Chances(s: State): nat {
    Starts(s.log.ledger) + if Running(s.pc) || AboutToStart(s.pc) then 1 else 0
  }

  predicate Settling(s: State, t: State) {
    && s.log.ledger <= t.log.ledger
    && s.chan.accepted <= t.chan.accepted
    && s.chan.taken <= t.chan.taken
    && (s.pc.Finished? ==> t.pc.Finished? && t.log.ledger == s.log.ledger && t.chan.accepted == s.chan.accepted)
  }

  predicate CallersSettle(s: seq<Caller>, t: seq<Caller>) {
    && |s| <= |t|
    && forall j :: 0 <= j < |s| && !s[j].Sending? && !s[j].Waiting? ==> t[j] == s[j]
  }

  predicate FiresSettle(s: seq<Fire>, t: seq<Fire>) {
    && |s| <= |t|
    && forall f :: 0 <= f < |s| ==>
         && t[f].job == s[f].job && t[f].cas == s[f].cas
         && (s[f].locked.Some? ==> t[f] == s[f])
  }

  ghost predicate Evolves(s: State, t: State) {
    && Settling(s, t)
    && Grew(s.mem, t.mem)
    && CallersSettle(s.who.callers, t.who.callers)
    && FiresSettle(s.who.fires, t.who.fires)
    && (s.mem.abort ==> Chances(t) <= Chances(s))
  }

  lemma EvolvesTransitively(s: State, t: State, u: State)
    requires Evolves(s, t) && Evolves(t, u)
    ensures Evolves(s, u)
  {
    hide Chances;
  }

  lemma StartsOnSettle(ledger: seq<Entry>, e: Entry)
    ensures Starts(ledger + [e]) == Starts(ledger) + if Started(e) then 1 else 0
  {
    assert (ledger + [e])[..|ledger|] == ledger;
  }

  /** Sections up to the start of the closure. */
  lemma EarlyEvolves(c: Config, s: State, usable: bool)
    requires WellPlaced(s) && ThreadCanStep(s) && (s.pc.AtNext? || s.pc.AtAbortCheck? || AboutToStart(s.pc))
    ensures Evolves(s, ThreadStep(c, s, usable))
  {
    hide ClosureSection, DetachHandle, FoldToken, FoldAbort, Respond, BeginHealth, HealthCheck, DropConnection,
      SignalDone, DropReceiver, Starts;
    if s.pc.AtAbortCheck? {
      StartsOnSettle(s.log.ledger, Entry(s.pc.job, Discarded, Err(Closed), s.mem.conn.db));
    }
  }

  lemma LateEvolves(c: Config, s: State, usable: bool)
    requires WellPlaced(s) && ThreadCanStep(s) && !(s.pc.AtNext? || s.pc.AtAbortCheck? || AboutToStart(s.pc))
    ensures Evolves(s, ThreadStep(c, s, usable))
  {
    hide Take, Disconnect, CheckAbort, CheckFired, StoreHandle, LoadState, AttachInterrupt, Starts;
    if s.pc.AtRespond? {
      StartsOnSettle(s.log.ledger, Entry(s.pc.job, s.pc.fate, s.pc.answer, s.mem.conn.db));
    }
  }

  lemma CallerEvolves(c: Config, s: State, j: JobId, next: Caller)
    requires (s.chan.rxOpen <==> !s.pc.Finished?) && CallerMay(c, s, j, next)
    ensures Evolves(s, MoveCaller(s, j, next))
  {
    hide WaitResult, Starts;
  }

  lemma CloserEvolves(c: Config, s: State, k: nat)
    requires (s.chan.rxOpen <==> !s.pc.Finished?) && CloserMay(c, s, k)
    ensures Evolves(s, AdvanceCloser(c, s, k))
  {
    hide Starts;
  }

  lemma FiringEvolves(s: State, t: State)
    requires t.pc == s.pc && t.log == s.log && t.chan == s.chan && t.who.callers == s.who.callers
    requires Grew(s.mem, t.mem) && FiresSettle(s.who.fires, t.who.fires)
    ensures Evolves(s, t)
  {
  }

  lemma EverybodyElseEvolves(c: Config, s: State, e: Event)
    requires (s.chan.rxOpen <==> !s.pc.Finished?) && Enabled(c, s, e) && !e.Thread?
    ensures Evolves(s, Apply(c, s, e))
  {
    hide ThreadStep, WaitResult, CurrentJob, ThreadCanStep, Starts, CallerMay, CloserMay, MayFire, MayDropSenders,
      MoveCaller, AdvanceCloser;
    match e {
      case CallerStep(j, next) => CallerEvolves(c, s, j, next);
      case CloserStep(k) => CloserEvolves(c, s, k);
      case FireCas(j, r) => FiringEvolves(s, CasOn(s, j, r));
      case FireLock(f) => FiringEvolves(s, LockFor(s, f));
      case _ =>
    }
  }

  lemma StepEvolves(c: Config, s: State, e: Event)
    requires Inv(c, s) && Enabled(c, s, e)
    ensures Evolves(s, Apply(c, s, e))
  {
    var open := s.chan.rxOpen <==> !s.pc.Finished?;
    assert open;
    hide Inv, Bounded, ThreadStep, Evolves, MayDropSenders, CallerMay, MayFire, CloserMay, MoveCaller, CasOn, LockFor,
      AdvanceCloser, AddCloser, CreateJob;
    match e {
      case Thread(usable) =>
        if s.pc.AtNext? || s.pc.AtAbortCheck? || AboutToStart(s.pc) {
          EarlyEvolves(c, s, usable);
        } else {
          LateEvolves(c, s, usable);
        }
      case _ => EverybodyElseEvolves(c, s, e);
    }
  }

  lemma {:induction false} RunEvolves(c: Config, s: State, events: seq<Event>, t: State)
    requires ValidConfig(c) && Inv(c, s) && Leads(c, s, events, t)
    ensures Evolves(s, t)
    decreases |events|
  {
    hide Inv, Apply, Enabled, Chances;
    if events != [] {
      var init := events[..|events| - 1];
      var before := RunFrom(c, s, init).value;
      RunEvolves(c, s, init, before);
      RunKeeps(c, s, init, before);
      StepEvolves(c, before, events[|events| - 1]);
      EvolvesTransitively(s, before, t);
    }
  }

  lemma LaterEvolves(c: Config, s: State, t: State)
    requires ValidConfig(c) && Reachable(c, s) && Later(c, s, t)
    ensures Evolves(s, t)
  {
    hide Inv, Evolves;
    ReachableInv(c, s);
    var events :| Leads(c, s, events, t);
    RunEvolves(c, s, events, t);
  }
}
