/** What an interrupt does: it raises the connection's flag, the flag stays up while a statement runs, and the statement
    that looks at it fails. */
module Interrupts {
  import opened Errors
  import opened Sqlite
  import opened Protocol
  import opened Invariant
  import opened Runs
  import opened Guarantees

  // ── the flag goes up (for tokens: FireRaisesFlag and AttachRaisesFlag of Guarantees) ─────────────────

  /** By `shutdown_now`. */
  lemma DriverRaisesFlag(c: Config, s: State, k: nat)
    requires Enabled(c, s, CloserStep(k)) && s.who.closers[k].Interrupting? && s.mem.conn.open
    ensures ByDriver in Apply(c, s, CloserStep(k)).mem.conn.pending
  {
  }

  // ── it stays up while a statement runs ────────────────────────────────────────────────────────────

  /** Nobody else lowers the flag, and the closure does not while it holds a statement. */
  lemma FlagStays(c: Config, s: State, e: Event, source: Source)
    requires Enabled(c, s, e) && source in s.mem.conn.pending
    requires e.Thread? ==> s.pc.InClosure? && s.mem.conn.active > 0
    ensures source in Apply(c, s, e).mem.conn.pending
  {
    hide CallerMay, CloserMay, MayFire, MayDropSenders, CurrentJob;
  }

  /** All the while the closure holds a statement. */
  ghost predicate HeldThroughout(c: Config, s: State, events: seq<Event>) {
    events == [] ||
    (var init := events[..|events| - 1];
     && HeldThroughout(c, s, init)
     && RunFrom(c, s, init).Some?
     && var mid := RunFrom(c, s, init).value;
        events[|events| - 1].Thread? ==> mid.pc.InClosure? && mid.mem.conn.active > 0)
  }

  predicate ClosureOf(pc: Pc, j: JobId) {
    (pc.InClosure? || pc.AtDetach?) && pc.job == j
  }

  lemma StaysInClosure(c: Config, s: State, e: Event, j: JobId)
    requires Enabled(c, s, e) && ClosureOf(s.pc, j) && (e.Thread? ==> s.pc.InClosure?)
    ensures ClosureOf(Apply(c, s, e).pc, j)
  {
    hide CallerMay, CloserMay, MayFire, MayDropSenders, CurrentJob;
  }

  lemma {:induction false} FlagStaysMeanwhile(c: Config, s: State, events: seq<Event>, t: State, source: Source,
      j: JobId)
    requires Leads(c, s, events, t) && HeldThroughout(c, s, events)
    requires source in s.mem.conn.pending && ClosureOf(s.pc, j)
    ensures source in t.mem.conn.pending && ClosureOf(t.pc, j)
    decreases |events|
  {
    hide Apply, Enabled;
    if events != [] {
      var init := events[..|events| - 1];
      var mid := RunFrom(c, s, init).value;
      FlagStaysMeanwhile(c, s, init, mid, source, j);
      FlagStays(c, mid, events[|events| - 1], source);
      StaysInClosure(c, mid, events[|events| - 1], j);
    }
  }

  // ── and then the statement is cut ─────────────────────────────────────────────────────────────────

  /** The thread's next section in `t` cuts a statement of the closure of the job in hand, by `source`: the closure goes
      on where it does after SQLITE_INTERRUPT, and the database is as it was. */
  ghost predicate CutsNext(c: Config, t: State, source: Source) {
    && t.pc.InClosure? && WellPlaced(t) && ThreadCanStep(t)
    && var u := ThreadStep(c, t, true);
       && |u.mem.cuts| == |t.mem.cuts| + 1 && t.mem.cuts < u.mem.cuts
       && u.mem.cuts[|t.mem.cuts|].job == Some(t.pc.job) && source in u.mem.cuts[|t.mem.cuts|].blame
       && u.mem.conn.db == t.mem.conn.db
       && u.pc.InClosure? && u.pc.job == t.pc.job && u.pc.cut
       && c.job(t.pc.job).body.act(t.pc.at).Step? && u.pc.at == c.job(t.pc.job).body.act(t.pc.at).cut
  }

  /** The closure is in the middle of a statement and about to take another step of it. */
  predicate MidStatement(c: Config, s: State) {
    s.pc.InClosure? && s.mem.conn.active > 0 && c.job(s.pc.job).body.act(s.pc.at).Step?
  }

  lemma RaisedFlagCuts(c: Config, s: State, events: seq<Event>, t: State, source: Source, j: JobId)
    requires source in s.mem.conn.pending && ClosureOf(s.pc, j)
    requires Leads(c, s, events, t) && HeldThroughout(c, s, events) && MidStatement(c, t) && WellPlaced(t)
    ensures t.pc.job == j && CutsNext(c, t, source)
  {
    FlagStaysMeanwhile(c, s, events, t, source, j);
    hide Leads, HeldThroughout;
  }

  /** A fire on a running job cuts its statement: whatever the others do after the fire's locked section, the next step
      of a statement that is held from then on fails with SQLITE_INTERRUPT on that token's account. */
  lemma FireCutsStatement(c: Config, s: State, f: nat, events: seq<Event>, t: State)
    requires ValidConfig(c) && Reachable(c, s) && Enabled(c, s, FireLock(f))
    requires s.pc.InClosure? && s.pc.job == s.who.fires[f].job
    requires Leads(c, Apply(c, s, FireLock(f)), events, t) && HeldThroughout(c, Apply(c, s, FireLock(f)), events)
    requires MidStatement(c, t)
    ensures t.pc.job == s.pc.job && CutsNext(c, t, ByToken(s.pc.job))
  {
    var u := Apply(c, s, FireLock(f));
    FireRaisesFlag(c, s, f);
    StaysInClosure(c, s, FireLock(f), s.pc.job);
    StaysPlaced(c, s, FireLock(f), events, t);
    hide Reachable, Enabled, Apply, Leads, CutsNext, HeldThroughout, MidStatement;
    RaisedFlagCuts(c, u, events, t, ByToken(s.pc.job), s.pc.job);
  }

  /** And so does `shutdown_now`. */
  lemma ShutdownNowCutsStatement(c: Config, s: State, k: nat, events: seq<Event>, t: State)
    requires ValidConfig(c) && Reachable(c, s) && Enabled(c, s, CloserStep(k)) && s.who.closers[k].Interrupting?
    requires s.pc.InClosure?
    requires Leads(c, Apply(c, s, CloserStep(k)), events, t) && HeldThroughout(c, Apply(c, s, CloserStep(k)), events)
    requires MidStatement(c, t)
    ensures t.pc.job == s.pc.job && CutsNext(c, t, ByDriver)
  {
    var u := Apply(c, s, CloserStep(k));
    OpenInClosure(c, s);
    DriverRaisesFlag(c, s, k);
    StaysInClosure(c, s, CloserStep(k), s.pc.job);
    StaysPlaced(c, s, CloserStep(k), events, t);
    hide Reachable, Enabled, Apply, Leads, CutsNext, HeldThroughout, MidStatement;
    RaisedFlagCuts(c, u, events, t, ByDriver, s.pc.job);
  }

  lemma OpenInClosure(c: Config, s: State)
    requires ValidConfig(c) && Reachable(c, s) && s.pc.InClosure?
    ensures s.mem.conn.open
  {
    hide InProgress, Serial, NothingRaw, AnswersAgree, CutsBlamed, PanicsChecked;
    LedgerHolds(c, s);
  }

  lemma StaysPlaced(c: Config, s: State, e: Event, events: seq<Event>, t: State)
    requires ValidConfig(c) && Reachable(c, s) && Enabled(c, s, e) && Leads(c, Apply(c, s, e), events, t)
    ensures WellPlaced(t)
  {
    hide Reachable, Enabled, Apply;
    StepIsReachable(c, s, e);
    assert Later(c, Apply(c, s, e), t);
    LaterIsReachable(c, Apply(c, s, e), t);
    ChannelHolds(c, t);
  }
}
