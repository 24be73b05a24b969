/** The memory the threads of one isle share, as an object.

    A method of this project that models source code runs one thread's statements on a `World`.  Between any
    two of its atomic sections it calls `Yield`, which lets the others run a batch of their own atomic sections, maybe
    an empty one; `plan` lists those batches, so proving a method for every plan proves it for every interleaving.  A
    plan is finite: when it is used up a method that has to wait stops where it is. */
module Worlds {
  import opened Errors
  import opened Protocol
  import opened Runs

  /** The sections that belong to the running method and that nobody else will execute: those of the SQLite thread,
      of one job's caller, of one fire or of one shutdown call. */
  datatype Party = SqliteThread | CallerOf(job: JobId) | CallerFiring(job: JobId, fire: nat) | CloserOf(closer: nat)

  predicate Mine(me: Party, e: Event) {
    match me
    case SqliteThread => e.Thread?
    case CallerOf(j) => e.CallerStep? && e.job == j
    case CallerFiring(j, f) => (e.CallerStep? && e.job == j) || (e.FireLock? && e.fire == f)
    case CloserOf(k) => e.CloserStep? && e.closer == k
  }

  /** There is no room for the job, or no result yet. */
  predicate CallerBlocked(c: Config, s: State, j: JobId) {
    && j < |s.who.callers|
    && if s.who.callers[j].Sending? then s.chan.rxOpen && |s.chan.queue| >= c.capacity
       else s.who.callers[j].Waiting? && WaitResult(s, j).None?
  }

  /** The party has to wait: for a request, for room in the channel, for a result, for the thread. */
  predicate Blocked(me: Party, c: Config, s: State) {
    match me
    case SqliteThread => !ThreadCanStep(s)
    case CallerOf(j) => CallerBlocked(c, s, j)
    case CallerFiring(_, _) => false
    case CloserOf(k) => !CloserMay(c, s, k)
  }

  predicate Awaits(me: Party, s: State) {
    me.CallerOf? && me.job < |s.who.callers| && s.who.callers[me.job].Waiting?
  }

  /** What a party finds as it left it. */
  ghost predicate Undisturbed(me: Party, s: State, t: State) {
    match me
    case SqliteThread => t.pc == s.pc && t.log == s.log && t.chan.taken == s.chan.taken && s.chan.queue <= t.chan.queue
    case CallerOf(j) => CallerUndisturbed(s, t, j)
    case CallerFiring(j, f) =>
      CallerUndisturbed(s, t, j) && (f < |s.who.fires| ==> f < |t.who.fires| && t.who.fires[f] == s.who.fires[f])
    case CloserOf(k) =>
      k < |s.who.closers| ==> k < |t.who.closers| && t.who.closers[k] == s.who.closers[k]
  }

  ghost predicate CallerUndisturbed(s: State, t: State, j: JobId) {
    j < |s.who.callers| ==>
      && j < |t.who.callers| && t.who.callers[j] == s.who.callers[j]
      && (s.who.callers[j].Sending? && s.chan.txOpen ==> t.chan.txOpen)
  }

  lemma ThreadUndisturbed(c: Config, s: State, e: Event)
    requires Enabled(c, s, e) && !e.Thread?
    ensures Undisturbed(SqliteThread, s, Apply(c, s, e))
  {
    hide WaitResult, CurrentJob, ThreadStep, ThreadCanStep;
  }

  lemma CallerStaysUndisturbed(c: Config, s: State, e: Event, j: JobId)
    requires Enabled(c, s, e) && !(e.CallerStep? && e.job == j)
    ensures CallerUndisturbed(s, Apply(c, s, e), j)
  {
    hide WaitResult, CurrentJob, ThreadCanStep;
    if e.Thread? {
      hide ThreadStep;
      ThreadLeavesPeople(c, s, e.usable);
    }
  }

  lemma FireStaysUndisturbed(c: Config, s: State, e: Event, f: nat)
    requires Enabled(c, s, e) && !(e.FireLock? && e.fire == f)
    ensures var t := Apply(c, s, e); f < |s.who.fires| ==> f < |t.who.fires| && t.who.fires[f] == s.who.fires[f]
  {
    hide WaitResult, CurrentJob, ThreadCanStep;
    if e.Thread? {
      hide ThreadStep;
      ThreadLeavesPeople(c, s, e.usable);
    }
  }

  lemma CloserStaysUndisturbed(c: Config, s: State, e: Event, k: nat)
    requires Enabled(c, s, e) && !(e.CloserStep? && e.closer == k)
    ensures var t := Apply(c, s, e); k < |s.who.closers| ==> k < |t.who.closers| && t.who.closers[k] == s.who.closers[k]
  {
    hide WaitResult, CurrentJob, ThreadCanStep;
    if e.Thread? {
      hide ThreadStep;
      ThreadLeavesPeople(c, s, e.usable);
    }
  }

  lemma ThreadLeavesPeople(c: Config, s: State, usable: bool)
    requires WellPlaced(s) && ThreadCanStep(s)
    ensures ThreadStep(c, s, usable).who == s.who && ThreadStep(c, s, usable).chan.txOpen == s.chan.txOpen
  {
  }

  lemma OthersUndisturbed(c: Config, s: State, e: Event, me: Party)
    requires Enabled(c, s, e) && !Mine(me, e)
    ensures Undisturbed(me, s, Apply(c, s, e))
  {
    hide Apply, Enabled, CallerUndisturbed;
    match me {
      case SqliteThread => ThreadUndisturbed(c, s, e);
      case CallerOf(j) => CallerStaysUndisturbed(c, s, e, j);
      case CallerFiring(j, f) =>
        CallerStaysUndisturbed(c, s, e, j);
        FireStaysUndisturbed(c, s, e, f);
      case CloserOf(k) => CloserStaysUndisturbed(c, s, e, k);
    }
  }

  /** The batch run by the others: in order, passing over what is not enabled then, and what is the party's own. */
  function AfterBatch(me: Party, c: Config, s: State, batch: seq<Event>): State {
    if batch == [] then s
    else
      var t := AfterBatch(me, c, s, batch[..|batch| - 1]);
      var e := batch[|batch| - 1];
      if Enabled(c, t, e) && !Mine(me, e) then Apply(c, t, e) else t
  }

  class World {
    const c: Config
    var s: State
    var plan: seq<seq<Event>>

    /** How the plan was spent: turns given to the others, own sections taken, turns after which there was nothing to
        do, and turns in which a caller waited for its result. */
    ghost var turns: nat
    ghost var steps: nat
    ghost var blocked: nat
    ghost var awaited: nat

    /** Turns in which the party could have taken a section and did not, less sections it took without a turn. */
    ghost function Idled(): int
      reads this
    {
      turns - steps - blocked
    }

    /** Own sections less turns given to the others: a method that gives a turn between any two of its sections adds one
        at most. */
    ghost function Rushed(): int
      reads this
    {
      steps - turns
    }

    ghost predicate Valid()
      reads this
    {
      ValidConfig(c) && Reachable(c, s)
    }

    constructor (c: Config, plan: seq<seq<Event>>)
      requires ValidConfig(c)
      ensures Valid() && this.c == c && s == Init(c) && this.plan == plan
    {
      this.c, this.s, this.plan := c, Init(c), plan;
      turns, steps, blocked, awaited := 0, 0, 0, 0;
      assert Leads(c, Init(c), [], Init(c));
    }

    /** One atomic section of the running method. */
    method Do(e: Event)
      requires Valid() && Enabled(c, s, e)
      modifies `s, `steps
      ensures Valid() && s == Apply(c, old(s), e) && Later(c, old(s), s) && steps == old(steps) + 1
    {
      hide Reachable, Apply, Enabled;
      StepIsReachable(c, s, e);
      s := Apply(c, s, e);
      steps := steps + 1;
    }

    /** Let the others run the next batch of the plan; their sections that are not enabled are passed over. */
    method Yield(me: Party) returns (ok: bool)
      requires Valid()
      modifies `s, `plan, `turns, `blocked, `awaited
      ensures Valid() && Later(c, old(s), s) && Undisturbed(me, old(s), s)
      ensures ok ==> old(plan) != [] && plan == old(plan)[1..] && s == AfterBatch(me, c, old(s), old(plan)[0])
      ensures ok ==> |plan| < |old(plan)|
      ensures !ok ==> s == old(s) && plan == old(plan) == []
      ensures turns == old(turns) + One(ok)
      ensures blocked == old(blocked) + One(ok && Blocked(me, c, s))
      ensures awaited == old(awaited) + One(ok && Awaits(me, old(s)))
    {
      hide Reachable, Apply, Enabled;
      assert Leads(c, s, [], s);
      if plan == [] {
        return false;
      }
      var batch := plan[0];
      plan := plan[1..];
      ok := true;
      for i := 0 to |batch|
        invariant Valid() && Later(c, old(s), s) && Undisturbed(me, old(s), s)
        invariant s == AfterBatch(me, c, old(s), batch[..i])
        invariant plan == old(plan)[1..] && turns == old(turns) && blocked == old(blocked) && awaited == old(awaited)
      {
        assert batch[..i + 1][..i] == batch[..i];
        if Enabled(c, s, batch[i]) && !Mine(me, batch[i]) {
          OthersUndisturbed(c, s, batch[i], me);
          StepIsReachable(c, s, batch[i]);
          LaterTransitively(c, old(s), s, Apply(c, s, batch[i]));
          s := Apply(c, s, batch[i]);
        }
      }
      assert batch[..|batch|] == batch;
      turns, blocked, awaited := turns + 1, blocked + One(Blocked(me, c, s)), awaited + One(Awaits(me, old(s)));
    }
  }
}
