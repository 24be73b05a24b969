/** What each operation of the pool does, said without the functions that define it: what a turn comes to, where an isle
    goes, and when a deadline falls. */
module PoolEffects {
  import opened Errors
  import opened PoolProtocol
  import opened PoolInvariant
  import opened PoolGuarantees

  // ── what a turn comes to ──────────────────────────────────────────────────────────────────────────

  predicate LastLive(idle: seq<IsleId>, alive: set<IsleId>, k: nat) {
    k < |idle| && idle[k] in alive && forall m :: k < m < |idle| ==> idle[m] !in alive
  }

  predicate NoneLive(idle: seq<IsleId>, alive: set<IsleId>) {
    forall m :: 0 <= m < |idle| ==> idle[m] !in alive
  }

  /** When a timed checkout has to be served by: its timeout after it first got the lock. */
  function Due(call: Call, now: nat): nat {
    if call.phase.Entering? && call.way.Timed? then now + call.way.timeout else call.deadline
  }

  /** Where a turn that finds every slot taken leaves the call. */
  function WhenFull(call: Call, now: nat): Phase {
    if call.way.Block? || (call.way.Timed? && now < Due(call, now)) then Waiting
    else if call.way.Timed? then Done(Failed(Timeout))
    else Done(NoneFree)
  }

  /** A turn on a closed pool is refused; on an open one it takes the last live idle isle, else builds if a slot is
      free, else a blocking checkout waits, a timed one waits exactly while its deadline is ahead, and `try_checkout`
      gives up. */
  lemma TurnDecides(max: nat, p: Pool, c: CallId)
    requires Reachable(max, p) && Enabled(p, Turn(c))
    ensures var q, phase := Attempt(max, p, c), Attempt(max, p, c).calls[c].phase;
      && (p.inner.closed ==> phase == Done(Failed(Closed)) && q.inner == p.inner && q.isles == p.isles)
      && (forall k: nat :: !p.inner.closed && LastLive(p.inner.idle, p.isles.alive, k) ==>
            phase == Done(Got(p.inner.idle[k])) && q.inner == Inner(p.inner.idle[..k], p.inner.active + 1, false))
      && (!p.inner.closed && NoneLive(p.inner.idle, p.isles.alive) ==>
            if p.inner.active < max then phase == Building && q.inner == Inner([], p.inner.active + 1, false)
            else phase == WhenFull(p.calls[c], p.now) && q.inner == Inner([], p.inner.active, false))
  {
    ActiveIsExact(max, p, Tick);
    hide Reachable, TakeAlive, LastLive, NoneLive;
    var (found, rest, gone) := TakeAlive(p.inner.idle, p.isles.alive);
    forall k: nat | LastLive(p.inner.idle, p.isles.alive, k)
      ensures k < |p.inner.idle| && found == Some(p.inner.idle[k]) && rest == p.inner.idle[..k]
    {
      TakesLastLive(p.inner.idle, p.isles.alive, k);
    }
    if NoneLive(p.inner.idle, p.isles.alive) {
      TakesNone(p.inner.idle, p.isles.alive);
    }
  }

  lemma TakesLastLive(idle: seq<IsleId>, alive: set<IsleId>, k: nat)
    requires LastLive(idle, alive, k)
    ensures TakeAlive(idle, alive).0 == Some(idle[k]) && TakeAlive(idle, alive).1 == idle[..k]
  {
    TakeAliveFinds(idle, alive);
    hide TakeAlive;
    var (found, rest, gone) := TakeAlive(idle, alive);
    assert found.Some?;
    assert |rest| == k;
  }

  lemma TakesNone(idle: seq<IsleId>, alive: set<IsleId>)
    requires NoneLive(idle, alive)
    ensures TakeAlive(idle, alive).0 == None && TakeAlive(idle, alive).1 == []
  {
    TakeAliveFinds(idle, alive);
    hide TakeAlive;
  }

  lemma {:induction false} LiveHasLast(idle: seq<IsleId>, alive: set<IsleId>)
    requires !NoneLive(idle, alive)
    ensures exists k :: LastLive(idle, alive, k)
  {
    var n := |idle| - 1;
    if idle[n] in alive {
      assert LastLive(idle, alive, n);
    } else {
      assert !NoneLive(idle[..n], alive) by {
        var m :| 0 <= m < |idle| && idle[m] in alive;
        assert idle[..n][m] in alive;
      }
      LiveHasLast(idle[..n], alive);
      var k :| LastLive(idle[..n], alive, k);
      assert LastLive(idle, alive, k);
    }
  }

  /** A turn is told `Closed` if and only if the pool is closed. */
  lemma ClosedMeansClosed(max: nat, p: Pool, c: CallId)
    requires Reachable(max, p) && Enabled(p, Turn(c))
    ensures Attempt(max, p, c).calls[c].phase == Done(Failed(Closed)) <==> p.inner.closed
  {
    TurnDecides(max, p, c);
    hide Attempt, Reachable, NoneLive, LastLive, Enabled;
    if !p.inner.closed && !NoneLive(p.inner.idle, p.isles.alive) {
      LiveHasLast(p.inner.idle, p.isles.alive);
    }
  }

  // ── deadlines ─────────────────────────────────────────────────────────────────────────────────────

  /** The deadline is the timeout after the first lock, in every continuation; and no turn at or past it waits. */
  lemma DeadlineIsFixed(max: nat, p: Pool, c: CallId, q: Pool)
    requires Reachable(max, p) && Enabled(p, Turn(c)) && p.calls[c].phase.Entering? && p.calls[c].way.Timed?
    requires Later(max, Apply(max, p, Turn(c)), q)
    ensures c < |q.calls| && q.calls[c].deadline == p.now + p.calls[c].way.timeout && q.calls[c].way == p.calls[c].way
    ensures Enabled(q, Turn(c)) && p.now + p.calls[c].way.timeout <= q.now ==>
              !Attempt(max, q, c).calls[c].phase.Waiting?
  {
    var r := Apply(max, p, Turn(c));
    ReachableInv(max, p);
    StepKeeps(max, p, Turn(c));
    AttemptSetsDeadline(max, p, c);
    hide Inv, Apply, Reachable, Attempt;
    var events :| Leads(max, r, events, q);
    RunSettles(max, r, events, q);
    LateTurnEnds(max, q, c);
  }

  lemma AttemptSetsDeadline(max: nat, p: Pool, c: CallId)
    requires Enabled(p, Turn(c))
    ensures var q := Attempt(max, p, c);
      |q.calls| == |p.calls| && q.calls[c].deadline == Due(p.calls[c], p.now) && q.calls[c].way == p.calls[c].way
      && !q.calls[c].phase.Entering?
  {
    hide TakeAlive;
  }

  lemma LateTurnEnds(max: nat, p: Pool, c: CallId)
    ensures Enabled(p, Turn(c)) && p.calls[c].way.Timed? && !p.calls[c].phase.Entering? ==>
              p.calls[c].deadline <= p.now ==> !Attempt(max, p, c).calls[c].phase.Waiting?
  {
    hide TakeAlive;
  }

  // ── where isles go ────────────────────────────────────────────────────────────────────────────────

  datatype Where = Unmade | Idle | Guarded | ShutDown | Dropped

  function WhereIs(p: Pool, i: IsleId): Where {
    if i in p.inner.idle then Idle
    else if i in p.isles.out then Guarded
    else if i in p.isles.shut then ShutDown
    else if i in p.isles.dropped then Dropped
    else Unmade
  }

  /** Where an isle is after an event other than a turn: the factory's new isle has a guard; a guard that is dropped
      puts its isle back if it is alive and the pool open, and shuts it down if the pool is closed; shutdown shuts down
      what is idle; nothing else moves. */
  function GoesTo(p: Pool, e: Event, i: IsleId): Where {
    if e.FactoryOk? && i == p.isles.made then Guarded
    else if e.DropGuard? && e.isle == i then
      if p.inner.closed then ShutDown else if i in p.isles.alive then Idle else Dropped
    else if e.Shutdown? && i in p.inner.idle then ShutDown
    else WhereIs(p, i)
  }

  /** Every isle is where `GoesTo` says after any event but a turn; a turn takes idle isles only: the one it hands out,
      and dead ones, which are dropped. */
  lemma IsleMoves(max: nat, p: Pool, e: Event, i: IsleId)
    requires Reachable(max, p) && Enabled(p, e)
    ensures !e.Turn? ==> WhereIs(Apply(max, p, e), i) == GoesTo(p, e, i)
    ensures e.Turn? && WhereIs(Apply(max, p, e), i) != WhereIs(p, i) ==>
              && WhereIs(p, i).Idle? && !p.inner.closed
              && if Apply(max, p, e).calls[e.call].phase == Done(Got(i)) then WhereIs(Apply(max, p, e), i).Guarded?
                 else WhereIs(Apply(max, p, e), i).Dropped? && i !in p.isles.alive
  {
    ReachableInv(max, p);
    if e.Turn? {
      TurnMoves(max, p, e.call, i);
    } else {
      assert Places(p.inner.idle, p.isles, i) == One(i < p.isles.made);
      hide Accounted, NoneForgotten, ClosedIsEmpty, CanNotify, WakeAll, Notify, Reachable, IslesPlaced, Attempt;
    }
  }

  lemma TurnMoves(max: nat, p: Pool, c: CallId, i: IsleId)
    requires IslesPlaced(p.inner.idle, p.isles) && Enabled(p, Turn(c))
    ensures var q := Attempt(max, p, c);
      WhereIs(q, i) != WhereIs(p, i) ==>
        && WhereIs(p, i).Idle? && !p.inner.closed
        && if q.calls[c].phase == Done(Got(i)) then WhereIs(q, i).Guarded?
           else WhereIs(q, i).Dropped? && i !in p.isles.alive
  {
    assert Places(p.inner.idle, p.isles, i) == One(i < p.isles.made);
    TakenOrGone(p.inner.idle, p.isles.alive, i);
    hide TakeAlive, IslesPlaced;
  }

  /** The search leaves an isle where it is, hands it out, or drops it dead. */
  lemma TakenOrGone(idle: seq<IsleId>, alive: set<IsleId>, i: IsleId)
    requires Distinct(idle)
    ensures var (found, rest, gone) := TakeAlive(idle, alive);
      && (i in rest ==> i in idle && found != Some(i) && i !in gone)
      && (found == Some(i) ==> i in idle && i in alive && i !in gone)
      && (i in gone ==> i in idle && i !in alive)
      && (i in idle ==> i in rest || found == Some(i) || i in gone)
  {
    TakeAliveFinds(idle, alive);
    hide TakeAlive;
    var (found, rest, gone) := TakeAlive(idle, alive);
    var from := if found.Some? then |rest| + 1 else 0;
    assert idle == rest + (if found.Some? then [found.value] else []) + idle[from..];
  }

  /** An isle starts alive, and stays so until its thread dies or it is shut down: idle when the pool shuts down, or
      given back after that. */
  lemma AliveUntilEnded(max: nat, p: Pool, e: Event, i: IsleId)
    requires Reachable(max, p) && Enabled(p, e)
    ensures i in Apply(max, p, e).isles.alive <==>
            || (e.FactoryOk? && i == p.isles.made)
            || (i in p.isles.alive && e != Die(i) && !(e.Shutdown? && i in p.inner.idle)
                && !(e.DropGuard? && e.isle == i && p.inner.closed))
  {
    hide TakeAlive, CanNotify, WakeAll, Notify, Reachable;
  }

  /** A live isle given back to an open pool is handed out again by the very next turn. */
  lemma ReturnedIsReused(max: nat, p: Pool, i: IsleId, who: Option<CallId>, c: CallId)
    requires Reachable(max, p) && Enabled(p, DropGuard(i, who)) && !p.inner.closed && i in p.isles.alive
    requires Enabled(Apply(max, p, DropGuard(i, who)), Turn(c))
    ensures var q := Apply(max, p, DropGuard(i, who));
      && q.inner.idle == p.inner.idle + [i] && i in q.isles.alive
      && Attempt(max, q, c).calls[c].phase == Done(Got(i)) && Attempt(max, q, c).inner.idle == p.inner.idle
  {
    var q := Apply(max, p, DropGuard(i, who));
    assert LastLive(q.inner.idle, q.isles.alive, |p.inner.idle|);
    assert q.inner.idle[..|p.inner.idle|] == p.inner.idle;
    assert Reachable(max, q) by {
      hide Apply, Enabled;
      var events :| Leads(max, Empty(), events, p);
      assert (events + [DropGuard(i, who)])[..|events|] == events;
      assert Leads(max, Empty(), events + [DropGuard(i, who)], q);
    }
    hide Apply, Reachable, Attempt;
    TurnDecides(max, q, c);
  }
}
