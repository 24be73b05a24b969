/** What the pool promises, in every reachable state and along every run. */
module PoolGuarantees {
  import opened Errors
  import opened PoolProtocol
  import opened PoolInvariant

  // ── no lost wakeup ────────────────────────────────────────────────────────────────────────────────

  /** While a checkout sleeps un-notified the pool is open, and there are at least as many awake checkouts on their
      way to the lock as there are free slots: if none is on its way, every slot is taken. */
  lemma NoLostWakeup(max: nat, p: Pool, c: CallId)
    requires Reachable(max, p) && Asleep(p.calls, c)
    ensures !p.inner.closed && max - p.inner.active <= Awake(p.calls)
    ensures Awake(p.calls) == 0 ==> p.inner.active == max
  {
    ReachableInv(max, p);
  }

  lemma {:induction false} SomebodyAwake(calls: seq<Call>)
    requires Awake(calls) > 0
    ensures exists c :: 0 <= c < |calls| && calls[c].phase.Woken?
  {
    var n := |calls| - 1;
    if !calls[n].phase.Woken? {
      SomebodyAwake(calls[..n]);
      var c :| 0 <= c < n && calls[..n][c].phase.Woken?;
      assert calls[c].phase.Woken?;
    }
  }

  /** The checkout has an isle, or a slot to build one in. */
  predicate Served(phase: Phase) {
    phase.Building? || (phase.Done? && phase.r.Got?)
  }

  /** While the pool is open and a slot is free, every turn of every checkout is served. */
  lemma FreeSlotServes(max: nat, p: Pool, w: CallId)
    requires Reachable(max, p) && !p.inner.closed && p.inner.active < max && Enabled(p, Turn(w))
    ensures Served(Attempt(max, p, w).calls[w].phase)
  {
    TakeAliveShrinks(p.inner.idle, p.isles.alive);
    hide TakeAlive, Reachable;
  }

  /** A free slot and a sleeping checkout: then some awake checkout can take its turn, and its turn is served. */
  lemma FreeSlotFindsTaker(max: nat, p: Pool, c: CallId)
    requires Reachable(max, p) && Asleep(p.calls, c) && p.inner.active < max
    ensures exists w: CallId ::
              Enabled(p, Turn(w)) && p.calls[w].phase.Woken? && Served(Attempt(max, p, w).calls[w].phase)
  {
    NoLostWakeup(max, p, c);
    SomebodyAwake(p.calls);
    var w :| 0 <= w < |p.calls| && p.calls[w].phase.Woken?;
    assert Enabled(p, Turn(w));
    FreeSlotServes(max, p, w);
  }

  // ── accounting and conservation ───────────────────────────────────────────────────────────────────

  /** `active` is exact across the unlocked factory call, the pool never outgrows `max_size`, and no decrement
      saturates. */
  lemma ActiveIsExact(max: nat, p: Pool, e: Event)
    requires Reachable(max, p)
    ensures p.inner.active == |p.isles.out| + Slots(p.calls)
    ensures p.inner.active + |p.inner.idle| <= max
    ensures Enabled(p, e) && (e.DropGuard? || e.DecActive?) ==>
              p.inner.active > 0 && Apply(max, p, e).inner.active == p.inner.active - 1
  {
    ReachableInv(max, p);
    hide Inv;
    if Enabled(p, e) && e.DropGuard? {
      GiveBackKeeps(max, p, e.isle, e.who);
    }
    if Enabled(p, e) && e.DecActive? {
      GiveUpSlotKeeps(max, p, e.call, e.e, e.who);
    }
  }

  /** Every isle the factory ever returned is in exactly one place; none is in two, none is forgotten. */
  lemma IslesAreConserved(max: nat, p: Pool, i: IsleId)
    requires Reachable(max, p)
    ensures One(i in p.inner.idle) + One(i in p.isles.out) + One(i in p.isles.shut) + One(i in p.isles.dropped) ==
            One(i < p.isles.made)
    ensures forall a, b :: 0 <= a < b < |p.inner.idle| ==> p.inner.idle[a] != p.inner.idle[b]
  {
    ReachableInv(max, p);
    assert Places(p.inner.idle, p.isles, i) == One(i < p.isles.made);
  }

  /** A closed pool whose guards are gone and whose checkouts have all returned has ended every isle. */
  lemma NothingLeftBehind(max: nat, p: Pool, i: IsleId)
    requires Reachable(max, p) && p.inner.closed && p.isles.out == {}
    requires forall c :: 0 <= c < |p.calls| ==> p.calls[c].phase.Done?
    ensures p.inner.active == 0 && p.inner.idle == []
    ensures i < p.isles.made ==> i in p.isles.shut || i in p.isles.dropped
  {
    ReachableInv(max, p);
    NoSlots(p.calls);
    assert Places(p.inner.idle, p.isles, i) == One(i < p.isles.made);
  }

  lemma {:induction false} NoSlots(calls: seq<Call>)
    requires forall c :: 0 <= c < |calls| ==> calls[c].phase.Done?
    ensures Slots(calls) == 0
  {
    if calls != [] {
      NoSlots(calls[..|calls| - 1]);
    }
  }

  lemma TurnHandsOut(max: nat, p: Pool, c: CallId, i: IsleId)
    requires IslesPlaced(p.inner.idle, p.isles) && Enabled(p, Turn(c))
    requires Attempt(max, p, c).calls[c].phase == Done(Got(i))
    ensures i !in p.isles.out && i in Attempt(max, p, c).isles.out && i in p.isles.alive && i in p.inner.idle
  {
    TakenIsNew(p);
    TakeAliveFinds(p.inner.idle, p.isles.alive);
    hide TakeAlive, IslesPlaced;
  }

  /** Only a turn or the factory hands out an isle. */
  lemma OnlyTwoHandOut(max: nat, p: Pool, e: Event, c: CallId, i: IsleId)
    requires Enabled(p, e) && c < |p.calls| && !p.calls[c].phase.Done?
    requires Apply(max, p, e).calls[c].phase == Done(Got(i))
    ensures e == Turn(c) || (e == FactoryOk(c) && i == p.isles.made)
  {
    WakeAllWakes(p.calls);
    hide TakeAlive, WakeAll;
  }

  /** A checkout hands out a live isle that no guard holds, from the idle list or new from the factory. */
  lemma HandedOutOnce(max: nat, p: Pool, e: Event, c: CallId, i: IsleId)
    requires Reachable(max, p) && Enabled(p, e) && c < |p.calls| && !p.calls[c].phase.Done?
    requires Apply(max, p, e).calls[c].phase == Done(Got(i))
    ensures i !in p.isles.out && i in Apply(max, p, e).isles.out
    ensures (e == Turn(c) && i in p.isles.alive && i in p.inner.idle) || (e == FactoryOk(c) && i == p.isles.made)
  {
    ReachableInv(max, p);
    IslesOnBuild(p.isles, p.inner.idle);
    hide IslesPlaced, Attempt, Accounted, NoneForgotten, CanNotify;
    OnlyTwoHandOut(max, p, e, c, i);
    if e.Turn? {
      TurnHandsOut(max, p, c, i);
    }
  }

  // ── timeouts and refusals ─────────────────────────────────────────────────────────────────────────

  /** `Timeout` is reported only by `checkout_timeout`, after its deadline, and after a fresh attempt that found no
      live idle isle and every slot taken: no usable notification is thrown away.  `try_checkout` says that nothing
      is free under the same condition. */
  lemma RefusalIsFresh(max: nat, p: Pool, c: CallId)
    requires Reachable(max, p) && Enabled(p, Turn(c))
    ensures var q := Attempt(max, p, c);
      q.calls[c].phase == Done(Failed(Timeout)) || q.calls[c].phase == Done(NoneFree) ==>
        && !p.inner.closed && q.inner.active == p.inner.active == max && q.inner.idle == []
        && (forall k :: 0 <= k < |p.inner.idle| ==> p.inner.idle[k] !in p.isles.alive)
        && (q.calls[c].phase == Done(Failed(Timeout)) ==> p.calls[c].way.Timed? && q.calls[c].deadline <= p.now)
        && (q.calls[c].phase == Done(NoneFree) ==> p.calls[c].way.Try?)
  {
    ReachableInv(max, p);
    TakeAliveFinds(p.inner.idle, p.isles.alive);
    hide IslesPlaced, TakeAlive;
  }

  // ── a closed pool is final ────────────────────────────────────────────────────────────────────────

  predicate Settles(p: Pool, q: Pool) {
    && (p.inner.closed ==> q.inner.closed)
    && p.isles.made <= q.isles.made
    && |p.calls| <= |q.calls|
    && forall c :: 0 <= c < |p.calls| ==>
         && q.calls[c].way == p.calls[c].way
         && (!p.calls[c].phase.Entering? ==> !q.calls[c].phase.Entering? && q.calls[c].deadline == p.calls[c].deadline)
         && (p.calls[c].phase.Done? ==> q.calls[c] == p.calls[c])
         && (p.inner.closed ==> !q.calls[c].phase.Waiting?)
  }

  lemma StepSettles(max: nat, p: Pool, e: Event)
    requires Inv(max, p) && Enabled(p, e)
    ensures Settles(p, Apply(max, p, e))
  {
    WakeAllWakes(p.calls);
    hide Accounted, IslesPlaced, TakeAlive, WakeAll, Awake;
  }

  lemma {:induction false} RunSettles(max: nat, p: Pool, events: seq<Event>, q: Pool)
    requires Inv(max, p) && Leads(max, p, events, q)
    ensures Settles(p, q)
    decreases |events|
  {
    hide Apply, Enabled;
    if events != [] {
      var mid := RunFrom(max, p, events[..|events| - 1]).value;
      RunSettles(max, p, events[..|events| - 1], mid);
      RunKeeps(max, p, events[..|events| - 1], mid);
      StepSettles(max, mid, events[|events| - 1]);
    } else {
      hide Accounted, IslesPlaced;
    }
  }

  /** Once closed, the pool stays closed and idle, nobody sleeps, and every turn ends with `Closed`. */
  lemma ClosedIsFinal(max: nat, p: Pool, q: Pool, c: CallId)
    requires Reachable(max, p) && p.inner.closed && Later(max, p, q)
    ensures q.inner.closed && q.inner.idle == [] && !Asleep(q.calls, c)
    ensures Enabled(q, Turn(c)) ==> Attempt(max, q, c).calls[c].phase == Done(Failed(Closed))
    ensures Enabled(q, Turn(c)) ==>
              var r := Attempt(max, q, c);
              && r.inner == q.inner && r.isles == q.isles && r.now == q.now && |r.calls| == |q.calls|
              && forall k :: 0 <= k < |q.calls| && k != c ==> r.calls[k] == q.calls[k]
  {
    ReachableInv(max, p);
    var events :| Leads(max, p, events, q);
    RunSettles(max, p, events, q);
    RunKeeps(max, p, events, q);
    hide Accounted, IslesPlaced, TakeAlive;
  }

  /** A checkout's result never changes. */
  lemma ResultIsFinal(max: nat, p: Pool, q: Pool, c: CallId)
    requires Reachable(max, p) && Later(max, p, q) && c < |p.calls| && p.calls[c].phase.Done?
    ensures c < |q.calls| && q.calls[c].phase == p.calls[c].phase
  {
    ReachableInv(max, p);
    hide Inv;
    var events :| Leads(max, p, events, q);
    RunSettles(max, p, events, q);
  }
}
