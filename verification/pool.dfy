/** The pool itself (src/pool.rs): an object with the source's fields and methods.

    `calls`, `isles` and `now` are the world around the mutex.  Each method runs the source's statements; wherever
    the source is without the lock, the others run a batch of `plan`. */
module Pools {
  import opened Errors
  import opened PoolProtocol
  import opened PoolInvariant
  import opened PoolGuarantees

  /** How `try_acquire` leaves the lock. */
  datatype Acquired = IsClosed | Isle(isle: IsleId) | MustBuild | NeedWaiting

  lemma StepIsReachable(max: nat, p: Pool, e: Event)
    requires Reachable(max, p) && Enabled(p, e)
    ensures Reachable(max, Apply(max, p, e))
  {
    hide Apply, Enabled;
    var events :| Leads(max, Empty(), events, p);
    assert (events + [e])[..|events|] == events;
    assert Leads(max, Empty(), events + [e], Apply(max, p, e));
  }

  predicate Mine(c: CallId, e: Event) {
    (e.Turn? || e.FactoryOk? || e.FactoryErr? || e.DecActive?) && e.call == c
  }

  /** A call finds itself as it was, except that it may have been woken, and time does not run back. */
  predicate Undisturbed(c: CallId, p: Pool, q: Pool) {
    && p.now <= q.now
    && (c < |p.calls| ==>
          && c < |q.calls|
          && (q.calls[c] == p.calls[c] || (p.calls[c].phase.Waiting? && q.calls[c] == p.calls[c].(phase := Woken))))
  }

  lemma OthersUndisturbed(max: nat, p: Pool, e: Event, c: CallId)
    requires Enabled(p, e) && !Mine(c, e)
    ensures Undisturbed(c, p, Apply(max, p, e))
  {
    WakeAllWakes(p.calls);
    hide TakeAlive, WakeAll;
  }

  /** What a turn under the lock may rely on. */
  lemma TurnIsReachable(max: nat, p: Pool, c: CallId)
    requires Reachable(max, p) && Enabled(p, Turn(c))
    ensures c < |p.calls| && Reachable(max, Attempt(max, p, c))
    ensures p.inner.active + |p.inner.idle| <= max
    ensures var (found, rest, gone) := TakeAlive(p.inner.idle, p.isles.alive);
      |rest| <= |p.inner.idle| && (found.None? ==> rest == [])
  {
    StepIsReachable(max, p, Turn(c));
    ActiveIsExact(max, p, Tick);
    TakeAliveShrinks(p.inner.idle, p.isles.alive);
    hide TakeAlive, Reachable;
  }

  /** The batch run by the others: in order, passing over what is not enabled then, and what is the call's own. */
  function AfterBatch(max: nat, c: CallId, p: Pool, batch: seq<Event>): Pool {
    if batch == [] then p
    else
      var q := AfterBatch(max, c, p, batch[..|batch| - 1]);
      var e := batch[|batch| - 1];
      if Enabled(q, e) && !Mine(c, e) then Apply(max, q, e) else q
  }

  class IslePool {
    const maxSize: nat
    var idle: seq<IsleId>
    var active: nat
    var closed: bool
    var calls: seq<Call>
    var isles: Isles
    var now: nat
    var plan: seq<seq<Event>>

    /** How the plan was spent: turns given to the others, own sections taken, turns after which a call was asleep. */
    ghost var turns: nat
    ghost var steps: nat
    ghost var asleep: nat

    /** Turns in which the call could have taken a section and did not, less sections it took without a turn. */
    ghost function Idled(): int
      reads this
    {
      turns - steps - asleep
    }

    /** Own sections less turns given to the others: a method that gives a turn before each of its sections adds
        none. */
    ghost function Rushed(): int
      reads this
    {
      steps - turns
    }

    function State(): Pool
      reads this
    {
      Pool(Inner(idle, active, closed), calls, isles, now)
    }

    ghost predicate Valid()
      reads this
    {
      Reachable(maxSize, State())
    }

    constructor (maxSize: nat, plan: seq<seq<Event>>)
      ensures Valid() && State() == Empty() && this.maxSize == maxSize && this.plan == plan
    {
      this.maxSize, this.plan := maxSize, plan;
      idle, active, closed := [], 0, false;
      calls, isles, now := [], Isles(0, {}, {}, {}, {}), 0;
      turns, steps, asleep := 0, 0, 0;
      new;
      assert Leads(maxSize, Empty(), [], State());
    }

    /** `IslePool::new` refuses a pool of size zero with `Closed`. */
    static method New(maxSize: nat, plan: seq<seq<Event>>) returns (pool: IslePool?)
      ensures pool == null <==> maxSize == 0
      ensures pool != null ==> pool.Valid() && pool.State() == Empty() && pool.maxSize == maxSize
    {
      if maxSize == 0 {
        return null;
      }
      pool := new IslePool(maxSize, plan);
    }

    // ── the others ──────────────────────────────────────────────────────────────────────────────────

    method Become(p: Pool)
      modifies this`idle, this`active, this`closed, this`calls, this`isles, this`now
      ensures State() == p
    {
      idle, active, closed := p.inner.idle, p.inner.active, p.inner.closed;
      calls, isles, now := p.calls, p.isles, p.now;
    }

    /** The lock is free: the others run the next batch of the plan. */
    method Yield(c: CallId) returns (ok: bool)
      requires Valid()
      modifies this`idle, this`active, this`closed, this`calls, this`isles, this`now, this`plan, this`turns, this`asleep
      ensures Valid() && Undisturbed(c, old(State()), State())
      ensures ok ==> old(plan) != [] && plan == old(plan)[1..]
      ensures ok ==> State() == AfterBatch(maxSize, c, old(State()), old(plan)[0])
      ensures if ok then |plan| < |old(plan)| else plan == old(plan) == [] && State() == old(State())
      ensures turns == old(turns) + One(ok) && asleep == old(asleep) + One(ok && Asleep(calls, c))
    {
      hide Reachable, Apply, Enabled;
      if plan == [] {
        return false;
      }
      var batch := plan[0];
      plan := plan[1..];
      ok := true;
      for i := 0 to |batch|
        invariant Valid() && Undisturbed(c, old(State()), State()) && plan == old(plan)[1..]
        invariant turns == old(turns) && asleep == old(asleep)
        invariant State() == AfterBatch(maxSize, c, old(State()), batch[..i])
      {
        assert batch[..i + 1][..i] == batch[..i];
        if Enabled(State(), batch[i]) && !Mine(c, batch[i]) {
          OthersUndisturbed(maxSize, State(), batch[i], c);
          StepIsReachable(maxSize, State(), batch[i]);
          Become(Apply(maxSize, State(), batch[i]));
        }
      }
      assert batch[..|batch|] == batch;
      turns, asleep := turns + 1, asleep + One(Asleep(calls, c));
    }

    method EnterCall(way: Way) returns (c: CallId)
      requires Valid()
      modifies this`calls
      ensures Valid() && c == |old(calls)| && calls == old(calls) + [Call(way, 0, Entering)]
    {
      StepIsReachable(maxSize, State(), Enter(way));
      c := |calls|;
      calls := calls + [Call(way, 0, Entering)];
    }

    // ── under the lock ──────────────────────────────────────────────────────────────────────────────

    /** Pop from the end until a live isle turns up; dead ones are dropped. */
    method TakeAliveIsle() returns (found: Option<IsleId>)
      modifies this`idle, this`isles
      ensures var (f, rest, gone) := TakeAlive(old(idle), old(isles).alive);
              found == f && idle == rest && isles == old(isles).(dropped := old(isles).dropped + gone)
    {
      ghost var gone := {};
      assert TakeAlive(idle, isles.alive).2 + gone == TakeAlive(idle, isles.alive).2;
      while idle != []
        invariant isles == old(isles).(dropped := old(isles).dropped + gone)
        invariant var (f, rest, more) := TakeAlive(idle, old(isles).alive);
                  TakeAlive(old(idle), old(isles).alive) == (f, rest, more + gone)
        decreases |idle|
      {
        var isle := idle[|idle| - 1];
        idle := idle[..|idle| - 1];
        if isle in isles.alive {
          assert {} + gone == gone;
          return Some(isle);
        }
        ghost var more := TakeAlive(idle, old(isles).alive).2;
        assert (more + {isle}) + gone == more + ({isle} + gone);
        isles := isles.(dropped := isles.dropped + {isle});
        gone := {isle} + gone;
      }
      assert {} + gone == gone;
      return None;
    }

    /** From getting the lock to letting go of it: the test for `closed` and the locked half of `try_acquire`. */
    method TryAcquire(c: CallId) returns (r: Acquired)
      requires Valid() && Enabled(State(), Turn(c))
      modifies this`idle, this`active, this`calls, this`isles, this`steps
      ensures steps == old(steps) + 1
      ensures Valid() && State() == Attempt(maxSize, old(State()), c)
      ensures c < |calls| == |old(calls)| && calls[c].way == old(calls)[c].way
      ensures calls[c].deadline == WithDeadline(old(calls)[c], now).deadline
      ensures match r
              case IsClosed => closed && calls[c].phase == Done(Failed(Closed))
              case Isle(i) => calls[c].phase == Done(Got(i))
              case MustBuild => calls[c].phase == Building
              case NeedWaiting =>
                !closed && active == maxSize && idle == [] && calls[c].phase == NeedWait(calls[c], now)
    {
      TurnIsReachable(maxSize, State(), c);
      hide Reachable, TakeAlive, Enabled;
      steps := steps + 1;
      calls := calls[c := WithDeadline(calls[c], now)];
      if closed {
        calls := Move(calls, c, Done(Failed(Closed)));
        return IsClosed;
      }
      var found := TakeAliveIsle();
      if found.Some? {
        active := active + 1;
        isles := isles.(out := isles.out + {found.value});
        calls := Move(calls, c, Done(Got(found.value)));
        return Isle(found.value);
      }
      if active + |idle| < maxSize {
        active := active + 1;
        calls := Move(calls, c, Building);
        return MustBuild;
      }
      calls := Move(calls, c, NeedWait(calls[c], now));
      return NeedWaiting;
    }

    /** `notify_one`. */
    method NotifyOne() returns (who: Option<CallId>)
      modifies this`calls
      ensures CanNotify(old(calls), who) && calls == Notify(old(calls), who)
    {
      for c := 0 to |calls|
        invariant calls == old(calls) && forall k :: 0 <= k < c ==> !calls[k].phase.Waiting?
      {
        if calls[c].phase.Waiting? {
          who := Some(c);
          calls := Move(calls, c, Woken);
          return;
        }
      }
      return None;
    }

    /** `return_isle`, called when a guard is dropped. */
    method ReturnIsle(isle: IsleId)
      requires Valid() && isle in isles.out
      modifies this`idle, this`active, this`calls, this`isles
      ensures Valid() && active == old(active) - 1
      ensures old(closed) ==> idle == old(idle) && isle in isles.shut && isle !in isles.alive
      ensures !old(closed) && isle in old(isles).alive ==> idle == old(idle) + [isle] && isle in isles.alive
      ensures !old(closed) && isle !in old(isles).alive ==> idle == old(idle) && isle in isles.dropped
      ensures exists who :: CanNotify(old(calls), who) && State() == GiveBack(old(State()), isle, who)
    {
      ghost var before := State();
      active := SaturatingDec(active);
      isles := isles.(out := isles.out - {isle});
      if closed {
        isles := isles.(shut := isles.shut + {isle}, alive := isles.alive - {isle});
      } else if isle in isles.alive {
        idle := idle + [isle];
      } else {
        isles := isles.(dropped := isles.dropped + {isle});
      }
      var who := NotifyOne();
      StepIsReachable(maxSize, before, DropGuard(isle, who));
      ActiveIsExact(maxSize, before, DropGuard(isle, who));
    }

    /** `dec_active`, after a failed factory call. */
    method DecrementActive(c: CallId, e: IsleError)
      requires Valid() && c < |calls| && calls[c].phase.Failing?
      modifies this`active, this`calls, this`steps
      ensures steps == old(steps) + 1
      ensures Valid() && active == old(active) - 1
      ensures exists who :: CanNotify(old(calls), who) && State() == GiveUpSlot(old(State()), c, e, who)
    {
      ghost var before := State();
      active := SaturatingDec(active);
      steps := steps + 1;
      var who := NotifyOne();
      calls := Move(calls, c, Done(Failed(e)));
      StepIsReachable(maxSize, before, DecActive(c, e, who));
      ActiveIsExact(maxSize, before, DecActive(c, e, who));
    }

    /** `shutdown`: close, shut every idle isle down, wake everybody. */
    method ShutDown()
      requires Valid()
      modifies this`idle, this`closed, this`calls, this`isles
      ensures Valid() && State() == Close(old(State()))
      ensures closed && idle == [] && active == old(active) && isles.out == old(isles).out
      ensures forall i :: i in isles.shut <==> i in old(isles).shut || i in old(idle)
      ensures |calls| == |old(calls)| && forall c :: 0 <= c < |calls| ==> !Asleep(calls, c)
    {
      StepIsReachable(maxSize, State(), Event.Shutdown);
      hide Reachable;
      closed := true;
      ghost var gone := {};
      while idle != []
        invariant closed && calls == old(calls) && gone + Members(idle) == Members(old(idle))
        invariant isles == old(isles).(shut := old(isles).shut + gone, alive := old(isles).alive - gone)
        decreases |idle|
      {
        var isle := idle[0];
        assert idle == [isle] + idle[1..];
        idle := idle[1..];
        isles := isles.(shut := isles.shut + {isle}, alive := isles.alive - {isle});
        gone := gone + {isle};
      }
      assert Members(idle) == {};
      assert gone == Members(old(idle));
      WakeAllWakes(calls);
      calls := WakeAll(calls);
    }

    // ── checkout ────────────────────────────────────────────────────────────────────────────────────

    /** The unlocked half of `try_acquire`: call the factory, which fails if `failure` is given. */
    method CallFactory(c: CallId, failure: Option<IsleError>) returns (r: CheckoutResult)
      requires Valid() && c < |calls| && calls[c].phase.Building?
      modifies this
      ensures Valid() && c < |calls| && calls[c].phase == Done(r) && Idled() <= old(Idled())
      ensures if failure.Some? then r == Failed(failure.value) else r.Got? && r.isle in isles.out
      ensures |plan| <= |old(plan)| && (plan != [] ==> Rushed() <= old(Rushed()))
    {
      hide AfterBatch, Reachable, TakeAlive;
      var _ := Yield(c);
      if failure.None? {
        var i := isles.made;
        StepIsReachable(maxSize, State(), FactoryOk(c));
        Become(Build(State(), c));
        steps := steps + 1;
        return Got(i);
      }
      StepIsReachable(maxSize, State(), FactoryErr(c));
      calls := Move(calls, c, Failing);
      steps := steps + 1;
      var _ := Yield(c);
      DecrementActive(c, failure.value);
      return Failed(failure.value);
    }

    /** `condvar.wait`: sleep until woken, by a notification or for no reason. */
    method Wait(c: CallId) returns (ok: bool)
      requires Valid() && c < |calls| && calls[c].phase.Waiting?
      modifies this
      ensures Valid() && |plan| <= |old(plan)| && (ok ==> |plan| < |old(plan)|) && c < |calls|
      ensures calls[c].way == old(calls)[c].way
      ensures if ok then calls[c].phase.Woken? && Idled() <= old(Idled()) + 1 else plan == [] && Idled() <= old(Idled())
      ensures plan != [] ==> Rushed() < old(Rushed())
    {
      hide AfterBatch, Reachable;
      ok := true;
      while ok && calls[c].phase.Waiting?
        invariant Valid() && |plan| <= |old(plan)| && c < |calls|
        invariant calls[c].way == old(calls)[c].way && (calls[c].phase.Waiting? || calls[c].phase.Woken?)
        invariant calls[c].phase.Waiting? || |plan| < |old(plan)|
        invariant Idled() <= old(Idled()) + One(ok && calls[c].phase.Woken?) && (!ok ==> plan == [])
        invariant plan != [] && calls[c].phase.Woken? ==> Rushed() < old(Rushed())
        invariant plan != [] ==> Rushed() <= old(Rushed())
        decreases |plan|, ok
      {
        ok := Yield(c);
      }
    }

    /** `checkout`: blocks until an isle is free (or the plan is used up: None). */
    method Checkout(failure: Option<IsleError>) returns (r: Option<CheckoutResult>)
      requires Valid()
      modifies this
      ensures Valid() && |old(calls)| <= |calls|
      ensures r == Some(Failed(Closed)) && failure != Some(Closed) ==> closed
      ensures Idled() <= old(Idled()) && (r.None? ==> plan == [])
      ensures r.Some? ==> |old(calls)| < |calls| && calls[|old(calls)|].phase == Done(r.value)
      ensures r.Some? ==>
                r.value.Got? || r.value == Failed(Closed) || (failure.Some? && r.value == Failed(failure.value))
      ensures plan != [] ==> Rushed() <= old(Rushed())
    {
      hide AfterBatch, Reachable, Attempt, TakeAlive;
      var c := EnterCall(Block);
      var ok := Yield(c);
      if !ok { return None; }
      while true
        invariant Valid() && |old(calls)| == c < |calls| && calls[c].way.Block?
        invariant calls[c].phase.Entering? || calls[c].phase.Woken?
        invariant Idled() <= old(Idled()) + 1
        invariant |plan| <= |old(plan)| && (plan != [] ==> Rushed() < old(Rushed()))
        decreases |plan|
      {
        var turn := TryAcquire(c);
        match turn {
          case IsClosed => return Some(Failed(Closed));
          case Isle(i) => return Some(Got(i));
          case MustBuild =>
            var built := CallFactory(c, failure);
            return Some(built);
          case NeedWaiting =>
            ok := Wait(c);
            if !ok { return None; }
        }
      }
    }

    /** `try_checkout`: one attempt; `NoneFree` only if every slot is taken. */
    method TryCheckout(failure: Option<IsleError>) returns (r: CheckoutResult)
      requires Valid()
      modifies this
      ensures Valid() && |old(calls)| < |calls| && calls[|old(calls)|].phase == Done(r)
      ensures r.NoneFree? ==> active == maxSize && idle == [] && !closed
      ensures r == Failed(Closed) && failure != Some(Closed) ==> closed
      ensures r.Failed? ==> r.e.Closed? || failure == Some(r.e)
      ensures plan != [] ==> Rushed() <= old(Rushed())
    {
      hide AfterBatch, Reachable, Attempt, TakeAlive;
      var c := EnterCall(Try);
      var _ := Yield(c);
      var turn := TryAcquire(c);
      match turn {
        case IsClosed => return Failed(Closed);
        case Isle(i) => return Got(i);
        case MustBuild => r := CallFactory(c, failure);
        case NeedWaiting => return NoneFree;
      }
    }

    /** `condvar.wait_timeout`: sleep until woken or until the time is up; some time passes. */
    method WaitTimeout(c: CallId)
      requires Valid() && c < |calls| && calls[c].phase.Waiting?
      modifies this
      ensures Valid() && c < |calls| && now > old(now)
      ensures calls[c] == old(calls)[c].(phase := Woken)
      ensures |plan| <= |old(plan)| && (plan != [] ==> Rushed() < old(Rushed()))
    {
      hide AfterBatch, Reachable;
      var _ := Yield(c);
      StepIsReachable(maxSize, State(), Tick);
      now := now + 1;
      if calls[c].phase.Waiting? {
        StepIsReachable(maxSize, State(), Wake(c));
        calls := Move(calls, c, Woken);
      }
    }

    /** `checkout_timeout`: always returns, since every wait takes time; `Timeout` only after the deadline and a fresh
        attempt that found every slot taken. */
    method CheckoutTimeout(timeout: nat, failure: Option<IsleError>) returns (r: CheckoutResult)
      requires Valid()
      modifies this
      ensures Valid() && |old(calls)| < |calls| && calls[|old(calls)|].phase == Done(r)
      ensures r == Failed(Timeout) && failure != Some(Timeout) ==>
                active == maxSize && idle == [] && !closed && old(now) + timeout <= now
      ensures r == Failed(Closed) && failure != Some(Closed) ==> closed
      ensures r.Failed? ==> r.e.Closed? || r.e.Timeout? || failure == Some(r.e)
      ensures !r.NoneFree?
      ensures plan != [] ==> Rushed() <= old(Rushed())
    {
      hide AfterBatch, Reachable, Attempt, TakeAlive;
      var c := EnterCall(Way.Timed(timeout));
      var _ := Yield(c);
      ghost var start := now;
      while true
        invariant Valid() && |old(calls)| == c < |calls| && calls[c].way == Way.Timed(timeout)
        invariant old(now) <= start <= now
        invariant if calls[c].phase.Entering? then now == start
                  else calls[c].phase.Woken? && calls[c].deadline == start + timeout
        invariant |plan| <= |old(plan)| && (plan != [] ==> Rushed() < old(Rushed()))
        decreases calls[c].phase.Entering?, start + timeout - now
      {
        var turn := TryAcquire(c);
        match turn {
          case IsClosed => return Failed(Closed);
          case Isle(i) => return Got(i);
          case MustBuild =>
            r := CallFactory(c, failure);
            return;
          case NeedWaiting =>
            if calls[c].deadline <= now {
              return Failed(Timeout);
            }
            WaitTimeout(c);
            var _ := Yield(c);
        }
      }
    }
  }
}
