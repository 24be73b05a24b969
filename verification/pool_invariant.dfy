/** What every reachable state of the pool satisfies, and that every event keeps it. */
module PoolInvariant {
  import opened Errors
  import opened PoolProtocol

  /** How many calls are awake without the lock. */
  function Awake(calls: seq<Call>): nat {
    if calls == [] then 0
    else Awake(calls[..|calls| - 1]) + if calls[|calls| - 1].phase.Woken? then 1 else 0
  }

  predicate HasSlot(phase: Phase) {
    phase.Building? || phase.Failing?
  }

  /** How many calls have a slot but no guard yet. */
  function Slots(calls: seq<Call>): nat {
    if calls == [] then 0
    else Slots(calls[..|calls| - 1]) + if HasSlot(calls[|calls| - 1].phase) then 1 else 0
  }

  predicate Distinct(s: seq<IsleId>) {
    forall i, k :: 0 <= i < k < |s| ==> s[i] != s[k]
  }

  /** In how many places an isle is: idle, held by a guard, shut down, dropped dead. */
  function Places(idle: seq<IsleId>, isles: Isles, i: IsleId): nat {
    One(i in idle) + One(i in isles.out) + One(i in isles.shut) + One(i in isles.dropped)
  }

  /** Every isle ever made is in exactly one place. */
  ghost predicate IslesPlaced(idle: seq<IsleId>, isles: Isles) {
    && Distinct(idle)
    && (forall i: IsleId :: Places(idle, isles, i) == One(i < isles.made))
    && (forall i :: i in isles.alive ==> i !in isles.shut && i !in isles.dropped)
  }

  /** `active` counts the guards and the calls that have a slot but no guard yet. */
  predicate Accounted(max: nat, inner: Inner, calls: seq<Call>, isles: Isles) {
    && inner.active == |isles.out| + Slots(calls)
    && inner.active + |inner.idle| <= max
  }

  /** While a call sleeps un-notified, every free slot has an awake call on its way to it. */
  predicate NoneForgotten(max: nat, inner: Inner, calls: seq<Call>) {
    forall c :: 0 <= c < |calls| && calls[c].phase.Waiting? ==> !inner.closed && max - inner.active <= Awake(calls)
  }

  predicate ClosedIsEmpty(inner: Inner) {
    inner.closed ==> inner.idle == []
  }

  ghost predicate Inv(max: nat, p: Pool) {
    && IslesPlaced(p.inner.idle, p.isles)
    && Accounted(max, p.inner, p.calls, p.isles)
    && NoneForgotten(max, p.inner, p.calls)
    && ClosedIsEmpty(p.inner)
  }

  // ── counting calls ────────────────────────────────────────────────────────────────────────────────

  lemma {:induction false} CountsOnUpdate(calls: seq<Call>, c: nat, x: Call)
    requires c < |calls|
    ensures Awake(calls[c := x]) + One(calls[c].phase.Woken?) == Awake(calls) + One(x.phase.Woken?)
    ensures Slots(calls[c := x]) + One(HasSlot(calls[c].phase)) == Slots(calls) + One(HasSlot(x.phase))
  {
    var n := |calls| - 1;
    if c < n {
      CountsOnUpdate(calls[..n], c, x);
      assert calls[c := x][..n] == calls[..n][c := x];
    } else {
      assert calls[c := x][..n] == calls[..n];
    }
  }

  lemma CountsOnAppend(calls: seq<Call>, x: Call)
    ensures Awake(calls + [x]) == Awake(calls) + One(x.phase.Woken?)
    ensures Slots(calls + [x]) == Slots(calls) + One(HasSlot(x.phase))
  {
    assert (calls + [x])[..|calls|] == calls;
  }

  lemma {:induction false} WakeAllWakes(calls: seq<Call>)
    ensures Slots(WakeAll(calls)) == Slots(calls)
    ensures forall c :: 0 <= c < |calls| ==>
              WakeAll(calls)[c] == if calls[c].phase.Waiting? then calls[c].(phase := Woken) else calls[c]
  {
    if calls != [] {
      var n := |calls| - 1;
      WakeAllWakes(calls[..n]);
      CountsOnAppend(WakeAll(calls[..n]), if calls[n].phase.Waiting? then calls[n].(phase := Woken) else calls[n]);
    }
  }

  // ── taking a live isle ────────────────────────────────────────────────────────────────────────────

  /** The search takes the last live isle and drops exactly the dead ones behind it. */
  lemma {:induction false} TakeAliveFinds(idle: seq<IsleId>, alive: set<IsleId>)
    ensures var (found, rest, gone) := TakeAlive(idle, alive);
      && |rest| <= |idle| && rest == idle[..|rest|]
      && (found.None? ==> rest == [] && forall k :: 0 <= k < |idle| ==> idle[k] !in alive)
      && (found.Some? ==>
            && |rest| < |idle| && idle[|rest|] == found.value && found.value in alive
            && forall k :: |rest| < k < |idle| ==> idle[k] !in alive)
      && (forall i :: i in gone <==> i in idle[if found.Some? then |rest| + 1 else 0..])
  {
    if idle != [] {
      var n := |idle| - 1;
      if idle[n] !in alive {
        TakeAliveFinds(idle[..n], alive);
        var (found, rest, gone) := TakeAlive(idle[..n], alive);
        var from := if found.Some? then |rest| + 1 else 0;
        assert idle[from..] == idle[..n][from..] + [idle[n]];
      }
    }
  }

  /** What the search leaves over: nothing at all if it found nothing. */
  lemma TakeAliveShrinks(idle: seq<IsleId>, alive: set<IsleId>)
    ensures var (found, rest, gone) := TakeAlive(idle, alive);
      |rest| <= |idle| && if found.Some? then |rest| < |idle| else rest == []
  {
    TakeAliveFinds(idle, alive);
  }

  lemma TakePlaces(idle: seq<IsleId>, isles: Isles, i: IsleId)
    requires IslesPlaced(idle, isles)
    ensures var (found, rest, gone) := TakeAlive(idle, isles.alive);
      var after := isles.(dropped := isles.dropped + gone,
                             out := isles.out + if found.Some? then {found.value} else {});
      && Places(rest, after, i) == Places(idle, isles, i)
      && (i in gone ==> i !in isles.alive)
  {
    TakeAliveFinds(idle, isles.alive);
    var (found, rest, gone) := TakeAlive(idle, isles.alive);
    var from := if found.Some? then |rest| + 1 else 0;
    hide TakeAlive;
    assert idle == rest + (if found.Some? then [found.value] else []) + idle[from..];
    assert i in idle <==> i in rest || found == Some(i) || i in gone;
    assert Places(idle, isles, i) <= 1;
  }

  // ── every event keeps it ──────────────────────────────────────────────────────────────────────────

  /** A call moves from one phase to another. */
  lemma NoneForgottenOnMove(max: nat, inner: Inner, calls: seq<Call>, after: Inner, c: CallId, x: Call)
    requires NoneForgotten(max, inner, calls) && c < |calls| && after.closed == inner.closed
    requires x.phase.Waiting? ==> calls[c].phase.Waiting? || (!inner.closed && max <= after.active)
    requires inner.active + One(calls[c].phase.Woken?) <= after.active + One(x.phase.Woken?)
             || max <= after.active || inner.closed
    ensures NoneForgotten(max, after, calls[c := x])
  {
    CountsOnUpdate(calls, c, x);
  }

  lemma AttemptKeepsIsles(max: nat, p: Pool, c: CallId)
    requires IslesPlaced(p.inner.idle, p.isles) && c < |p.calls|
    ensures var q := Attempt(max, p, c); IslesPlaced(q.inner.idle, q.isles)
  {
    var (found, rest, gone) := TakeAlive(p.inner.idle, p.isles.alive);
    TakeAliveFinds(p.inner.idle, p.isles.alive);
    var after := p.isles.(dropped := p.isles.dropped + gone,
                             out := p.isles.out + if found.Some? then {found.value} else {});
    hide Places, TakeAlive;
    forall i: IsleId
      ensures Places(rest, after, i) == Places(p.inner.idle, p.isles, i) && (i in gone ==> i !in p.isles.alive)
    {
      TakePlaces(p.inner.idle, p.isles, i);
    }
    assert found.None? ==> after == p.isles.(dropped := p.isles.dropped + gone);
  }

  lemma TakenIsNew(p: Pool)
    requires IslesPlaced(p.inner.idle, p.isles)
    ensures var (found, rest, gone) := TakeAlive(p.inner.idle, p.isles.alive);
      found.Some? ==> found.value !in p.isles.out && |rest| < |p.inner.idle|
  {
    TakeAliveFinds(p.inner.idle, p.isles.alive);
    var (found, rest, gone) := TakeAlive(p.inner.idle, p.isles.alive);
    if found.Some? {
      assert Places(p.inner.idle, p.isles, found.value) <= 1;
    }
  }

  lemma AttemptKeepsAccounts(max: nat, p: Pool, c: CallId)
    requires Inv(max, p) && Enabled(p, Turn(c))
    ensures var q := Attempt(max, p, c); Accounted(max, q.inner, q.calls, q.isles) && ClosedIsEmpty(q.inner)
  {
    TakenIsNew(p);
    TakeAliveShrinks(p.inner.idle, p.isles.alive);
    hide TakeAlive, IslesPlaced, NoneForgotten, Awake, Slots;
    var found := TakeAlive(p.inner.idle, p.isles.alive).0;
    assert found.Some? ==> |p.isles.out + {found.value}| == |p.isles.out| + 1;
    var q := Attempt(max, p, c);
    assert q.calls == p.calls[c := q.calls[c]];
    assert Slots(q.calls) == Slots(p.calls) + One(HasSlot(q.calls[c].phase)) by {
      CountsOnUpdate(p.calls, c, q.calls[c]);
    }
  }

  lemma AttemptForgetsNone(max: nat, p: Pool, c: CallId)
    requires Inv(max, p) && Enabled(p, Turn(c))
    ensures var q := Attempt(max, p, c); NoneForgotten(max, q.inner, q.calls)
  {
    TakeAliveShrinks(p.inner.idle, p.isles.alive);
    hide TakeAlive, IslesPlaced, NoneForgotten, Awake, Slots;
    var q := Attempt(max, p, c);
    assert q.calls == p.calls[c := q.calls[c]];
    NoneForgottenOnMove(max, p.inner, p.calls, q.inner, c, q.calls[c]);
  }

  lemma IslesOnBuild(isles: Isles, idle: seq<IsleId>)
    requires IslesPlaced(idle, isles)
    ensures isles.made !in isles.out
    ensures IslesPlaced(idle,
              isles.(made := isles.made + 1, alive := isles.alive + {isles.made}, out := isles.out + {isles.made}))
  {
    assert Places(idle, isles, isles.made) == 0;
    var after := isles.(made := isles.made + 1, alive := isles.alive + {isles.made}, out := isles.out + {isles.made});
    forall i: IsleId
      ensures Places(idle, after, i) == One(i < after.made)
    {
      assert Places(idle, isles, i) == One(i < isles.made);
    }
  }

  lemma BuildKeeps(max: nat, p: Pool, c: CallId)
    requires Inv(max, p) && Enabled(p, FactoryOk(c))
    ensures Inv(max, Build(p, c)) && Inv(max, p.(calls := Move(p.calls, c, Failing)))
  {
    IslesOnBuild(p.isles, p.inner.idle);
    hide IslesPlaced;
    var x, y := p.calls[c].(phase := Done(Got(p.isles.made))), p.calls[c].(phase := Failing);
    CountsOnUpdate(p.calls, c, x);
    CountsOnUpdate(p.calls, c, y);
    NoneForgottenOnMove(max, p.inner, p.calls, p.inner, c, x);
    NoneForgottenOnMove(max, p.inner, p.calls, p.inner, c, y);
  }

  /** A slot is freed and `notify_one` called. */
  lemma NoneForgottenOnFree(max: nat, inner: Inner, calls: seq<Call>, idle: seq<IsleId>, who: Option<CallId>)
    requires NoneForgotten(max, inner, calls) && CanNotify(calls, who) && inner.active > 0
    ensures Slots(Notify(calls, who)) == Slots(calls)
    ensures NoneForgotten(max, Inner(idle, SaturatingDec(inner.active), inner.closed), Notify(calls, who))
  {
    if who.Some? {
      CountsOnUpdate(calls, who.value, calls[who.value].(phase := Woken));
    }
  }

  lemma SomeSlot(calls: seq<Call>, c: CallId)
    requires c < |calls| && HasSlot(calls[c].phase)
    ensures Slots(calls) > 0
  {
    CountsOnUpdate(calls, c, calls[c].(phase := Entering));
  }

  lemma GiveUpSlotKeeps(max: nat, p: Pool, c: CallId, e: IsleError, who: Option<CallId>)
    requires Inv(max, p) && Enabled(p, DecActive(c, e, who))
    ensures Inv(max, GiveUpSlot(p, c, e, who)) && p.inner.active > 0
  {
    hide IslesPlaced;
    SomeSlot(p.calls, c);
    NoneForgottenOnFree(max, p.inner, p.calls, p.inner.idle, who);
    var q := GiveUpSlot(p, c, e, who);
    var notified := Notify(p.calls, who);
    CountsOnUpdate(notified, c, notified[c].(phase := Done(Failed(e))));
    NoneForgottenOnMove(max, q.inner, notified, q.inner, c, notified[c].(phase := Done(Failed(e))));
  }

  lemma IslesOnGiveBack(p: Pool, i: IsleId, who: Option<CallId>)
    requires IslesPlaced(p.inner.idle, p.isles) && i in p.isles.out && CanNotify(p.calls, who)
    ensures var q := GiveBack(p, i, who); IslesPlaced(q.inner.idle, q.isles)
  {
    var q := GiveBack(p, i, who);
    assert Places(p.inner.idle, p.isles, i) <= 1;
    forall k: IsleId
      ensures Places(q.inner.idle, q.isles, k) == One(k < q.isles.made)
    {
      assert Places(p.inner.idle, p.isles, k) == One(k < p.isles.made);
    }
  }

  lemma GiveBackKeeps(max: nat, p: Pool, i: IsleId, who: Option<CallId>)
    requires Inv(max, p) && Enabled(p, DropGuard(i, who))
    ensures Inv(max, GiveBack(p, i, who)) && p.inner.active > 0
  {
    IslesOnGiveBack(p, i, who);
    hide IslesPlaced;
    assert p.isles.out == p.isles.out - {i} + {i};
    NoneForgottenOnFree(max, p.inner, p.calls, GiveBack(p, i, who).inner.idle, who);
  }

  lemma IslesOnClose(p: Pool)
    requires IslesPlaced(p.inner.idle, p.isles)
    ensures var q := Close(p); IslesPlaced(q.inner.idle, q.isles)
  {
    var q := Close(p);
    forall k: IsleId
      ensures Places(q.inner.idle, q.isles, k) == One(k < q.isles.made) && (k in p.inner.idle ==> k !in q.isles.dropped)
    {
      assert Places(p.inner.idle, p.isles, k) == One(k < p.isles.made);
    }
  }

  lemma CloseKeeps(max: nat, p: Pool)
    requires Inv(max, p)
    ensures Inv(max, Close(p))
  {
    IslesOnClose(p);
    hide IslesPlaced;
    WakeAllWakes(p.calls);
  }

  lemma StepKeeps(max: nat, p: Pool, e: Event)
    requires Inv(max, p) && Enabled(p, e)
    ensures Inv(max, Apply(max, p, e))
  {
    hide Attempt, Build, GiveUpSlot, GiveBack, Close, CanNotify;
    match e {
      case Enter(way) =>
        hide Places;
        CountsOnAppend(p.calls, Call(way, 0, Entering));
      case Turn(c) =>
        AttemptKeepsIsles(max, p, c);
        AttemptKeepsAccounts(max, p, c);
        AttemptForgetsNone(max, p, c);
      case FactoryOk(c) => BuildKeeps(max, p, c);
      case FactoryErr(c) => BuildKeeps(max, p, c);
      case DecActive(c, err, who) => GiveUpSlotKeeps(max, p, c, err, who);
      case DropGuard(i, who) => GiveBackKeeps(max, p, i, who);
      case Wake(c) =>
        hide Places;
        CountsOnUpdate(p.calls, c, p.calls[c].(phase := Woken));
      case Shutdown => CloseKeeps(max, p);
      case Die(i) => DieKeeps(max, p, i);
      case Tick =>
    }
  }

  lemma DieKeeps(max: nat, p: Pool, i: IsleId)
    requires Inv(max, p)
    ensures Inv(max, p.(isles := p.isles.(alive := p.isles.alive - {i})))
  {
    forall k: IsleId
      ensures Places(p.inner.idle, p.isles.(alive := p.isles.alive - {i}), k) == Places(p.inner.idle, p.isles, k)
    {
    }
  }

  lemma {:induction false} RunKeeps(max: nat, p: Pool, events: seq<Event>, q: Pool)
    requires Inv(max, p) && Leads(max, p, events, q)
    ensures Inv(max, q)
    decreases |events|
  {
    hide Inv, Apply, Enabled;
    if events != [] {
      var mid := RunFrom(max, p, events[..|events| - 1]).value;
      RunKeeps(max, p, events[..|events| - 1], mid);
      StepKeeps(max, mid, events[|events| - 1]);
    }
  }

  lemma ReachableInv(max: nat, p: Pool)
    requires Reachable(max, p)
    ensures Inv(max, p)
  {
    hide Apply, Enabled;
    var events :| Leads(max, Empty(), events, p);
    RunKeeps(max, Empty(), events, p);
  }
}
