/** The isle pool (src/pool.rs) as a monitor: a mutex around `idle`, `active` and `closed`, and a condition variable.

    One event is one stretch of code under the lock, or one thing that happens outside it.  Checkout calls and
    isles are numbered in the order in which they appear and are not bounded. */
module PoolProtocol {
  import opened Errors

  type IsleId = nat
  type CallId = nat

  /** `checkout`, `try_checkout`, and `checkout_timeout`. */
  datatype Way = Block | Try | Timed(timeout: nat)

  datatype CheckoutResult = Got(isle: IsleId) | NoneFree | Failed(e: IsleError)

  /** What the mutex protects. */
  datatype Inner = Inner(idle: seq<IsleId>, active: nat, closed: bool)

  /** Where a checkout call is: on its way to its first lock; asleep on the condition variable; awake again but
      without the lock, because it was notified or by itself; in the factory, outside the lock; in `dec_active`,
      before the lock; or returned. */
  datatype Phase = Entering | Waiting | Woken | Building | Failing | Done(r: CheckoutResult)

  datatype Call = Call(way: Way, deadline: nat, phase: Phase)

  /** Where the isles are.  `out` are held by a guard; `alive` have a running thread. */
  datatype Isles = Isles(made: nat, alive: set<IsleId>, out: set<IsleId>, shut: set<IsleId>, dropped: set<IsleId>)

  datatype Pool = Pool(inner: Inner, calls: seq<Call>, isles: Isles, now: nat)

  function Empty(): Pool {
    Pool(Inner([], 0, false), [], Isles(0, {}, {}, {}, {}), 0)
  }

  function Members(s: seq<IsleId>): set<IsleId> {
    set i | i in s
  }

  /** `usize::saturating_sub(1)`. */
  function SaturatingDec(n: nat): nat {
    if n == 0 then 0 else n - 1
  }

  /** `take_alive_isle`: pop from the end until a live isle turns up; what is popped before it is dropped. */
  function TakeAlive(idle: seq<IsleId>, alive: set<IsleId>): (r: (Option<IsleId>, seq<IsleId>, set<IsleId>)) {
    if idle == [] then (None, [], {})
    else
      var last := idle[|idle| - 1];
      if last in alive then (Some(last), idle[..|idle| - 1], {})
      else
        var (found, rest, gone) := TakeAlive(idle[..|idle| - 1], alive);
        (found, rest, gone + {last})
  }

  predicate Asleep(calls: seq<Call>, c: CallId) {
    c < |calls| && calls[c].phase.Waiting?
  }

  /** `notify_one` wakes `who`, some waiting call, if there is one. */
  predicate CanNotify(calls: seq<Call>, who: Option<CallId>) {
    if who.Some? then Asleep(calls, who.value) else forall c :: 0 <= c < |calls| ==> !calls[c].phase.Waiting?
  }

  function Move(calls: seq<Call>, c: CallId, to: Phase): seq<Call>
    requires c < |calls|
  {
    calls[c := calls[c].(phase := to)]
  }

  function Notify(calls: seq<Call>, who: Option<CallId>): seq<Call>
    requires CanNotify(calls, who)
  {
    if who.Some? then Move(calls, who.value, Woken) else calls
  }

  /** `notify_all`. */
  function WakeAll(calls: seq<Call>): (r: seq<Call>)
    ensures |r| == |calls|
  {
    if calls == [] then []
    else
      var last := calls[|calls| - 1];
      WakeAll(calls[..|calls| - 1]) + [if last.phase.Waiting? then last.(phase := Woken) else last]
  }

  /** Nothing is free: wait, or give up. */
  function NeedWait(call: Call, now: nat): Phase {
    match call.way
    case Block => Waiting
    case Try => Done(NoneFree)
    case Timed(_) => if now < call.deadline then Waiting else Done(Failed(Timeout))
  }

  /** `checkout_timeout` computes its deadline when it first gets the lock. */
  function WithDeadline(call: Call, now: nat): Call {
    if call.phase.Entering? && call.way.Timed? then call.(deadline := now + call.way.timeout) else call
  }

  /** One turn of a checkout loop, under the lock. */
  function Attempt(max: nat, p: Pool, c: CallId): Pool
    requires c < |p.calls|
  {
    var calls := p.calls[c := WithDeadline(p.calls[c], p.now)];
    if p.inner.closed then p.(calls := Move(calls, c, Done(Failed(Closed))))
    else
      var (found, rest, gone) := TakeAlive(p.inner.idle, p.isles.alive);
      var isles := p.isles.(dropped := p.isles.dropped + gone);
      if found.Some? then
        Pool(Inner(rest, p.inner.active + 1, false), Move(calls, c, Done(Got(found.value))),
             isles.(out := isles.out + {found.value}), p.now)
      else if p.inner.active + |rest| < max then
        Pool(Inner(rest, p.inner.active + 1, false), Move(calls, c, Building), isles, p.now)
      else Pool(Inner(rest, p.inner.active, false), Move(calls, c, NeedWait(calls[c], p.now)), isles, p.now)
  }

  /** The factory returns an isle: no lock is taken, and a pool closed meanwhile does not matter. */
  function Build(p: Pool, c: CallId): Pool
    requires c < |p.calls|
  {
    var i := p.isles.made;
    p.(calls := Move(p.calls, c, Done(Got(i))),
       isles := p.isles.(made := i + 1, alive := p.isles.alive + {i}, out := p.isles.out + {i}))
  }

  /** `dec_active` after a failed factory call. */
  function GiveUpSlot(p: Pool, c: CallId, e: IsleError, who: Option<CallId>): Pool
    requires c < |p.calls| && p.calls[c].phase.Failing? && CanNotify(p.calls, who)
  {
    p.(inner := p.inner.(active := SaturatingDec(p.inner.active)),
       calls := Move(Notify(p.calls, who), c, Done(Failed(e))))
  }

  /** `return_isle`, when a guard is dropped. */
  function GiveBack(p: Pool, i: IsleId, who: Option<CallId>): Pool
    requires CanNotify(p.calls, who)
  {
    var inner := p.inner.(active := SaturatingDec(p.inner.active));
    var isles := p.isles.(out := p.isles.out - {i});
    var calls := Notify(p.calls, who);
    if p.inner.closed then Pool(inner, calls, isles.(shut := isles.shut + {i}, alive := isles.alive - {i}), p.now)
    else if i in p.isles.alive then Pool(inner.(idle := inner.idle + [i]), calls, isles, p.now)
    else Pool(inner, calls, isles.(dropped := isles.dropped + {i}), p.now)
  }

  /** `shutdown`: close, shut the idle isles down, `notify_all`. */
  function Close(p: Pool): Pool {
    var gone := Members(p.inner.idle);
    Pool(Inner([], p.inner.active, true), WakeAll(p.calls),
         p.isles.(shut := p.isles.shut + gone, alive := p.isles.alive - gone), p.now)
  }

  datatype Event =
    | Enter(way: Way)
    | Turn(call: CallId)
    | FactoryOk(call: CallId)
    | FactoryErr(call: CallId)
    | DecActive(call: CallId, e: IsleError, who: Option<CallId>)
    | DropGuard(isle: IsleId, who: Option<CallId>)
    | Wake(call: CallId)      // spurious, or the wait timed out
    | Shutdown
    | Die(isle: IsleId)
    | Tick

  predicate Enabled(p: Pool, e: Event) {
    match e
    case Turn(c) => c < |p.calls| && (p.calls[c].phase.Entering? || p.calls[c].phase.Woken?)
    case FactoryOk(c) => c < |p.calls| && p.calls[c].phase.Building?
    case FactoryErr(c) => c < |p.calls| && p.calls[c].phase.Building?
    case DecActive(c, _, who) => c < |p.calls| && p.calls[c].phase.Failing? && CanNotify(p.calls, who)
    case DropGuard(i, who) => i in p.isles.out && CanNotify(p.calls, who)
    case Wake(c) => Asleep(p.calls, c)
    case _ => true
  }

  function Apply(max: nat, p: Pool, e: Event): Pool
    requires Enabled(p, e)
  {
    match e
    case Enter(way) => p.(calls := p.calls + [Call(way, 0, Entering)])
    case Turn(c) => Attempt(max, p, c)
    case FactoryOk(c) => Build(p, c)
    case FactoryErr(c) => p.(calls := Move(p.calls, c, Failing))
    case DecActive(c, err, who) => GiveUpSlot(p, c, err, who)
    case DropGuard(i, who) => GiveBack(p, i, who)
    case Wake(c) => p.(calls := Move(p.calls, c, Woken))
    case Shutdown => Close(p)
    case Die(i) => p.(isles := p.isles.(alive := p.isles.alive - {i}))
    case Tick => p.(now := p.now + 1)
  }

  function RunFrom(max: nat, p: Pool, events: seq<Event>): Option<Pool> {
    if events == [] then Some(p)
    else
      match RunFrom(max, p, events[..|events| - 1])
      case None => None
      case Some(q) =>
        var e := events[|events| - 1];
        if Enabled(q, e) then Some(Apply(max, q, e)) else None
  }

  ghost predicate Leads(max: nat, p: Pool, events: seq<Event>, q: Pool) {
    RunFrom(max, p, events) == Some(q)
  }

  ghost predicate Later(max: nat, p: Pool, q: Pool) {
    exists events :: Leads(max, p, events, q)
  }

  ghost predicate Reachable(max: nat, p: Pool) {
    Later(max, Empty(), p)
  }
}
