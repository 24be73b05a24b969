# rusqlite-isle in Dafny

An *isle* is one SQLite connection owned by one thread. Any number of callers send it jobs through a bounded
channel, may cancel a job or let its deadline expire at any moment, and may shut the isle down, gracefully or at
once. A *pool* hands out isles to any number of threads. This project models both as concurrent protocols and proves
what they promise in every run: every statement below about runs is about all interleavings, all numbers of jobs, fires,
shutdown calls, checkouts and isles, and all closures.

## How it is built

| file | module | what it holds |
|---|---|---|
| errors.dfy | Errors | answers and errors |
| sqlite.dfy | Sqlite | the connection, its interrupt flag, and closures as state machines |
| token.dfy | Tokens | the cancellation token: as a value, and as the class `CancelToken` |
| protocol.dfy | Protocol | the isle as a step system, one event per atomic section of one thread |
| invariant.dfy, preservation.dfy, runs.dfy, evolution.dfy | Invariant, Preservation, Runs, Evolution | the invariant of every reachable state, its proof section by section, and what only grows along a run |
| causes.dfy, isolation.dfy | Causes, Isolation | two more invariants: what a job's fate goes back to, and that its effect is its own |
| guarantees.dfy, interrupts.dfy, lifecycle.dfy, closing.dfy, progress.dfy | Guarantees, Interrupts, Lifecycle, Closing, Progress | what the isle promises |
| limits.dfy | Limits | where the code gives less than its documentation says, and exactly when it gives it |
| world.dfy, thread.dfy, handles.dfy | Worlds, ThreadBody, Handles | the source's functions as programs over shared memory |
| pool_protocol.dfy, pool_invariant.dfy, pool_guarantees.dfy, pool_effects.dfy | PoolProtocol, PoolInvariant, PoolGuarantees, PoolEffects | the pool as a step system, its invariant, its promises, and what each operation does |
| pool.dfy | Pools | the class `IslePool` with the source's methods |

A *state* of the isle is the SQLite thread's next section (`pc`), the channel, the memory the threads share (abort
flag, connection, one token per job), everybody else (callers, calls to `fire`, shutdown calls) and the thread's
record of settled jobs, the *ledger*. An event runs one atomic section. `Reachable` means that some sequence of enabled
events leads there, `Later` that one state follows another in some run.

The imperative classes are proved against the step systems. A method runs one thread's statements; between any two of
its atomic sections it yields, and the others run the next batch of an arbitrary plan, which may be empty. Because a
method is proved for every plan, it is proved for every interleaving of its sections with those of the others. Every
section a method takes is an enabled event of the step system, so whatever is proved of reachable states holds at every
point of every method. Plans are finite; a method whose plan is used up stops where it is and says so in its result, and
then the plan is empty. Ghost counters record how a plan was spent. `Rushed` counts sections less turns: the contracts
bound it, so a method gives as many turns as it takes sections, but for one. `Idled` counts the turns in which a method
could have gone on and did not: the contracts bound it too, so a method that may wait does not idle.

The atomic sections and the source lines they stand for:

| section (`Protocol`) | source |
|---|---|
| `Take`, `Disconnect`, `CheckAbort` | src/thread.rs:140-146, 159 |
| `CheckFired` | src/thread.rs:71-74 |
| `StoreHandle`, `LoadState`, `AttachInterrupt` | src/thread.rs:76, src/token.rs:115-126 |
| `ClosureSection` | src/thread.rs:77 |
| `DetachHandle`, `AfterClosure`, `Respond` | src/thread.rs:78-93, src/token.rs:132-136 |
| `FoldToken`, `FoldAbort` | src/thread.rs:99-109 |
| `BeginHealth`, `HealthCheck` | src/thread.rs:149-155 |
| `DropConnection`, `SignalDone`, `DropReceiver` | src/async_isle.rs:288-291, src/handle.rs:219 |
| `CreateJob`, `MoveCaller`, `WaitResult` | src/handle.rs:250-312, 344-367, src/async_isle.rs:332-427, src/task.rs:38-40, src/async_task.rs:106-114 |
| `CasOn`, `LockFor` | src/token.rs:86-99 |
| `AddCloser`, `AdvanceCloser` | src/handle.rs:319-331, src/async_isle.rs:444-478 |
| event `HintShutdown` | src/handle.rs:370-375 |

## What the model assumes

- **SQLite.** `sqlite3_interrupt` raises a flag; a statement that starts while none is running lowers it; a running
  statement that looks at the raised flag fails with SQLITE_INTERRUPT. One `Step` of a closure is what a statement does
  between two looks at the flag, so a statement that is about to end may still end normally. This is what the SQLite C
  interface documentation says of `sqlite3_interrupt()`.
- **Closures** are arbitrary state machines over the database and their own local state; they may panic, fail, or run
  on for ever. They are *honest*: they finish holding no statement, and report SQLITE_INTERRUPT only after one of
  their statements has met it.
- **Channels** are FIFO and bounded, dropping the receiver discards what is queued, and a dropped response sender reads
  as a disconnect. The capacity is at least 1; a capacity of 0 would be a rendezvous.
- **Threads** interleave; locks are not poisoned; atomics are sequentially consistent.
- **The pool's factory** returns or fails. A condition-variable wait releases the lock and sleeps in one step, may end
  for no reason, and a timed wait takes time.

## Where code and documentation disagree

- `Task::cancel` and `AsyncTask::cancel` (src/task.rs:42-46, src/async_task.rs:79-83) say that the job resolves to
  `Cancelled`. It need not: a fire after the queued-stage check may meet no statement, and then the closure's value is
  delivered. `Limits.OnlyQueuedFiresDecide` proves that exactly the fires before that check rule a value out.
- `Isle::shutdown` (src/handle.rs:314-318) says that after it every submission returns `Closed`. For what a job comes to
  this holds of every returned call: `Closing.NothingRunsAfterShutdown` proves that a job not yet submitted by then never
  runs and can only resolve to `Closed`. For what the submission itself is told it does not: a second, concurrent call
  finds the join handle gone and returns while the thread still runs, and then a `try_call` may be told `QueueFull` or be
  accepted (`Limits.QueueFullAfterReturn`, `Limits.AcceptedAfterReturn` are such runs).
  Over all runs, `Limits.OnlyJoinersReturnAfterEnd` and `Limits.OnlyJoinersTurnAway` prove that finding the join handle still there is exactly what
  guarantees that the thread has ended at the return and that every later submission is told `Closed`. Call by call,
  `Closing.EndedOnReturn` proves that the thread has ended at the return if and only if the handle was there, or the
  thread had ended, when the call came to take it; a later, sequential call is of the second kind.

## Model

| member | source | states |
|---|---|---|
| Guarantees.NoRawInterrupt | src/thread.rs:99-109 | in every run, whatever a caller receives is never a raw SQLITE_INTERRUPT |
| Guarantees.InterruptBecomesReason | src/thread.rs:85-109 | a closure that returned SQLITE_INTERRUPT is answered with the reason on its token if the token has fired by then, with `Closed` if it never fires, and in any case with `Cancelled`, `Timeout` or `Closed` |
| Guarantees.OnlyOwnInterrupts | src/thread.rs:76-78 | every statement cut by SQLITE_INTERRUPT was cut by its own job's fired token or an aborting driver, never by another job's late fire; the health check only by the driver |
| Guarantees.InterruptsOnlyInWindow | src/token.rs:86-136 | any event that interrupts through a token happens while that token's own job lies between the store of its handle and `detach`, after the token has fired; and it raises the connection's flag |
| Guarantees.FireRaisesFlag | src/token.rs:94-98 | the locked section of a fire on a job whose handle is registered leaves the connection's flag raised by that token |
| Guarantees.AttachRaisesFlag | src/token.rs:119-125 | so does the late interrupt that `attach` makes for a token it found fired |
| Interrupts.DriverRaisesFlag | src/async_isle.rs:462-463 | the interrupt of `shutdown_now` leaves the flag raised by the driver |
| Interrupts.FlagStays | src/thread.rs:77 | nobody else lowers a raised flag, and the closure does not while it holds a statement |
| Interrupts.FireCutsStatement | src/token.rs:86-99 | after a fire on a running job, however the run goes on, the next step of a statement held from then on fails with SQLITE_INTERRUPT by that token; the closure goes on where it does after that error, the database is as it was |
| Interrupts.ShutdownNowCutsStatement | src/async_isle.rs:457-463 | the same for the running statement under `shutdown_now`; `InterruptBecomesReason` then gives the answer `Closed` to an unfired job that reports it |
| Guarantees.NoLostInterrupt | src/token.rs:86-126 | a fire whose compare-exchange came before the queued-stage check keeps the closure from ever running; a completed fire on a job that started has an interrupt made while the handle was registered (which raised the flag: the rows above), or came after `detach` |
| Guarantees.RefinesSequentialMachine | src/thread.rs:135-162 | in every run jobs are settled in acceptance order, and all answers and the database between jobs are those of a left fold: discarded and skipped jobs change nothing, a job that ran acts as its closure does alone; only a job one of whose own statements was cut is taken as it came, and then database and answer are its closure's own doing; every fate is deserved (next row) |
| Guarantees.UndisturbedIsFold | src/async_task.rs:117-125 | late fires are harmless: without abort, if every fire on a settled job came after its `detach` (as when a finished job's handle is dropped), answers and database are those of the accepted closures run one after the other, alone |
| Guarantees.UndisturbedJobsRun | src/thread.rs:71-94 | a job is discarded only under abort; skipped only for a fire on it that came before its check, and no job with such a fire runs; it counts as interrupted if and only if one of its own statements failed with SQLITE_INTERRUPT, which takes a fire on it before its `detach`, or abort |
| Guarantees.OnlyEarlyFiresStop | src/thread.rs:71-74 | the queued-stage check stops a job if and only if a fire on it is on record by then |
| Guarantees.UninterruptedIsFold | src/thread.rs:70-94 | without abort, and with no settled job fired before its check or cut, answers and database are those of the accepted closures run one after the other |
| Isolation.EffectsAreIsolated | src/thread.rs:76-78 | a job that ran, interrupted or not, has left the database and has an answer that come from its closure acting alone on what its predecessor left, with nothing but own statements cut |
| Sqlite.UnderNoCuts | src/thread.rs:77 | a closure with no statement cut acts exactly as it does undisturbed |
| Causes.StepEarned | src/token.rs:86-136 | every section keeps: a fired token has a fire on record, every interrupt goes back to a fire before `detach`, and exactly the jobs with a cut statement count as interrupted |
| Sqlite.AloneIsAFunction | src/thread.rs:77 | a closure running alone has at most one result and final database, so the fold is well defined |
| Runs.StepKeeps | src/thread.rs:70-162 | every section of every thread keeps the invariant |
| Runs.ReachableInv | src/thread.rs:135-162 | the invariant holds in every reachable state |
| Evolution.LaterEvolves | src/thread.rs:135-162 | along every run the ledger, the accepted requests, reasons, interrupts and finished callers only grow, and after abort the chances of a closure to start only shrink |
| Lifecycle.PlaceOf | src/thread.rs:140-160 | the position at which a job was accepted alone decides whether it is queued, in hand, settled or dropped unread |
| Lifecycle.ExactlyOnce | src/thread.rs:70-94 | every accepted job is in exactly one of queued, in hand, settled, dropped unread; no job is settled twice |
| Lifecycle.LedgerIsSettled | src/task.rs:38-40 | what a waiting caller reads for a settled job is that job's one answer |
| Lifecycle.ResultIsFinal | src/task.rs:38-40 | a result, once there, never changes in any continuation |
| Lifecycle.AllResolvedAtEnd | src/async_task.rs:106-114 | once the thread has ended, every accepted job has a result: its answer, or `Closed` if it was never read |
| Lifecycle.DrainsUpToShutdown | src/thread.rs:140-160 | with the first `Shutdown` accepted at position k the loop dequeues at most k + 1 requests and has left by then, settles those ahead in order, all of them unless a health check failed, and never touches one behind it |
| Progress.ShutdownNeverHangs | src/async_isle.rs:289-290 | a shutdown call that has not returned can take its next section, or the thread can go on: no deadlock |
| Progress.CallersNeverHang | src/handle.rs:247-257 | an accepted job has its result, a waiting submission can be accepted or refused, or the thread can go on |
| Progress.ShutdownIsBounded | src/thread.rs:140-160 | with the first `Shutdown` at position k, every continuation holds at most 17 (k + 1 - dequeued) plus the current rank sections of the thread, actions of closures apart, whatever the others do; and until its end the thread can always go on |
| Progress.DisconnectIsBounded | src/thread.rs:140 | the same once every sender is gone: what was accepted is worked off in boundedly many sections, closures apart, and until its end the thread can always go on |
| Lifecycle.EndedTurnsAway | src/handle.rs:357-367 | after the thread's end nothing is accepted, and a pending submission is told `Closed` and nothing else |
| Lifecycle.ShutdownCompletes | src/handle.rs:319-331 | a shutdown call that took the join handle returns only after the thread's end: every accepted job is resolved, and every later submission is told `Closed` and nothing else |
| Closing.NothingReadAfterShutdown | src/thread.rs:140-160 | once any shutdown call has sent its message, a job not submitted by then is never taken from the channel |
| Closing.NothingRunsAfterShutdown | src/handle.rs:314-331 | once any shutdown call has sent its message, so also when it has returned without waiting, a job not submitted by then never runs and can only resolve to `Closed` |
| Closing.SubmissionIsTold | src/handle.rs:288-299 | a submission that does not wait is told `Closed` if and only if the thread has ended; before that, `QueueFull` exactly at capacity, else it is accepted |
| Closing.JoinHeldDecides | src/handle.rs:321-330 | a call that finds the join handle there returns only after the thread's end; one that finds it gone returns at once |
| Lifecycle.AbortStopsStarts | src/thread.rs:143-146 | after the abort flag is stored at most one more closure starts, that of the job whose abort check came first |
| Lifecycle.AbortDiscardsTheRest | src/async_isle.rs:451-467 | a job still queued when the flag is stored, or accepted later, never starts and can only resolve to `Closed` |
| Lifecycle.ReasonIsFinal | src/token.rs:86-93 | a fired token keeps its reason through every run, whoever fires it again |
| Lifecycle.AnswersNameTheReason | src/token.rs:102-108 | a `Cancelled` or `Timeout` answer agrees with the token; `call` returns neither, `call_timeout` never `Cancelled`, nothing but `call_timeout` returns `Timeout` |
| Lifecycle.PanicsAreContained | src/thread.rs:149-155 | a job is in hand only if every earlier panic was followed by a passed health check; no token holds a handle during the check, so only an aborting driver can make it fail by interrupt; a failed check ends the loop |
| Lifecycle.QueueIsBounded | src/handle.rs:184 | in every run the queue never exceeds its capacity and is exactly what was accepted and not yet taken, in order |
| Lifecycle.RejectedNeverRuns | src/handle.rs:288-299 | a job refused with `QueueFull` or `Closed` is never accepted and never runs, however the run goes on |
| Limits.QueuedFireStopsJob | src/token.rs:11-15 | a job fired before its check answers with the token's reason, or `Closed` under abort or if it was never read |
| Limits.OnlyQueuedFiresDecide | src/task.rs:42-49 | a fire rules out an answer with a value if and only if it came before the queued-stage check; runs for each later stage show the failure |
| Limits.EndlessIsCancelled | src/async_task.rs:42-56 | a run in which a statement that would run for ever is cut by a cancel, and its job is answered `Cancelled` |
| Limits.QueueFullAfterReturn | src/handle.rs:314-331 | a run in which a `try_call` after a returned `shutdown` is told `QueueFull` |
| Limits.AcceptedAfterReturn | src/handle.rs:314-331 | a run in which a `try_call` after a returned `shutdown` is accepted |
| Limits.SecondCallReturnsEarly | src/handle.rs:319-331 | a second concurrent `shutdown` may return while the thread runs, and submissions may then be told something else than `Closed` |
| Limits.OnlyJoinersReturnAfterEnd | src/handle.rs:319-331 | over all runs: that the join handle was there when the call came to take it is necessary and sufficient to guarantee that at its return the thread has ended |
| Limits.OnlyJoinersTurnAway | src/handle.rs:314-331 | the same condition is necessary and sufficient to guarantee that every submission after the return is told `Closed` |
| Closing.EndedOnReturn | src/handle.rs:321-330 | per call: at its return the thread has ended if and only if the handle was there, or the thread had ended, when the call came to take it |
| Tokens.FirstReasonWins | src/token.rs:86-93 | whatever sections any threads run in any order, the reason of the first compare-exchange is the one every later reader sees |
| Tokens.CancelToken.constructor | src/token.rs:50-57 | a new token is unfired and has no handle |
| Tokens.CancelToken.IsCancelled | src/token.rs:74-76 | true exactly if the reason is cancellation, not expiry |
| Tokens.FiredNamesTheFirst | src/token.rs:102-108 | after any sections of any threads, `fired` is none exactly if nobody has fired, and else the error of the first reason |
| Tokens.CancelToken.Fired | src/token.rs:102-108 | none exactly while the token is unfired; otherwise `Cancelled` if `is_cancelled` holds, `Timeout` if not |
| Tokens.CancelToken.Cancel | src/token.rs:69-71 | fires with the reason cancelled, against every interleaving |
| Tokens.CancelToken.ExpireDeadline | src/token.rs:82-84 | fires with the reason timeout, against every interleaving |
| Tokens.CancelToken.Fire | src/token.rs:86-99 | the state is set first and the handle read after whatever others did; the token has a reason, and the interrupt goes to the handle that is there at that second moment, which is the last one stored |
| Tokens.CancelToken.Attach | src/token.rs:115-126 | the handle is stored first and the state read afterwards; unless others store or clear, the handle is this connection's; a token found fired is interrupted through the handle that is there then |
| Tokens.CancelToken.Detach | src/token.rs:132-136 | the handle is gone, reason and past interrupts stay |
| ThreadBody.NormalizeError | src/thread.rs:99-109 | SQLITE_INTERRUPT becomes `Cancelled`, `Timeout` or `Closed` and nothing else; every other error stays as it is |
| ThreadBody.Attach | src/token.rs:115-126 | on the shared memory, whatever the others do: when the closure starts the handle is registered, and if the token has fired by then the connection's flag has been raised by it |
| ThreadBody.RunClosure | src/thread.rs:77 | returns exactly the outcome the closure finished with |
| ThreadBody.Deliver | src/thread.rs:78-93 | one new ledger entry; a value or panic is delivered as it is; a panic is reported to the loop, and only a panic |
| ThreadBody.RunJob | src/thread.rs:59-95 | the wrapper gives its job exactly one answer, never a raw interrupt, and says `Panicked` exactly if that answer is a panic |
| ThreadBody.EndSelect1 | src/thread.rs:149-155 | the health check passes exactly if the connection is usable and nobody interrupted it; a failed one leaves the loop |
| ThreadBody.Serve | src/thread.rs:142-157 | one dequeued job: dropped under abort, run otherwise, and after a panic the loop goes on only if the connection was usable |
| ThreadBody.RunLoop | src/thread.rs:135-162 | returns only by shutdown, disconnect or a failed health check, and takes a section in every turn that leaves it one; the ledger only grows; every passed check found the connection usable, a failed one found it broken or was interrupted under abort |
| ThreadBody.RunThread | src/async_isle.rs:261-291 | ends with the connection closed, the receiver dropped and the channel empty |
| Handles.MakeJobTask | src/handle.rs:344-355 | a fresh job with an unfired token of its own |
| Handles.Send | src/handle.rs:357-367 | waits only while the channel is full; the job is accepted, or refused with `Closed` because the receiver is gone |
| Handles.TrySend | src/handle.rs:288-299 | `Closed`, `QueueFull` or accepted, decided by the channel alone; accepting appends exactly this job, refusing changes nothing but the caller |
| Handles.Poll | src/async_task.rs:106-114 | the job's one result if there is one, with no other effect |
| Handles.Wait | src/task.rs:38-40 | waits only while there is no result, and returns the job's one result |
| Handles.CallJob | src/handle.rs:250-257 | an accepted job's one result, else `Closed`; never `Cancelled`, `Timeout` or a raw interrupt |
| Handles.RecvTimeout | src/handle.rs:271-273 | waits for at most `patience + 1` turns, whatever comes of it; takes a result that comes in them, and reports a timeout only after all of them, with no result there |
| Handles.CallWithTimeout | src/handle.rs:265-281 | an accepted job's one result, else `Closed`; never `Cancelled`; a call that waited for more than `patience + 1` turns for its result has fired the token, both sections of the fire, and only such a call says it was not in time |
| Handles.ExpireAndWait | src/handle.rs:273-278 | after the deadline: the token is fired, both sections, and then the job's one result is returned |
| Handles.FireToken | src/token.rs:86-99 | on the shared memory, whatever the others do in between: the token has a reason, both sections of the fire are done, and if the job is in its window then the connection's flag is raised by the token |
| Handles.Expire | src/token.rs:82-84 | the same for the deadline of a waiting `call_timeout` |
| Handles.DropTask | src/async_task.rs:97-125 | dropping a handle makes a new fire on the token, both sections of it, which raises the flag if the job is in its window; a detached one leaves token and connection alone |
| Handles.DropIsle | src/handle.rs:370-375 | one attempt: `Shutdown` is the last message if there is room, else nothing changes |
| Handles.Advance | src/async_isle.rs:461-478 | each section of a shutdown call does what it is for: the abort flag is set, then the connection's flag raised by the driver, then the message sent, and so on; it waits only while it must |
| Handles.TakeAndJoin | src/handle.rs:321-330 | the call that got the handle returns only when the thread has ended and every accepted job is resolved |
| Handles.ShutdownSync | src/handle.rs:319-331 | the same for `Isle::shutdown`, with any number of concurrent calls; the result tells whether this call waited |
| Handles.Finish | src/async_isle.rs:469-478 | done signal, then join: the receiver is dropped and every accepted job is resolved |
| Handles.ShutdownAsync | src/async_isle.rs:444-449 | the same for the driver's graceful shutdown |
| Handles.ShutdownNow | src/async_isle.rs:461-467 | the same for the immediate shutdown; the abort flag is set before the call is past its first section, so before its interrupt |
| PoolGuarantees.NoLostWakeup | src/pool.rs:129-145 | while a checkout sleeps un-notified the pool is open and at least as many checkouts are awake on their way as there are free slots |
| PoolGuarantees.FreeSlotServes | src/pool.rs:222-244 | while the pool is open and a slot is free, every turn of every checkout gets an isle or a slot to build one in; none waits, gives up or times out |
| PoolGuarantees.FreeSlotFindsTaker | src/pool.rs:222-260 | a free slot and a sleeping checkout: some awake checkout can take its turn, and gets an isle or a slot to build one in |
| PoolGuarantees.ActiveIsExact | src/pool.rs:226-243 | `active` is live guards plus calls with a slot but no guard yet, `active + idle` never exceeds `max_size`, no decrement saturates |
| PoolGuarantees.IslesAreConserved | src/pool.rs:208-270 | every isle ever made is in exactly one of idle, guarded, shut down, dropped dead |
| PoolGuarantees.NothingLeftBehind | src/pool.rs:208-218 | a closed pool without guards and running checkouts has `active` 0 and has shut down or dropped every isle |
| PoolGuarantees.HandedOutOnce | src/pool.rs:222-270 | a checkout hands out an isle no guard holds: a live one from the idle list, or a new one |
| PoolGuarantees.RefusalIsFresh | src/pool.rs:170-192 | `Timeout` only after the deadline and a fresh attempt with no live idle isle and every slot taken; `None` under the same condition |
| PoolGuarantees.ClosedIsFinal | src/pool.rs:132-142 | once closed: closed for good, nothing idle, nobody asleep, every turn ends with `Closed` and changes nothing but that call |
| PoolGuarantees.ResultIsFinal | src/pool.rs:129-145 | a checkout's result never changes |
| PoolEffects.TurnDecides | src/pool.rs:129-192 | a turn is refused if the pool is closed; else it takes the last live idle isle; else builds if a slot is free; else `checkout` waits, `try_checkout` gives up, `checkout_timeout` waits exactly while its deadline is ahead |
| PoolEffects.ClosedMeansClosed | src/pool.rs:132-134 | a turn is told `Closed` if and only if the pool is closed |
| PoolEffects.DeadlineIsFixed | src/pool.rs:170-182 | in every continuation the deadline is the timeout after the first lock, and no turn at or past it waits |
| PoolEffects.IsleMoves | src/pool.rs:208-270 | where an isle is after each event: a dropped guard's isle goes back to idle if alive and the pool open, is shut down if the pool is closed, is dropped if dead; shutdown shuts down what is idle; a turn takes an idle isle only to hand it out, or dead to drop it |
| PoolEffects.AliveUntilEnded | src/pool.rs:208-257 | an isle is alive from the factory until its thread dies or it is shut down, idle at shutdown or given back after it: nothing else ends it |
| PoolEffects.ReturnedIsReused | src/pool.rs:247-270 | a live isle given back to an open pool is last in the idle list, and the very next turn hands it out |
| PoolInvariant.StepKeeps | src/pool.rs:129-285 | every event keeps placement, accounting, the wakeup invariant and emptiness after closing |
| PoolInvariant.TakeAliveFinds | src/pool.rs:263-270 | the search finds the last live isle and drops exactly the dead ones behind it, all of them if none is live |
| PoolInvariant.WakeAllWakes | src/pool.rs:217 | `notify_all` wakes exactly the sleepers |
| Pools.IslePool.constructor | src/pool.rs:105-115 | a new pool is open and empty |
| Pools.IslePool.New | src/pool.rs:99-116 | refuses exactly the size zero |
| Pools.IslePool.TakeAliveIsle | src/pool.rs:263-270 | the pop loop computes `TakeAlive` of the idle list |
| Pools.IslePool.TryAcquire | src/pool.rs:222-244 | the locked part is one `Attempt` of the step system; needing to wait means open, every slot taken, nothing idle |
| Pools.IslePool.NotifyOne | src/pool.rs:259 | wakes one sleeper if there is one |
| Pools.IslePool.ReturnIsle | src/pool.rs:247-260 | a returned guard frees exactly one slot; its isle is shut down if the pool is closed, appended to the idle list if alive, else dropped; one sleeper is woken |
| Pools.IslePool.DecrementActive | src/pool.rs:278-285 | a failed factory call frees exactly one slot and wakes one sleeper |
| Pools.IslePool.ShutDown | src/pool.rs:208-218 | closed, exactly the idle isles shut down, nobody asleep, guards and `active` untouched |
| Pools.IslePool.CallFactory | src/pool.rs:228-239 | outside the lock, whatever the others do: a new guarded isle, or the factory's error with the slot given back |
| Pools.IslePool.Checkout | src/pool.rs:129-145 | an isle, `Closed` only if the pool is closed, or the factory's error, whatever barging and spurious wakeups there are; it waits only while asleep |
| Pools.IslePool.TryCheckout | src/pool.rs:155-164 | never waits; reports nothing free only if every slot is taken, and `Closed` only if the pool is closed |
| Pools.IslePool.CheckoutTimeout | src/pool.rs:170-192 | always returns, since every wait takes time; `Timeout` only at or after the deadline with every slot taken, `Closed` only if the pool is closed (unless either is the factory's own error) |
| Pools.IslePool.WaitTimeout | src/pool.rs:183-186 | the call is awake again, time has passed, its deadline is unchanged |

## Left out

- Opening databases, pragmas, busy timeouts, open flags, builder setters and failures during start-up: configuration and I/O.
- SQL, transactions and rollback: a job is an abstract transformer of an abstract database value.
- The insides of channels, one-shots, mutexes, condition variables and of `JoinHandle`: see the assumptions above. A thread that panics outside `catch_unwind`, and so a failing join, does not occur.
- Weak memory: threads interleave. `Acquire` and `Release` are not told apart from stronger orders.
- Whether and when a fired job stops: SQLite decides that. No liveness is claimed beyond freedom from deadlock and the bounds on the thread's sections and on timed waits.
- Fairness among blocked senders and among sleeping checkouts.
- Panic messages, error display, `Debug`, thread names.
- `Task::try_recv`, which shows `None` for a discarded job; `is_alive`, `active` and `idle`, which only read.
- Async `spawn_call`, which is `try_call` with its error put into a handle that is already resolved.
- Factories and destructors that panic, poisoned locks, and closures that use the isle or pool they run on.
- A cancelled shutdown future: a shutdown call of the async driver that is dropped half-way stays where it is.
- Handles.CallWithTimeout: time is counted in turns of the waiting caller, because the model of the isle has no clock.
- Pools.IslePool.CheckoutTimeout: the clock is read once per turn under the lock, where the source reads it twice; the wait itself is what takes time.
- Pools.IslePool.NotifyOne: the method wakes the first sleeper; the step system and the contract allow any.
- Pools.IslePool.CallFactory: whether the factory fails, and with which error, is a parameter, since the factory is user code.
