# karmaio: protocols and data structures, verified

karmaio is a single-threaded completion runtime. This project models its delicate parts in Dafny and
proves what they promise, over every run and every input. `dafny verify dfyconfig.toml` checks all of it.

| file | what it models |
|---|---|
| `basics.dfy` | what several modules share |
| `task_word.dfy` | the packed task state word: bit layout, every transition, the compare-exchange loop |
| `task_cell.dfy`, `task_runs.dfy` | a task shared by pollers, wakers, aborts, a join handle and the scheduler: its steps, and what holds over runs |
| `half_lock.dfy` | the reader/writer lock that signal handlers read through |
| `signal_listener.dfy` | the delivery counter and waker of one signal listener |
| `slab.dfy`, `op_table.dfy` | free-list slot storage, and generational operation keys on top of it |
| `scopes.dfy` | cancellation scopes and the two indexes between scopes and operations |
| `uring_oneshot.dfy`, `uring_multishot.dfy` | the lives of io_uring operations and streams |
| `uring_backend.dfy`, `driver.dfy` | the io_uring backend and the driver that ties it to the scopes |
| `uring_turns.dfy` | whole runs of the backend, with turns of the completion queue that may fail |
| `kqueue.dfy`, `kqueue_runs.dfy` | readiness registrations and blocking jobs of the kqueue backend, and whole runs of it |
| `buf_pool.dfy` | the provided-buffer ring |
| `blocking_pool.dfy` | the blocking thread pool |
| `slice_views.dfy` | owned slices and vectored cursors |

A concurrent protocol is a state machine: a state with the shared words and the position of every
party, an event per atomic step, and an inductive invariant; results are stated for an arbitrary finite
run, and where they say what happened earlier they say it of the run's events. Steps interleave in any order (sequential consistency). Parties that have no identity are counted.
State that the source updates in place is a class whose methods are proved against functions on values;
the lemmas are about those functions. Whatever the environment decides (whether the ring takes an entry,
whether a thread starts, what the kernel answers) is an argument or an event.

Where the code and its comments differ, the code is modelled:

- `slab.rs:27` speaks of the smallest recycled key; the free list is last-in first-out
  (`Slabs.Slab.TryRemove`, `Slabs.Slab.Insert`).
- `half_lock.rs:162-163` expects one counter to be zero when a barrier starts;
  `HalfLock.BarrierCanStartWithBothSlotsBusy` gives a run where neither is. The lock is safe all the same.

Properties that do not hold without a condition, with the condition that is exact:

- A turn of the completion queue that fails drops the wakes and cleanups it deferred. It fails exactly when
  the ring refuses the cancel of a stream that overflowed in it, or the read that re-arms the wakeup
  (`UringBackend.Fails`). What is lost, and only then: `UringBackend.CompleteHandedOutIff`,
  `UringBackend.WakeHandedOutIff` for one turn, `UringTurns.CompleteLostIff`, `UringTurns.WakeLostIff`,
  `UringTurns.StreamWakeLostIff` over all runs. Inputs that lose something:
  `UringBackend.FullRingLosesACompletion`, `UringTurns.RefusedRearmLosesAComplete`,
  `UringTurns.RefusedRearmStrandsAStream`.
- A vectored view made over initialized bytes does not read back what is written through it unless every
  component before its cursor is full, because the writing side counts capacities:
  `SliceViews.InitializedViewReadsBackIff`, `SliceViews.InitializedViewLosesAByte`. A view made over
  capacities always does: `SliceViews.AlignedViewReadsBack`, `SliceViews.CapacityViewIsAligned`.
- Flattening nested slices panics exactly when an offset overflows: `SliceViews.FlattenSucceedsIff`,
  `SliceViews.FlattenCanOverflow`.
- Setting the length of a view or a collection initializes exactly that many bytes unless a fixed-size buffer
  reaches further: `SliceViews.SetLenExposes`, `SliceViews.DistributeExposes`,
  `SliceViews.ArrayStaysInitialized`; everything initialized was written exactly when the bytes before the
  cursor were: `SliceViews.SkippedBytesMustBeWritten`, `SliceViews.SpareByteIsExposed`.
- Taking or recycling a buffer id is safe exactly when that buffer is not in the ring:
  `BufPool.TakeIsSafeIff`, `BufPool.RecycleIsSafeIff`, `BufPool.RingBufferTakenTwice`.
- The blocking pool's counters have added up all along exactly when no dispatch found an idle worker with the
  32-bit notification counter full: `BlockingPool.ExactIffNeverSaturates`,
  `BlockingPool.FullCounterLosesOne`. A cap of at most 2^32 - 1 threads rules that out:
  `BlockingPool.BoundedCapNeverSaturates`.

## Model

| member | source | states |
|---|---|---|
| TaskWord.FlagOp | karmaio/src/task/state.rs:485-540 | setting or clearing one flag bit of any word changes that flag of the decoded word and nothing else |
| TaskWord.CountOp | karmaio/src/task/state.rs:542-555 | adding or subtracting one reference changes the count and no flag |
| TaskWord.WordBounds | karmaio/src/task/state.rs:36-56 | the two width checks on the word are bounds on the reference count |
| TaskWord.UnpackInjective | karmaio/src/task/state.rs:36-56 | the six flags and the count determine the word |
| TaskWord.ToRunningRefines | karmaio/src/task/state.rs:117-147 | the closure on the raw word does to flags and count what the transition on the decoded word says, panics included |
| TaskWord.ToIdleRefines | karmaio/src/task/state.rs:161-191 | the same for going idle after a pending poll |
| TaskWord.ToNotifiedByValRefines | karmaio/src/task/state.rs:210-245 | the same for a wake that consumes a reference |
| TaskWord.ToNotifiedByRefRefines | karmaio/src/task/state.rs:248-273 | the same for a wake by reference |
| TaskWord.ToCancelledRefines | karmaio/src/task/state.rs:276-292 | the same for an abort |
| TaskWord.JoinWakerOpsRefine | karmaio/src/task/state.rs:321-414 | the same for dropping the join handle and for setting and unsetting the join waker |
| TaskWord.State.FetchUpdate | karmaio/src/task/state.rs:426-446 | whatever other threads write meanwhile, the loop applies its closure to the value the word held at one instant and replaces exactly that value |
| TaskWord.State.TransitionToComplete | karmaio/src/task/state.rs:194-203 | flips RUNNING and COMPLETE only; its assertions hold exactly on a running, incomplete word |
| TaskWord.State.UnsetWakerAfterComplete | karmaio/src/task/state.rs:419-424 | clears JOIN_WAKER only; its assertions hold exactly on a complete word with that bit |
| TaskWord.State.RefInc | karmaio/src/task/state.rs:448-469 | one more reference and no flag changed, or abort exactly beyond the limit |
| TaskWord.State.RefDec | karmaio/src/task/state.rs:471-475 | one reference less and no flag changed; the last one is reported exactly once |
| TaskWord.State.DropJoinHandleFast | karmaio/src/task/state.rs:296-315 | succeeds only on the untouched initial word, then gives up the interest bit and one reference |
| TaskRuns.NoRaceNoFailedAssertion | karmaio/src/task/vtable.rs:139-381 | in every reachable state no access to the stage or the join-waker cell overlaps a write by another party, and no assertion or unreachable arm is hit |
| TaskRuns.ReferencesExact | karmaio/src/task/raw.rs:94-143 | the packed count is the number of live references; the task is freed once, exactly when that number is zero, and takes no step afterwards |
| TaskRuns.TokenStartsThePoll | karmaio/src/task/vtable.rs:67-114 | at most one run-queue token exists and it always finds the task idle and notified, so polls never overlap; running it starts a poll, or cancellation exactly if the task was aborted |
| TaskRuns.NoLostWakeup | karmaio/src/task/state.rs:117-292 | if the scheduler discarded no token, an incomplete task that was woken since a token last ran, or aborted, is queued, or running and marked |
| TaskRuns.QueuedOnlyIfWoken | karmaio/src/task/state.rs:117-273 | and only then: once a token has run, an incomplete task is marked or has a token only if it was woken since a token last ran, or was aborted |
| TaskRuns.UnwokenTaskGoesIdle | karmaio/src/task/state.rs:161-191 | a pending poll during which nobody woke or aborted the task leaves it idle, unmarked and without a token |
| TaskRuns.CancelledIff | karmaio/src/task/state.rs:276-292 | an incomplete task is cancelled if and only if it was aborted |
| TaskRuns.ReadyTaskIsNeverScheduled | karmaio/src/runtime/blocking.rs:467-489 | if no poll so far returned Pending, nothing was ever handed to the scheduler |
| TaskRuns.JoinIsWoken | karmaio/src/task/vtable.rs:280-381 | after a join poll with a waker, and no poll or take since, an idle join handle has that waker stored and flagged before completion; afterwards the completer is waking it or has woken it since that poll |
| TaskRuns.OutputConsumedOnce | karmaio/src/task/vtable.rs:122-180 | the output is taken by the join, dropped by the join handle or dropped by the completer, exactly one of them, and what is taken is what the last poll came to |
| TaskRuns.OutputIsWhatThePollReturned | karmaio/src/task/vtable.rs:227-278 | what is stored is what the event that ended the last poll says: the value the future returned, or the cancel error of an aborted task; there is one such event and the output is there once the poller is past storing it |
| TaskRuns.JoinTakesTheOutput | karmaio/src/task/vtable.rs:122-137 | a join that takes finds what the last poll came to, unless an earlier one took it |
| TaskCell.StepKeepsInv | karmaio/src/task.rs:51-142 | every step of every party keeps the invariant on references, lifecycle, tokens, stage, join cell and join wake |
| HalfLock.NoUseAfterFree | karmaio/src/signal/half_lock.rs:134-185 | for any number of readers no reader holds a pointer that is freed or about to be |
| HalfLock.FreedOnce | karmaio/src/signal/half_lock.rs:73-87 | a value is freed once, after it was replaced |
| HalfLock.ReplacedIsFreed | karmaio/src/signal/half_lock.rs:73-87 | of the values ever stored exactly those are freed that are neither current nor being retired |
| HalfLock.ReaderHoldsWhatItLoaded | karmaio/src/signal/half_lock.rs:134-153 | a reader gets the value stored last before its load and keeps it until it unlocks |
| HalfLock.RetiringSlotDrains | karmaio/src/signal/half_lock.rs:155-185 | until the next flip the set of readers that hold or can still enter the retiring slot never grows |
| HalfLock.FlipRetiresTheActiveSlot | karmaio/src/signal/half_lock.rs:161-185 | the slot readers enter before a flip is the one that retires |
| HalfLock.EmptySlotIsSeen | karmaio/src/signal/half_lock.rs:155-159 | once the readers of a slot are gone the writer's next look ends its wait for that slot |
| HalfLock.WaitsOnlyForReaders | karmaio/src/signal/half_lock.rs:161-185 | after the flip the writer starts another round only for a slot it has not seen empty, and the round in which it has seen both ends the barrier |
| HalfLock.SeenStaysSeen | karmaio/src/signal/half_lock.rs:155-159 | a slot seen empty is not waited for again |
| HalfLock.BarrierCanStartWithBothSlotsBusy | karmaio/src/signal/half_lock.rs:161-185 | a run in which a barrier starts with both counters above zero |
| SignalListener.NotificationNotLost | karmaio/src/signal/unix.rs:184-210 | with any number of handlers, failed lock attempts included, once no handler is in flight a parked listener has been woken, since its latest poll and with that poll's waker, or has nothing new to see |
| SignalListener.NewsIsReady | karmaio/src/signal/unix.rs:184-210 | either check of a poll completes exactly when the counter differs from the value last seen |
| SignalListener.NothingNewMeansNoDelivery | karmaio/src/signal/unix.rs:275-291 | equal counters mean no delivery since the last look, up to exact multiples of 2^64 |
| SignalListener.ReadyOnlyOnDelivery | karmaio/src/signal/unix.rs:184-210 | `recv` completes only for deliveries made since the last look, never more often than the signal was delivered |
| Slabs.ChainUnique | karmaio/src/slab.rs:192-225 | the links determine the free list |
| Slabs.Slab.Insert | karmaio/src/slab.rs:192-207 | stores at the head of the free list or in a new slot, under a key not in use; the free list still visits each vacant slot once and ends at the vector length |
| Slabs.Slab.TryRemove | karmaio/src/slab.rs:209-231 | removes exactly that key and makes its slot the next to be reused; a missing key changes nothing |
| Slabs.Slab.SomeOccupied | karmaio/src/slab.rs:209-231 | the length never underflows: an occupied slot is counted |
| Slabs.Slab.Keys | karmaio/src/slab.rs:273-296 | the iterator yields every stored key once, in order, and as many as `len` says |
| OpTables.RawRoundTrip | karmaio/src/driver/op_table.rs:49-128 | an encoded key fits the word, decodes to the same slot and generation, and is no control token |
| OpTables.RawInjective | karmaio/src/driver/op_table.rs:49-128 | two keys never share a word |
| OpTables.ControlTokensAreNotKeys | karmaio/src/driver/op_table.rs:49-128 | wake and cancel tokens decode to themselves and to no key, and a word that decodes to a key is that key's own encoding |
| OpTables.FindIsLookup | karmaio/src/driver/op_table.rs:197-212 | for every key whatever, a lookup is a lookup in the finite map the table stands for |
| OpTables.InsertedIsUpdate | karmaio/src/driver/op_table.rs:176-195 | an insertion into a vacant slot issues a key never issued before and changes no other key |
| OpTables.RemovedIsDeletion | karmaio/src/driver/op_table.rs:214-232 | a removal forgets that key and no other, whether the slot is recycled or retired |
| OpTables.RetiredIff | karmaio/src/driver/op_table.rs:214-232 | a slot is given up exactly when its generations are used up; otherwise it is free again under the next one |
| OpTables.StaleKeysStayStale | karmaio/src/driver/op_table.rs:176-279 | in any run an issued key that finds nothing finds nothing for ever and is never issued again |
| OpTables.OpTable.Get | karmaio/src/driver/op_table.rs:197-212 | answers for any key from the finite map |
| OpTables.OpTable.Insert | karmaio/src/driver/op_table.rs:176-195 | maps a key never issued before to the value, or fails exactly when the key range is used up |
| OpTables.OpTable.Set | karmaio/src/driver/op_table.rs:206-212 | writing through a lookup changes what that key maps to |
| OpTables.OpTable.Remove | karmaio/src/driver/op_table.rs:214-232 | deletes the key from the map and returns what it held; any other key changes nothing |
| OpTables.OpTable.Keys | karmaio/src/driver/op_table.rs:242-247 | the iterator yields every live key exactly once |
| OpTables.OpTable.Clear | karmaio/src/driver/op_table.rs:261-279 | empties the map while issued keys stay issued |
| Scopes.PartsRoundTrip | karmaio/src/driver/helpers/scopes.rs:70-89 | packing a scope id loses nothing, and only slots beyond 32 bits have none |
| Scopes.InsertAppendsOnce | karmaio/src/driver/helpers/scopes.rs:130-163 | the four shapes of the compact list behave as one duplicate-free list |
| Scopes.IndexesAgree | karmaio/src/driver/helpers/scopes.rs:232-316 | in every reachable state the scope-to-operation sets and the operation-to-scope index agree on active scopes |
| Scopes.CancellationIsSticky | karmaio/src/driver/helpers/scopes.rs:246-293 | an issued id once cancelled stays cancelled in every later state of the run |
| Scopes.ActiveUntilStopped | karmaio/src/driver/helpers/scopes.rs:232-293 | in every run a scope is active if and only if it was opened and has not been cancelled or dropped since |
| Scopes.StoppedForGood | karmaio/src/driver/helpers/scopes.rs:246-293 | cancelling or dropping an issued scope cancels it in every later state |
| Scopes.MembersAreThoseWhoJoined | karmaio/src/driver/helpers/scopes.rs:295-316 | an active scope lists exactly the operations that joined it while it was active and have not left since |
| Scopes.WaitersAreTheLastStored | karmaio/src/driver/helpers/scopes.rs:319-371 | an active scope has the waiters stored last since it was opened |
| Scopes.StopCancels | karmaio/src/driver/helpers/scopes.rs:250-293 | cancelling or dropping a scope cancels that scope, forgets a dropped one while its slot has generations left, and changes nothing else |
| Scopes.FreshSlot | karmaio/src/driver/helpers/scopes.rs:232-244 | the id for a vacant slot was never issued before, so reuse of a slot revives no id |
| Scopes.SlotRecycled | karmaio/src/driver/helpers/scopes.rs:250-263 | freeing a slot under the next generation forgets that id and no other |
| Scopes.LookupIsMembership | karmaio/src/driver/helpers/scopes.rs:381-403 | for every id, stale and foreign ones included, the slot lookup answers as the registry does |
| Scopes.ScopeTable.Insert | karmaio/src/driver/helpers/scopes.rs:232-244 | opens a scope under a new id; fails only when the slot number leaves 32 bits |
| Scopes.ScopeTable.Cancel | karmaio/src/driver/helpers/scopes.rs:276-293 | the scope is cancelled afterwards and every other is as it was; hands back exactly its operations and waiters; again, or on a missing id, nothing |
| Scopes.ScopeTable.Remove | karmaio/src/driver/helpers/scopes.rs:250-263 | cancels, then forgets the scope unless its slot is out of generations; every other scope is as it was |
| Scopes.ScopeTable.Attach | karmaio/src/driver/helpers/scopes.rs:295-304 | registers the operation on both sides, or on neither when the scope is cancelled or gone |
| Scopes.ScopeTable.Detach | karmaio/src/driver/helpers/scopes.rs:307-316 | takes the operation out of every scope that has it and out of the index |
| Scopes.ScopeTable.Subscribe | karmaio/src/driver/helpers/scopes.rs:319-362 | an active scope stores the waker under the live registration, or under a number no waiter of any scope has; an inactive one is ready at once and stores nothing; panics exactly when a new number is needed and none is left |
| Scopes.ScopeTable.Unsubscribe | karmaio/src/driver/helpers/scopes.rs:365-371 | removes that waiter and nothing else |
| UringOneshot.NoPanic | karmaio/src/driver/backends/iouring.rs:661-832 | no `expect` fails and no unreachable arm is reached for any order of submission, poll, cancel, drop and completion |
| UringOneshot.OneOwner | karmaio/src/driver/backends/iouring.rs:583-717 | at every moment the submitted payload is in exactly one place, and while the kernel has the request that is the future or the slot |
| UringOneshot.SlotOutlivesRequest | karmaio/src/driver/backends/iouring.rs:661-717 | the slot is not freed before the terminal completion nor while an observer may ask for it |
| UringOneshot.CompletedExactlyOnce | karmaio/src/driver/backends/iouring.rs:253-353 | `complete` runs only after the terminal completion, with that completion and the submitted payload; afterwards the operation is in exactly one of completed, awaiting its future, awaiting cleanup, abandoned |
| UringOneshot.CompletionIsFinal | karmaio/src/driver.rs:237-271 | a completion delivered to `complete` is never delivered again |
| UringOneshot.LatestWakerIsWoken | karmaio/src/driver/backends/iouring.rs:785-832 | the slot remembers the task of the latest pending poll, and completion defers or has run its wake, or the wake was dropped with a failed turn |
| UringOneshot.CancelIsOwedUntilTaken | karmaio/src/driver/backends/iouring.rs:307-353 | in every run an unfinished operation is being cancelled exactly when somebody asked for it, whatever it was doing, and the slot takes the request for delivered exactly when the ring took one since |
| UringOneshot.DuplicateIsIgnored | karmaio/src/driver/backends/iouring.rs:300-303 | a duplicate terminal completion changes nothing |
| UringTurns.CompleteLostIff | karmaio/src/driver/backends/iouring.rs:909-1000 | in every run, nested turns included, a detached operation misses its `complete` if and only if a turn failed, by the code's own guard, while holding it |
| UringTurns.WakeLostIff | karmaio/src/driver/backends/iouring.rs:963-997 | the same for the wake of a oneshot operation, whose latest pending poll is otherwise remembered, about to be woken or woken |
| UringTurns.StreamWakeLostIff | karmaio/src/driver/backends/iouring.rs:963-997 | a parked stream is left without waker and wake if and only if a turn failed while holding its wake and it was not polled since |
| UringTurns.ParkedStreamIsServed | karmaio/src/driver/backends/iouring.rs:839-864 | otherwise a parked stream is remembered, about to be woken or woken, and not merely remembered once there is something to see |
| UringTurns.TurnDecides | karmaio/src/driver.rs:348-352 | the end of a turn decides about everything it holds: lost if it fails, otherwise unchanged and runnable |
| UringTurns.EntryIsDispatchOne | karmaio/src/driver/backends/iouring.rs:920-973 | an entry changes the table, and what the turn holds, exactly as the backend's dispatch loop does |
| UringTurns.EntryDiscards | karmaio/src/driver/backends/iouring.rs:225-234 | what an entry discards of a stream is what the backend's dispatch gives to the cleanup policy |
| UringTurns.OkAlong | karmaio/src/driver/backends/iouring.rs:909-1000 | every operation and stream of every run keeps its own invariant, and a turn holds for it exactly what it has deferred, once |
| UringTurns.RefusedRearmLosesAComplete | karmaio/src/driver/backends/iouring.rs:995-1000 | a run that ends with a freed slot and a completion that nothing will complete |
| UringTurns.RefusedRearmStrandsAStream | karmaio/src/driver/backends/iouring.rs:995-1000 | a run that ends with a parked stream, an item staged, no waker and no wake |
| UringMultishot.EveryCompletionAccountedFor | karmaio/src/driver/backends/iouring.rs:356-428 | every delivered completion, and the capacity error, is handed to the operation once or discarded once or still staged; nothing is staged once the slot is gone |
| UringMultishot.StreamIsFifo | karmaio/src/driver/backends/iouring.rs:839-864 | what the stream hands out is in order a prefix of what was delivered, then at most the one capacity error; a live stream skips nothing |
| UringMultishot.NothingAfterCapacityError | karmaio/src/driver/backends/iouring.rs:364-411 | after the capacity error the stream hands out nothing more |
| UringMultishot.QueueIsBounded | karmaio/src/driver/backends/iouring.rs:364-387 | the queue never exceeds the limit plus one |
| UringMultishot.OverflowsIff | karmaio/src/driver/backends/iouring.rs:364-411 | a completion overflows a live stream if and only if it finds the limit reached, and then stages the capacity error, is discarded and asks for a cancel if the request goes on; otherwise it is staged last and asks for nothing |
| UringMultishot.OverflowedStagesNothing | karmaio/src/driver/backends/iouring.rs:396-411 | after an overflow a live stream stages nothing and asks for nothing more |
| UringMultishot.ParkedStreamIsWoken | karmaio/src/driver/backends/iouring.rs:389-411 | a parked task is remembered, its wake is deferred, run, or was dropped: exactly one; remembered only while nothing is staged and the request is armed |
| UringMultishot.PayloadOutlivesRequest | karmaio/src/driver/backends/iouring.rs:723-778 | while the kernel may deliver, the slot exists and the submitted payload is with the stream or in the slot |
| UringMultishot.ResultsAreTheItems | karmaio/src/driver/ops.rs:498-535 | the stream's items are what it was handed, except for one that ended it, or the single submission error |
| UringMultishot.EndedStaysEnded | karmaio/src/driver/ops.rs:498-547 | after the first end the stream never yields again and every later poll reports the end |
| UringBackend.OperationsDoNotInterfere | karmaio/src/driver/backends/iouring.rs:909-973 | a turn treats each operation by its own completions in order, whatever else the queue holds |
| UringBackend.EndingStaysEnding | karmaio/src/driver/backends/iouring.rs:253-304 | no completion turns a cancelled or complete operation back into a running one |
| UringBackend.DeferredByOperation | karmaio/src/driver/backends/iouring.rs:952-972 | what a turn defers for an operation is decided by that operation's own completions, in order |
| UringBackend.FirstCompletionDecides | karmaio/src/driver/backends/iouring.rs:253-428 | of the completions naming an operation the first takes its waker or payload, and no later one finds it |
| UringBackend.CancelsIffOverflow | karmaio/src/driver/backends/iouring.rs:953-980 | a turn cancels a stream if and only if one of its completions in that turn overflows it |
| UringBackend.RearmIff | karmaio/src/driver/backends/iouring.rs:932-997 | the wakeup read is armed again exactly when its completion was in the queue, unless the backend is shutting down |
| UringBackend.CompleteHandedOutIff | karmaio/src/driver/backends/iouring.rs:909-1000 | a detached operation's completion frees its slot and puts its one `complete` among the deferred actions, which is handed out if and only if the turn does not fail |
| UringBackend.WakeHandedOutIff | karmaio/src/driver/backends/iouring.rs:909-1000 | the same for the wake of an operation or a stream |
| UringBackend.FullRingLosesACompletion | karmaio/src/driver/backends/iouring.rs:978-980 | a queue and a table on which a `complete` is lost |
| UringBackend.CancelReaches | karmaio/src/driver/backends/iouring.rs:699-717 | after a cancel request any oneshot operation is ending; the request has reached the kernel or is owed, exactly as the ring took it or not; its task and payload stay; one that is finished or already told is left alone |
| UringBackend.CancelTouchesOne | karmaio/src/driver/backends/iouring.rs:699-717 | it touches no other operation and is idempotent |
| UringBackend.RetryReaches | karmaio/src/driver/backends/iouring.rs:982-993 | after retrying, a cancel is owed exactly if it was and the ring would not take it; nothing else changes |
| UringBackend.IoUringBackend.SubmitOp | karmaio/src/driver/backends/iouring.rs:583-617 | a refusal returns the payload and leaves no trace in the table; acceptance has a key never issued before |
| UringBackend.IoUringBackend.CancelOp | karmaio/src/driver/backends/iouring.rs:699-717 | a cancel is pushed exactly when the ring takes it and the request has not been told yet; if the ring refuses, the slot owes it; the table otherwise |
| UringBackend.IoUringBackend.RemoveOp | karmaio/src/driver/backends/iouring.rs:661-693 | the payload moves into the slot, or the completion already there is handed back and the slot freed |
| UringBackend.IoUringBackend.PollOp | karmaio/src/driver/backends/iouring.rs:785-832 | pending leaves the caller's waker in the slot; ready frees the slot |
| UringBackend.IoUringBackend.DispatchCompletions | karmaio/src/driver/backends/iouring.rs:909-1000 | applies the queue in order, pushes owed cancels, and fails exactly when a stream's cancel or the wakeup read is refused, losing what it deferred; whether the wakeup read is armed afterwards |
| UringBackend.IoUringBackend.RetryCancels | karmaio/src/driver/backends/iouring.rs:982-993 | every cancel that still has to reach the kernel is pushed again, none is owed that the ring takes, and nothing else changes |
| UringBackend.IoUringBackend.RemoveMultiOp | karmaio/src/driver/backends/iouring.rs:723-778 | staged items are discarded; a finished slot is freed, any other keeps the payload |
| UringBackend.IoUringBackend.PollMultiOp | karmaio/src/driver/backends/iouring.rs:839-864 | pops the oldest item, parks the caller, or ends the stream and frees a finished slot |
| Driver.CancelledScopeIsQuiet | karmaio/src/driver.rs:187-212 | an operation submitted under a scope that is cancelled or gone is being cancelled or complete |
| Driver.StopKeepsReach | karmaio/src/driver.rs:145-153 | cancelling every operation on a scope's list makes up for the scope being gone, for all operations and all other scopes |
| Driver.DispatchStartsNothing | karmaio/src/driver.rs:348-352 | no batch of completions makes an operation running that was not |
| Driver.JoinedAllReaches | karmaio/src/driver.rs:197-203 | binding puts the operation on the list of every active scope of the stack and changes no other scope |
| Driver.CancelledAllStartsNothing | karmaio/src/driver.rs:205-212 | of a cancelled list every oneshot operation is ending, and its cancel is owed exactly if the kernel was not told and the ring refused |
| Driver.Driver.TrySubmitOp | karmaio/src/driver.rs:124-131 | under a cancelled scope nothing is submitted and the payload comes back; an accepted operation is running, bound to every current scope and on their lists |
| Driver.Driver.BindKeyToCurrentScopes | karmaio/src/driver.rs:197-203 | every scope of the stack has the operation on its list or the operation is being cancelled, even if a scope was cancelled after the check; with no scope cancelled no operation is touched |
| Driver.Driver.CurrentScopesBlockSubmit | karmaio/src/driver.rs:187-195 | true exactly when some current scope is cancelled or gone |
| Driver.Driver.CancelScope | karmaio/src/driver.rs:150-153 | the scope is cancelled and no other is; every operation on its list gets a cancel request and no other does, so every live oneshot operation submitted under it, nested or not, is being cancelled or complete; its waiters are handed out |
| Driver.Driver.RemoveScope | karmaio/src/driver.rs:145-148 | the same for dropping the source |
| Driver.Driver.ApplyScopeCancel | karmaio/src/driver.rs:205-212 | exactly the operations of the snapshot are as a cancel request leaves them |
| Driver.Driver.DropOp | karmaio/src/driver/ops.rs:382-393 | an unpolled completion goes to `complete` with the future's payload; otherwise the payload is in the slot, which is being cancelled, with the cancel pushed or owed |
| Driver.Driver.PollOp | karmaio/src/driver.rs:261-271 | a ready poll leaves the scopes and completes with the future's payload; a pending one stores the waker |
| Driver.Driver.DispatchCompletions | karmaio/src/driver.rs:348-352 | a turn hands on what the backend returns, and keeps the reach of every scope |
| Kqueue.RegistrationsAreInverse | karmaio/src/driver/backends/kqueue.rs:603-639 | on every run the filter map and the slots' registrations are inverse to each other, and a registered slot is waiting |
| Kqueue.EventsTouchTheirOwn | karmaio/src/driver/backends/kqueue.rs:898-935 | a readiness event changes only the operation registered for its filter and, at end of file, the descriptor's writer |
| Kqueue.StaleEventsChangeNothing | karmaio/src/driver/backends/kqueue.rs:898-935 | an event whose key is not the current waiter of its filter changes nothing |
| Kqueue.PuttingBackRestores | karmaio/src/driver/backends/kqueue.rs:937-945 | a registration taken by a mismatched lookup and put back leaves everything as it was |
| Kqueue.ReadinessAlwaysCounts | karmaio/src/driver/backends/kqueue.rs:937-966 | readiness of a current registration always makes the operation ready or complete |
| Kqueue.ReadinessWakes | karmaio/src/driver/backends/kqueue.rs:190-210 | readiness of a current registration hands out the wake of the task that waits, and only that |
| Kqueue.EventReaches | karmaio/src/driver/backends/kqueue.rs:898-928 | a current event readies or completes whoever waits on its filter and, at end of file, the descriptor's writer, and hands out their tasks |
| Kqueue.AnswerIsHandedOn | karmaio/src/driver/backends/kqueue.rs:145-187 | an answer wakes the task that waits, or runs `complete` on the kept payload with that answer: one of these and nothing else |
| Kqueue.OneAnswerPerJob | karmaio/src/driver/backends/kqueue.rs:779-896 | a live operation waits for a blocking answer exactly when one is outstanding, and at most one ever is |
| Kqueue.AnswersReachAtMostOnce | karmaio/src/driver/backends/kqueue.rs:874-896 | an answer reaches an operation never answered before, or, for a slot that is gone, nobody |
| Kqueue.FuturesFindTheirSlot | karmaio/src/driver/backends/kqueue.rs:779-864 | polling or dropping a live future hits no `expect` and no unreachable arm |
| KqueueRuns.PendingFutureIsWoken | karmaio/src/driver/backends/kqueue.rs:779-966 | in every run a live future that waits is remembered with the waker of its latest poll, and once it has something to see that waker has been handed out since |
| KqueueRuns.WakesAreForTheLatestPoll | karmaio/src/driver/backends/kqueue.rs:733-966 | every wake handed out is for the latest poll of a live future |
| KqueueRuns.AnswerReachesTheObserver | karmaio/src/driver/backends/kqueue.rs:874-896 | the answer of a blocking job wakes the task of the latest poll or, once the future was dropped, completes the payload that was dropped |
| KqueueRuns.CompletesOnlyOnAnswer | karmaio/src/driver/backends/kqueue.rs:874-966 | `complete` is run for a dropped future only on its job's answer, with that answer |
| KqueueRuns.ResultsAreGenuine | karmaio/src/driver/backends/kqueue.rs:779-864 | a finished poll returns what answered the operation earlier, or what its own attempt came to |
| KqueueRuns.DroppedResultsAreGenuine | karmaio/src/driver/backends/kqueue.rs:675-727 | a dropped future hands back a completion exactly if the operation was answered, and then that answer |
| KqueueRuns.CompletedWasAnswered | karmaio/src/driver/backends/kqueue.rs:145-187 | a completed operation was answered by its job, by a cancel with no job under way, or by the socket error of the filter it waited on, with that content |
| KqueueRuns.AnswersComeFromJobs | karmaio/src/driver/ops.rs:225-271 | an answer in the queue was posted by its job, or by the guard of a job the pool refused |
| KqueueRuns.CancelledStaysCancelled | karmaio/src/driver/backends/kqueue.rs:733-772 | a cancelled operation is complete, or waits for its job, in every later state until its slot is gone |
| Kqueue.KqueueBackend.TakeRegistration | karmaio/src/driver/backends/kqueue.rs:616-627 | takes the registration out of the slot and out of the filter map |
| Kqueue.KqueueBackend.MarkReady | karmaio/src/driver/backends/kqueue.rs:937-966 | the effect of readiness on slot and filter map; the task that waits, and nothing else, is deferred to be woken |
| Kqueue.KqueueBackend.DispatchCompletions | karmaio/src/driver/backends/kqueue.rs:898-928 | a batch of events takes effect in order, each only if still current |
| Kqueue.KqueueBackend.DrainBlockingCompletions | karmaio/src/driver/backends/kqueue.rs:874-896 | every posted answer is applied, in order |
| Kqueue.KqueueBackend.CancelOp | karmaio/src/driver/backends/kqueue.rs:733-772 | a readiness wait completes at once and its waker is woken; a blocking job is left to answer |
| Kqueue.KqueueBackend.PollOp | karmaio/src/driver/backends/kqueue.rs:779-864 | the first poll finishes, registers on a filter nobody waits on, or dispatches a job; later polls renew the waker |
| Kqueue.KqueueBackend.RemoveOp | karmaio/src/driver/backends/kqueue.rs:675-727 | the payload stays in the slot exactly when a blocking answer is outstanding |
| Kqueue.BlockingCompletionGuard.Complete | karmaio/src/driver/ops.rs:225-271 | completing and then dropping the guard posts exactly one entry |
| BufPool.WrapKeepsIndex | karmaio/src/buf/pool.rs:216-222 | the wrapping 16-bit tail indexes the ring as an unbounded count would |
| BufPool.PublishKeepsWindow | karmaio/src/buf/pool.rs:216-237 | publishing overwrites no entry the kernel has yet to consume and leaves the window distinct and within the ring |
| BufPool.OnePlace | karmaio/src/buf/pool.rs:349-453 | on every run each buffer is in exactly one of ring, unused completion, lease, freed |
| BufPool.RingIsIntact | karmaio/src/buf/pool.rs:192-252 | the entries the kernel has yet to consume are for distinct buffers, at most the ring length, each with its buffer's memory |
| BufPool.NothingFreedInUse | karmaio/src/buf/pool.rs:349-410 | no memory is freed twice, while the kernel can reach it, or before the pool is released |
| BufPool.TakeIsSafeIff | karmaio/src/buf/pool.rs:391-393 | taking an id keeps single ownership if and only if the buffer is not in the ring |
| BufPool.RecycleIsSafeIff | karmaio/src/buf/pool.rs:446-453 | recycling an id keeps single ownership if and only if the buffer is not in the ring |
| BufPool.RingBufferTakenTwice | karmaio/src/buf/pool.rs:391-393 | a fresh pool on which both calls break single ownership |
| BufPool.RingLength | karmaio/src/buf/pool.rs:284-293 | the ring length is large enough, within the kernel's limit, less than twice the request, and divides 2^16 |
| BufPool.BufferPool.constructor | karmaio/src/buf/pool.rs:187-199 | registration publishes every buffer at its own index |
| BufPool.BufferPool.Take | karmaio/src/buf/pool.rs:427-442 | a completion's id gives that buffer's memory, once; a leased or unknown id gives nothing; the pool stays sound exactly when the id was not in the ring |
| BufPool.BufferPool.Reset | karmaio/src/buf/pool.rs:446-453 | a completion's id puts the buffer at the end of the ring; the pool stays sound exactly when the id was not in the ring |
| BufPool.BufferPool.DropLease | karmaio/src/buf/pool.rs:578-592 | a dropped lease goes to the end of the ring, or is freed if the pool is gone |
| BufPool.BufferPool.Release | karmaio/src/buf/pool.rs:349-380 | unregistered: exactly the buffers not on lease are freed; still registered: none |
| BlockingPool.CountersExact | karmaio/src/runtime/blocking.rs:241-356 | in every run the thread count is exact and within the cap; while no dispatch met a full notification counter, idle plus notify equals the parked workers and no subtraction saturates |
| BlockingPool.ExactIffNeverSaturates | karmaio/src/runtime/blocking.rs:256-261 | idle plus notify has equalled the parked workers all along if and only if no dispatch so far found an idle worker with the notification counter full |
| BlockingPool.BoundedCapNeverSaturates | karmaio/src/runtime/blocking.rs:256-261 | a cap of at most 2^32 - 1 threads rules that out, so the counters are exact in every state |
| BlockingPool.FullCounterLosesOne | karmaio/src/runtime/blocking.rs:256-261 | a state with one thread more in which one dispatch breaks the sum |
| BlockingPool.QueueHasAWorker | karmaio/src/runtime/blocking.rs:301-356 | before shutdown, while the counters are exact, a non-empty queue has an unparked worker or an outstanding notification |
| BlockingPool.DispatchStrandsIff | karmaio/src/runtime/blocking.rs:241-292 | a dispatch leaves its job without either if and only if all workers are parked, both counters are zero and no thread can be added |
| BlockingPool.JobsConserved | karmaio/src/runtime/blocking.rs:241-443 | every accepted job is queued or in exactly one of running, finished, dropped; jobs leave in dispatch order; only optional ones are dropped, only in shutdown |
| BlockingPool.JobsMoveForward | karmaio/src/runtime/blocking.rs:301-443 | along a run accepted, popped, finished and dropped jobs only grow |
| BlockingPool.RefusalChangesNothing | karmaio/src/runtime/blocking.rs:241-292 | a refused dispatch leaves queue and counters as they were; when exactly it is refused |
| BlockingPool.DispatchIsServed | karmaio/src/runtime/blocking.rs:241-292 | an idle worker is notified, otherwise a thread is added if there may be; a job is left without either only when nobody is idle and none can be added |
| BlockingPool.WorkerLeavesIff | karmaio/src/runtime/blocking.rs:301-356 | what a worker back from its wait does: leaves, runs the next job or parks again, each exactly when |
| BlockingPool.ParkedAreSignalled | karmaio/src/runtime/blocking.rs:384-385 | once shutdown has started a wake is on its way to every parked worker and none parks again |
| BlockingPool.ShutdownIsWoken | karmaio/src/runtime/blocking.rs:353-424 | the waiting shutdown thread has a notification on its way as soon as no worker is left, and its next look ends the wait |
| BlockingPool.UntimedShutdownIsComplete | karmaio/src/runtime/blocking.rs:358-443 | when a shutdown without a deadline returns, every mandatory job has finished and no worker is left |
| BlockingPool.DrainedSplits | karmaio/src/runtime/blocking.rs:301-356 | draining splits the queue into dropped optional jobs, the next job to run, and the rest |
| BlockingPool.Shared.DispatchWith | karmaio/src/runtime/blocking.rs:241-292 | the guarded state after a dispatch, and its outcome, for every branch |
| BlockingPool.Shared.DrainNext | karmaio/src/runtime/blocking.rs:301-356 | the loop that pops the next job, dropping optional ones in shutdown |
| BlockingPool.Shared.AfterWait | karmaio/src/runtime/blocking.rs:301-356 | the counters after a wait that was notified, spurious or timed out |
| SliceViews.FlattenPreservesMeaning | karmaio/src/buf/slice.rs:128-148 | a flattened view denotes the same initialized bytes and capacity as the nested one for all buffer lengths, and panics on access exactly when that does |
| SliceViews.FlattenSucceedsIff | karmaio/src/buf/slice.rs:130-147 | flattening panics exactly when an offset overflows |
| SliceViews.FlattenCanOverflow | karmaio/src/buf/slice.rs:130-147 | a readable nested view on which it does |
| SliceViews.ChainedIsNestedFlattened | karmaio/src/buf/slice.rs:83-118 | a chained slice is the nested one flattened, panics included |
| SliceViews.ChainDenotesTheNest | karmaio/src/buf/slice.rs:83-118 | any number of chained slices denote the bytes and capacity of as many nested views |
| SliceViews.SliceShowsItsRange | karmaio/src/buf/io_buf_ext.rs:44-66 | a slice shows exactly the initialized bytes its range selects, and is refused exactly when a bound overflows, the start is beyond what is initialized or the end precedes it |
| SliceViews.SetLenExposes | karmaio/src/buf/slice.rs:206-213 | at any nesting depth, setting the length of a view makes exactly that much of its capacity initialized if and only if the buffer is growable or the view is filled |
| SliceViews.WriteThenSetLen | karmaio/src/buf/slice.rs:182-213 | after filling a view and setting its length it reads back what was written, and the buffer is initialized exactly to its end; for a fixed buffer, exactly when the view is filled and reaches the end |
| SliceViews.CursorIsTheRest | karmaio/src/buf/slice.rs:281-316 | the cursor iterates over exactly the concatenation minus its first `start` bytes |
| SliceViews.Locate | karmaio/src/buf/slice.rs:234-257 | the walk over the components finds the position of `start` among the lengths given to it, and fails exactly beyond the end; `slice_mut` is the same walk over capacities |
| SliceViews.DistributeExposes | karmaio/src/buf/io_vec_buf_mut.rs:105-118 | the initialized bytes of the collection are the first `n` of its capacity if and only if no fixed component reaches further |
| SliceViews.FillIsOneWrite | karmaio/src/buf/slice.rs:299-316 | filling any cursor's slices in order is one write, at the byte of the concatenated capacity it points at |
| SliceViews.FillThenSetLen | karmaio/src/buf/slice.rs:318-325 | for every view, the first `start + n` bytes are then initialized, in component order, and are what the collection had with the data written where the cursor points |
| SliceViews.AlignedViewReadsBack | karmaio/src/buf/slice.rs:318-325 | if the cursor points at `start` these are the bytes before `start` and then the data |
| SliceViews.CapacityViewIsAligned | karmaio/src/buf/io_vec_buf_mut.rs:36-54 | a view made by `slice_mut` points at its `start` |
| SliceViews.InitializedViewIsAlignedIff | karmaio/src/buf/slice.rs:234-257 | a view made by `from_initialized` does if and only if every component before its cursor is full |
| SliceViews.ViewReadsBackIff | karmaio/src/buf/slice.rs:299-325 | a view reads back every data that fits if and only if its cursor points at `start` |
| SliceViews.InitializedViewReadsBackIff | karmaio/src/buf/slice.rs:234-325 | a view over initialized bytes reads back every data that fits if and only if every component before its cursor is full |
| SliceViews.InitializedViewLosesAByte | karmaio/src/buf/slice.rs:234-325 | two half-full vectors on which a written byte is lost and unwritten bytes become initialized |
| SliceViews.SkippedBytesMustBeWritten | karmaio/src/buf/io_vec_buf_mut.rs:36-54 | everything that then reads as initialized was written if and only if the bytes before the cursor that the length covers were |
| SliceViews.SpareByteIsExposed | karmaio/src/buf/io_vec_buf_mut.rs:36-54 | a view over a spare byte on which it was not |
| SliceViews.ArrayStaysInitialized | karmaio/src/buf/io_vec_buf_mut.rs:105-118 | an array component that stays initialized beyond the length set |
| SliceViews.SetLenOf | karmaio/src/buf/io_vec_buf_mut.rs:105-118 | the component loop distributes the length in order and reports exactly when capacity was lacking |
| SliceViews.VectoredSlice.SetLen | karmaio/src/buf/slice.rs:318-325 | the collection's length becomes `start` plus the view's; what is changed when it panics |

## Left out

- Weak memory orderings: atomic operations are interleaved steps.
- Panicking destructors, panicking futures beyond "the poll panicked", and the `catch_unwind` paths of the task code.
- TaskRuns.ReferencesExact: no step adds a reference beyond 2^57 of them, where the source aborts the process or fails an assertion.
- BlockingPool.QueueHasAWorker: stated while the counters are exact; afterwards `DispatchStrandsIff` says which dispatch can strand a job until a worker times out.
- BlockingPool.UntimedShutdownIsComplete: a second, concurrent caller of `shutdown` is not modelled.
- UringBackend.IoUringBackend.DispatchCompletions: a dispatch nested inside a push on EBUSY is not part of this method; `UringTurns` covers it, with a stack of open turns.
- UringOneshot.CompletedExactlyOnce: shutdown of the io_uring backend, which abandons or drains operations, is not modelled.
- Driver.Driver.CancelScope: multishot streams under a scope get a cancel request and no change of state, so nothing is claimed about them.
- Driver.Driver.PollOp: the mapping of a cancelled result to the runtime's own error is not modelled.
- UringMultishot.EndedStaysEnded: a stream polled after its runtime is gone is not modelled.
- Kqueue.KqueueBackend.DispatchCompletions: the table is a map here; that `OpTable` is one is proved in `OpTables`.
- OpTables.RawRoundTrip: a 64-bit `usize` is assumed.
- SliceViews.Locate: `from_initialized` and `slice_mut` share one model of the walk; what differs, the lengths it walks, decides what a view can be used for (`InitializedViewIsAlignedIff`).
- Real system calls, mmap and signal installation; the kernel is an arbitrary environment.
- `VectoredBufIterator`, `SharedIoHandle`, `reserve`, framed codecs, buffered readers and writers.
- TLS, the IOCP backend, the scheduler and run queue, timers, fs, net, process, macros and the builder: wrappers, easier than what is here, or resting on code that is not part of this model.
