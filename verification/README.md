# A verified model of AnyIO's asyncio backend and the streams above it

AnyIO runs structured concurrency on top of asyncio. This project models the parts of it in which
tasks, cancellation and shared state interact, and proves what they promise over every run.

The event loop is a step machine: one step is the code between two awaits. A task has a current
scope, an awaited future (pending, done or cancelled), a must-cancel flag and a `cancelling()`
counter. A native `task.cancel()` is a separate step that may come at any time; a cancellation by a
scope is a delivery. The path for Python 3.11 and 3.12 is modelled, where a task counts its
cancellation requests.

Most components have three layers:

* a module of values (`CancelState`, `GroupState`, `MemoryStream`, `LockState`, `SemaphoreState`,
  `ConditionState`, `SocketState`, `PoolState`): the state as a datatype, every operation as a
  function on it, the steps of a run and the invariant;
* modules of proofs (`CancelTheorems`, `Strikes`, `GroupTheorems`, `GroupCancels`, `MemoryStreamRuns`,
  `MemoryStreamTheorems`, `LockRuns`, ...): every step keeps the invariant, and what follows for users,
  for every reachable state;
* a module of classes (`CancelScopes`, `MemoryStreams`, `Locks`, `Semaphores`, `Conditions`,
  `TaskGroups`, `SocketStreams`, `ProcessPools`, `BufferedStreams`): the source's objects, loops and
  updates in place, each method proved to change its object as the function says.

What is proved, component by component:

* **Cancel scopes.** The top-down delivery walk and the bottom-up check agree; delivery never stalls
  while a task is left to meet, provided that no task is spawned into a cancelled group that no
  scheduled delivery serves, and such a spawn is the only way to stall it; `cancelling()` is exactly
  accounted for; a cancellation is swallowed by exactly one scope, also over the successive exits of a
  task.
* **Task groups.** On top of that machine `__aexit__` never leaves a member behind, collects every
  error once, is never stuck, and is struck by scopes at most once. This also discharges what cancel
  scopes ask of a group, namely that its scope is left only when no task has it as its home.
* **Memory object streams.** One FIFO over every interleaving, the shape of the queues, the meaning
  of each result, and hand-offs that only a native cancellation can lose.
* **Lock, semaphore, condition.** Ownership and permits in the gap between a grant and its return,
  first come first served, and the exact step that leaves a waiter beside a free lock or permit.
* **Byte streams.** Buffered reads conserve bytes and do not depend on chunking; worker replies
  survive printing, cutting and parsing; the socket reader is a FIFO of bytes without lost wakeups.
* **Idle pool.** The deque stays sorted, so pruning from the old end is exact; no worker is lost or
  used twice.
* **Results.** For each call on a stream, lock, semaphore, condition, socket or pool: when each of its
  results comes, in terms of what was sent, held or queued, and what it leaves behind
  (`MemoryStreamCalls`, the lemmas named `...Means`). For a delivery: whom it strikes and whom it spares
  (`Strikes`). For a task group: what cancels it and which exception it remembers (`GroupCancels`).

Where the code does not keep an obvious property, the exact condition is proved, with a run that shows
the failure:

* a task spawned into a cancelled group may not be served: the condition is
  `CancelRuns.SpawnStallsUnlessServed`, the run `CancelTheorems.SpawnCanStall`;
* a free lock, or a free permit, may have a live waiter: `LockRuns.StrandsOnlyIf` and
  `LockRuns.AcquireCanStrand`, and the same names in `SemaphoreRuns`. Nobody gets a lock with a stranded
  waiter before that waiter is cancelled (`LockRuns.StrandedIsStuck`);
* a blocked `receive()` whose task was cancelled before is dropped from the queue by a send, and then
  neither a send nor the last close wakes it: `MemoryStreamTheorems.StrandsOnlyIf`, `StrandedStays` and
  the run `SendCanStrand`;
* a `send` that is cancelled may have been delivered; a cancellation by a scope is enough:
  `MemoryStreamTheorems.ResumeSendMeans` and the run `CancelledSendCanBeDelivered`;
* a handed-over item is lost if its receiver is cancelled natively, and only then:
  `MemoryStreamTheorems.HandOffIsReturned` and the run `HandOffCanBeLost`;
* a `wait()` without the lock leaves its event in the queue: `ConditionRuns.StaleOnlyByMisuse` and
  the step `WaitCanLeaveStale`;
* a notification may be spent on a call that is already cancelled while a live one stays queued:
  `ConditionRuns.SpentOnlyIf` and the run `NotifyCanBeSpent`;
* a delimiter that ends beyond the limit is found iff it ends inside the buffer as it stands when the
  reader stops to read (`BufferedStreams.UntilIsExact`), so the chunking decides
  (`BufferedStreams.LimitDependsOnChunking`);
* a native cancellation of a task group whose context chain holds a scope's cancellation is swallowed
  like one: `GroupTheorems.WhatIsSwallowed` and the run `GroupCases.NativeCanBeSwallowed`;
* a native cancellation that strikes the final checkpoint of a task group replaces the collected
  errors: `GroupTheorems.WhatIsRaised` and the run `GroupCases.ErrorsCanBeDropped`.

Conventions of the model:

* Scopes, tasks and blocked calls are named by numbers, as `id(scope)` names a scope in a message;
  the loop object resolves the names.
* A scope is entered once, as the error message of `__enter__` demands; the code itself only checks
  that it is not active. Programs are structured: scopes are left in LIFO order, and a coroutine
  returns outside its `with` blocks.
* Time is a flag that says whether a deadline has passed, a deadline field, or a nondecreasing integer.
* In `__enter__` the scope is marked active before `_timeout()`, and in `__exit__` the host is cleared
  before the restart; nothing in between reads those fields.
* A sent item carries the number of its accepted send call, so that equal values can be told apart.
* A task that awaits another task is not modelled; a waiter is a future.
* What a client's code raises, with its chain of contexts, is an input of a run.
* A leading `checkpoint()` comes before the step that stands for a call: a call that is cancelled there
  has touched nothing.
* `checkpoint_if_cancelled` in a cancelled scope yields until it is cancelled, so a fast acquisition in
  such a scope takes nothing.

## Model

| member | source | states |
|---|---|---|
| ScopeTree.TopDownIsBottomUp | src/anyio/_backends/_asyncio.py:487-499 | an active scope is effectively cancelled iff the delivery walk of some cancelled scope visits it, and then of exactly one |
| ScopeTree.RegionsOfOriginsDisjoint | src/anyio/_backends/_asyncio.py:568-572 | the regions that two cancelled scopes deliver to are disjoint |
| ScopeTree.VisitedHasOrigin | src/anyio/_backends/_asyncio.py:585-602 | the scope whose delivery visits a scope is the one the upward restart walk finds |
| CancelTheorems.ExactlyOneDelivery | src/anyio/_backends/_asyncio.py:542-583 | the same for every reachable state of the loop |
| CancelTheorems.DeliveryNeverStalls | src/anyio/_backends/_asyncio.py:574-581 | over every run whose spawns are served, a cancelled scope whose walk meets a task has its callback scheduled |
| CancelRuns.StepServes | src/anyio/_backends/_asyncio.py:585-612 | every step keeps that whoever is cancelled has an origin with a scheduled delivery, given a served spawn |
| CancelRuns.SpawnStallsUnlessServed | src/anyio/_backends/_asyncio.py:847-853 | a spawn keeps liveness iff the group is not effectively cancelled or its origin has a callback |
| CancelTheorems.SpawnCanStall | src/anyio/_backends/_asyncio.py:847-853 | a concrete run in which a spawned task is cancelled but nobody will deliver to it |
| CancelTheorems.DeliveryStrikes | src/anyio/_backends/_asyncio.py:553-566 | after a delivery every reached task has a cancellation due, a finished future, or no code to interrupt |
| CancelTheorems.DeliveryIsDelivered | src/anyio/_backends/_asyncio.py:556-566 | to a task that is not running a delivery does nothing or one cancellation, never to one whose future is done; this is the delivery step of the streams and locks |
| Strikes.DeliveryVictims | src/anyio/_backends/_asyncio.py:553-566 | a delivery changes a task iff it reaches it and its coroutine has started, has not returned, does not run now and has neither a cancellation nor a result on its way; how it then changes, and which call count grows |
| Strikes.DeliveryTouches | src/anyio/_backends/_asyncio.py:574-583 | a delivery touches nothing else, and schedules itself again iff it met a task |
| Strikes.CreatedIsUntouched | src/anyio/_backends/_asyncio.py:560-561 | in every reachable state a task that has not started was cancelled by no scope |
| Strikes.EntryMeans | src/anyio/_backends/_asyncio.py:391-420 | entering makes the scope current and active, and cancels it iff its deadline has passed |
| Strikes.ShieldMeans | src/anyio/_backends/_asyncio.py:640-645 | the setter sets the flag of its scope and no other |
| CancelTheorems.CountingTheorem | src/anyio/_backends/_asyncio.py:563-566 | `cancelling()` is native cancels plus deliveries of scopes the task does not host plus the calls counted by its open scopes |
| CancelTheorems.ExitTheorem | src/anyio/_backends/_asyncio.py:459-464 | leaving a scope takes exactly its own share off `cancelling()`, leaves no call over, and keeps native ones |
| CancelExit.UncancelGivesBackAll | src/anyio/_backends/_asyncio.py:460-464 | the uncancel loop breaks early only when no call is left |
| CancelExit.ExitGivesBackOwnShare | src/anyio/_backends/_asyncio.py:446-464 | the same for one exit in a well-formed state, with the share of the scopes further out |
| CancelTheorems.StackIsHosted | src/anyio/_backends/_asyncio.py:397-409 | the chain of a task's scopes lists exactly the active scopes it hosts, once each |
| CancelTheorems.Bookkeeping | src/anyio/_backends/_asyncio.py:405-409 | a scope is in its parent's child set iff it is active, and a task is in the task set of its current scope only; parents are older |
| CancelTheorems.RemovalsSucceed | src/anyio/_backends/_asyncio.py:452-457 | the set removals of enter, exit and `task_done`, and the asserts of the latter, never fail |
| CancelRuns.StepKeeps | src/anyio/_backends/_asyncio.py:391-645 | every step of the loop keeps the whole invariant |
| CancelRuns.RunKeeps | src/anyio/_backends/_asyncio.py:391-645 | so does every run, with liveness if its spawns are served |
| CancelExit.RestartIsAbove | src/anyio/_backends/_asyncio.py:479-481 | the scope that is left is not the one whose delivery is restarted |
| Unwinding.UniqueCatcher | src/anyio/_backends/_asyncio.py:501-532 | a cancellation raised in a cancelled scope is swallowed by exactly one enclosing scope, whose parent is not effectively cancelled unless it is shielded, and that scope alone ends with `cancelled_caught` set |
| UnwindingRuns.OneScopeCatches | src/anyio/_backends/_asyncio.py:422-485 | the same over the successive exits of a running task in any reachable state: of the scopes it leaves, exactly the catcher swallows and ends with `cancelled_caught` set, and it is the last |
| UnwindingRuns.ExitsUnwind | src/anyio/_backends/_asyncio.py:466-482 | each exit decides as the tree before the first exit said, from any scope |
| Unwinding.CaughtIffSwallowed | src/anyio/_backends/_asyncio.py:466-482 | a scope that a single scope cancellation leaves ends with `cancelled_caught` set iff it swallows it |
| Unwinding.CatcherIsOutermost | src/anyio/_backends/_asyncio.py:501-507 | that scope is the outermost visible cancelled one, while the origin is the innermost |
| Unwinding.GroupIsSwallowed | src/anyio/_backends/_asyncio.py:466-482 | the loop of `__exit__` swallows iff there is an atom, all atoms are scope cancellations and the scope swallows such |
| Unwinding.ExceptionIsSwallowed | src/anyio/_backends/_asyncio.py:466-482 | the same in terms of what a nested exception group contains |
| Unwinding.LeavesAreContained | src/anyio/_core/_exceptions.py:82-89 | flattening loses no atom and invents none |
| Deadlines.EffectiveDeadlineMeans | src/anyio/_backends/_asyncio.py:2336-2356 | minus infinity exactly when cancelled, otherwise the earliest deadline up to the first shield |
| CancelScopes.CancelScope.Enter | src/anyio/_backends/_asyncio.py:391-420 | for a scope that was never entered or is active: the error, or the new state of tree, tasks and callbacks |
| CancelScopes.CancelScope.Exit | src/anyio/_backends/_asyncio.py:422-485 | the three errors, or the new state, whether the exception is swallowed, and `cancelled_caught` |
| CancelScopes.StructuredMayLeave | src/anyio/_backends/_asyncio.py:422-443 | what the method asks of its caller holds in every well-formed state for every scope that is no task's home |
| UnwindingRuns.OnlyInnermostIsLeft | src/anyio/_backends/_asyncio.py:430-443 | in every reachable state exactly the innermost scope of the running task is left; when each of the three errors comes |
| CancelScopes.CancelScope.DeliverCancellation | src/anyio/_backends/_asyncio.py:542-583 | the recursive walk over task and child sets strikes the tasks of the region and reports whether it met one |
| CancelScopes.CancelScope.RestartCancellationInParent | src/anyio/_backends/_asyncio.py:585-602 | delivers for the closest visible cancelled ancestor without a callback |
| CancelScopes.CancelScope.IsEffectivelyCancelled | src/anyio/_backends/_asyncio.py:487-499 | the upward loop decides effective cancellation |
| CancelScopes.CancelScope.Cancel | src/anyio/_backends/_asyncio.py:610-612 | flags once and delivers if the scope is entered |
| CancelScopes.CancelScope.SetShield | src/anyio/_backends/_asyncio.py:640-645 | flips the shield and restarts delivery when it falls |
| CancelScopes.CancelScope.UncancelHost | src/anyio/_backends/_asyncio.py:459-464 | the loop's effect on calls and requests |
| CancelScopes.CancelScope.Uncancel | src/anyio/_backends/_asyncio.py:514-532 | walks the context chain, decides whether the scope swallows, and keeps the decision in `cancelled_caught` |
| CancelScopes.CancelScope.ScanAtoms | src/anyio/_backends/_asyncio.py:466-482 | the loop over the atoms of an exception, with `cancelled_caught` |
| CancelScopes.LoopTask.Cancel | src/anyio/_backends/_asyncio.py:562-564 | asyncio's `Task.cancel` on a pending or finished future |
| CancelChecks.CheckpointIfCancelled | src/anyio/_backends/_asyncio.py:2302-2319 | gives up control iff the task's scope is effectively cancelled |
| CancelChecks.CheckCancelled | src/anyio/_backends/_asyncio.py:2443-2453 | raises for the closest visible cancelled scope, iff there is one |
| CancelChecks.CurrentEffectiveDeadline | src/anyio/_backends/_asyncio.py:2336-2356 | the loop computes what the lemma of the module Deadlines says |
| CancelChecks.HasPendingCancellation | src/anyio/_backends/_asyncio.py:2088-2106 | true iff a request is counted or the scope is effectively cancelled |
| GroupTheorems.NeverStuck | src/anyio/_backends/_asyncio.py:785-791 | no enter, exit, removal or assert in the code of a group ever fails; its scope may be left when `__aexit__` leaves it |
| GroupTheorems.NoMemberRemains | src/anyio/_backends/_asyncio.py:736-774 | when the scope is left every spawned task has returned and been forgotten |
| GroupTheorems.ErrorsOnceEach | src/anyio/_backends/_asyncio.py:801-813 | the collected errors are the host's and each member's, once each, without cancellations |
| GroupTheorems.WhatIsRaised | src/anyio/_backends/_asyncio.py:756-774 | a group of exactly those errors, or the remembered cancellation, or a native one that struck the final checkpoint |
| GroupCancels.RemembersRightOne | src/anyio/_backends/_asyncio.py:748-755 | the exception remembered is an error of the body, else the last cancellation that no scope made, else the first one |
| GroupCases.ErrorsCanBeDropped | src/anyio/_backends/_asyncio.py:756-759 | a concrete run in which a native cancellation at the final checkpoint is raised and a collected error is not |
| GroupTheorems.WhatIsSwallowed | src/anyio/_backends/_asyncio.py:748-772 | without errors, exactly when the scope swallows what is raised; a native cancellation is not replaced by one of a scope |
| GroupTheorems.ErrorsEscape | src/anyio/_backends/_asyncio.py:761-772 | with collected errors the scope swallows iff it swallows cancellations and every atom of every error, of which there is one, is a cancellation made by a scope; so an error of another kind escapes |
| GroupCases.NativeCanBeSwallowed | src/anyio/_backends/_asyncio.py:528-530 | a concrete run in which the group's scope strikes the host, then a native cancellation does, and the exit of the scope swallows the exception with the first in its context |
| GroupTheorems.OnlyNativeStrikesTwice | src/anyio/_backends/_asyncio.py:738-759 | without native cancellation the join is struck at most once, the checkpoint never, and nothing is dropped |
| GroupCancels.HostCancels | src/anyio/_backends/_asyncio.py:731-746 | the group is cancelled once its host left the body with an exception, and once its join was cancelled, before the host waits again |
| GroupCancels.HostMeets | src/anyio/_backends/_asyncio.py:738-759 | a resumed host meets exactly the cancellation that is due, and what that leads to in the join and at the checkpoint |
| GroupCancels.MemberCancels | src/anyio/_backends/_asyncio.py:801-813 | a member that ends with an exception leaves the group effectively cancelled; one that returns does not cancel it |
| GroupCancels.AcceptsUntilClosed | src/anyio/_backends/_asyncio.py:761-761 | the group accepts tasks until `__aexit__` is at its end |
| GroupCancels.SpawnMeans | src/anyio/_backends/_asyncio.py:821-853 | an accepted task is a member in the group's scope that has not started; a refused one leaves no trace |
| GroupTheorems.WaitIsWoken | src/anyio/_backends/_asyncio.py:692-709 | while the host's future is pending, somebody it waits for is a member or has a completion to come |
| GroupTheorems.LastCompletionWakes | src/anyio/_backends/_asyncio.py:696-699 | the last completion finishes the host's future |
| TaskGroups.TaskGroup.Spawn | src/anyio/_backends/_asyncio.py:821-853 | adds the member and makes the one step of the loop, or refuses when the group is not active |
| TaskGroups.TaskGroup.TaskDone | src/anyio/_backends/_asyncio.py:785-813 | forgets the member, collects its error unless it is a cancellation, and makes the two steps on the loop: the removal, and the cancellation of the group iff something was raised and it is not effectively cancelled |
| TaskGroups.TaskGroup.BeginAexit | src/anyio/_backends/_asyncio.py:731-734 | cancels the scope iff an exception came, and collects the host's error |
| TaskGroups.TaskGroup.NextPiece | src/anyio/_backends/_asyncio.py:736-759 | the branches and the loop of the join, and the call that each makes on scopes or loop |
| TaskGroups.TaskGroup.Resumed | src/anyio/_backends/_asyncio.py:740-755 | what a cancelled join remembers and does next |
| TaskGroups.TaskGroup.Finish | src/anyio/_backends/_asyncio.py:761-774 | deactivates the group, decides what is raised, and leaves the scope |
| TaskGroups.EveryMoveGoes | src/anyio/_backends/_asyncio.py:712-853 | in every world of a run the loop accepts every move of the class |
| GroupRuns.MoveKeeps | src/anyio/_backends/_asyncio.py:712-853 | every move of a group, its members and the rest of the program keeps the invariant |
| GroupRuns.ClosingStation | src/anyio/_backends/_asyncio.py:768-774 | at the end of `__aexit__` the loop allows the scope to be left |
| GroupNative.ShieldedIsOutside | src/anyio/_backends/_asyncio.py:570-572 | no delivery from elsewhere visits a shielded scope |
| GroupNative.MoveIsNative | src/anyio/_backends/_asyncio.py:742-746 | every move keeps that only native cancellation gets at a shielded host |
| MemoryStreamTheorems.OneFifo | src/anyio/streams/memory.py:92-126 | accepted minus withdrawn is taken, then buffer, then blocked senders, in acceptance order, each once |
| MemoryStreamTheorems.ShapeTheorem | src/anyio/streams/memory.py:215-225 | the buffer is bounded; blocked senders mean a full buffer; blocked receivers an empty one, no blocked sender and an open sender |
| MemoryStreamTheorems.SendNowaitMeans | src/anyio/streams/memory.py:210-225 | succeeds iff both sides are open and there is a willing receiver or room, and exactly then the item is accepted |
| MemoryStreamTheorems.ResumeSendMeans | src/anyio/streams/memory.py:247-255 | a blocked send's item is withdrawn iff still queued; uncancelled it returns iff the item was taken, and is broken iff not |
| MemoryStreamTheorems.CancelledSendCanBeDelivered | src/anyio/streams/memory.py:247-251 | a concrete run in which a `send` cancelled by a scope alone was delivered |
| MemoryStreamTheorems.HandOffIsReturned | src/anyio/streams/memory.py:118-126 | a hand-off is returned by its `receive()` iff the task was not cancelled natively |
| MemoryStreamTheorems.HandOffCanBeLost | src/anyio/streams/memory.py:118-126 | a concrete run in which a hand-off is lost by a native cancellation |
| MemoryStreamTheorems.QueuedReceiverIsNext | src/anyio/streams/memory.py:215-220 | the oldest willing receiver gets the next item sent, and those before it, all with a cancellation pending, are dropped |
| MemoryStreamTheorems.EndMeansEmpty | src/anyio/streams/memory.py:101-106 | the end is reported iff no sender is open and everything kept was taken |
| MemoryStreamTheorems.EndIsPermanent | src/anyio/streams/memory.py:101-106 | after it nothing is accepted in any continuation |
| MemoryStreamCalls.SendNowaitResults | src/anyio/streams/memory.py:198-225 | when each result of `send_nowait` comes, and where the item goes |
| MemoryStreamCalls.SendMeans | src/anyio/streams/memory.py:241-246 | without room the item joins the end of the line and the call the end of the queue |
| MemoryStreamCalls.ResumeSendLeaves | src/anyio/streams/memory.py:247-255 | what a blocked send leaves behind |
| MemoryStreamCalls.SenderMayGoOn | src/anyio/streams/memory.py:143-157 | a blocked sender waits exactly while its item is queued and a receive end is open, unless cancelled |
| MemoryStreamCalls.ReceiveNowaitMeans | src/anyio/streams/memory.py:80-106 | when each result of `receive_nowait` comes; the item is the oldest one not taken, which is then taken |
| MemoryStreamCalls.ReceiveWakesSender | src/anyio/streams/memory.py:95-99 | the oldest blocked sender goes on and its `send` returns |
| MemoryStreamCalls.ReceiveMeans | src/anyio/streams/memory.py:110-119 | with nothing to give the call joins the end of the queue |
| MemoryStreamCalls.ResumeReceiveMeans | src/anyio/streams/memory.py:118-126 | a blocked receive returns the item it was given, or the end |
| MemoryStreamCalls.ReceiverMayGoOn | src/anyio/streams/memory.py:272-287 | a receiver that no send passed over waits exactly while it is queued and a send end is open, unless cancelled |
| MemoryStreamCalls.CloneMeans | src/anyio/streams/memory.py:257-270 | a clone is one more open end, and a closed end has none |
| MemoryStreamCalls.CloseSendMeans | src/anyio/streams/memory.py:272-287 | the last close lets every queued receiver go on to the end of the stream |
| MemoryStreamCalls.CloseReceiveMeans | src/anyio/streams/memory.py:143-157 | the last close lets every queued sender go on to its error |
| MemoryStreamTheorems.StrandsOnlyIf | src/anyio/streams/memory.py:215-220 | a blocked `receive()` is left out of the queue without an item exactly by a send that passes over it |
| MemoryStreamTheorems.StrandedStays | src/anyio/streams/memory.py:215-220 | no step but a cancellation or its own resumption gets it going again |
| MemoryStreamTheorems.SendCanStrand | src/anyio/streams/memory.py:215-220 | a concrete run that does it, after which every send end is closed |
| MemoryStreamRuns.StepKeeps | src/anyio/streams/memory.py:80-287 | every operation and cancellation keeps the invariant |
| MemoryStreams.StreamState.HandOver | src/anyio/streams/memory.py:215-220 | the loop hands the item to the first receiver without a pending cancellation and drops those before it |
| MemoryStreams.StreamState.AfterSendEvent | src/anyio/streams/memory.py:247-255 | the end of a blocked send, normal or cancelled |
| MemoryStreams.StreamState.AfterReceiveEvent | src/anyio/streams/memory.py:118-126 | the end of a blocked receive |
| MemoryStreams.SendStream.SendNowait | src/anyio/streams/memory.py:198-225 | the new state and the result or error |
| MemoryStreams.SendStream.Send | src/anyio/streams/memory.py:241-246 | after its checkpoint: the same up to the point where it blocks |
| MemoryStreams.SendStream.Clone | src/anyio/streams/memory.py:257-270 | one more open end, or the error |
| MemoryStreams.SendStream.Close | src/anyio/streams/memory.py:272-287 | the last close wakes all receivers |
| MemoryStreams.ReceiveStream.ReceiveNowait | src/anyio/streams/memory.py:80-106 | refills from the oldest sender, then the oldest item or the error |
| MemoryStreams.ReceiveStream.Receive | src/anyio/streams/memory.py:110-119 | after its checkpoint: the same up to the point where it blocks |
| MemoryStreams.ReceiveStream.Close | src/anyio/streams/memory.py:143-157 | the last close wakes all senders |
| LockRuns.OwnerIsUnique | src/anyio/_backends/_asyncio.py:1762-1820 | the tasks that hold the lock, took it and yield, or have a result in their future are exactly the owner |
| LockRuns.HoldersMean | src/anyio/_backends/_asyncio.py:1762-1820 | over every step, a result `Acquired` makes the caller, who did not hold the lock, its holder and owner, and only `release()` ends that |
| LockRuns.AcquireMeans | src/anyio/_backends/_asyncio.py:1762-1784 | when each result of `acquire()` comes, in terms of who has the lock and who queues |
| LockRuns.AcquireNowaitMeans | src/anyio/_backends/_asyncio.py:1796-1805 | the same for `acquire_nowait()` |
| LockRuns.ResumeMeans | src/anyio/_backends/_asyncio.py:1770-1794 | `acquire()` returns iff not cancelled, and then the task is the owner; a cancelled call leaves nothing behind and passes the lock on |
| LockRuns.GrantedReturns | src/anyio/_backends/_asyncio.py:1785-1794 | without native cancellation a granted waiter gets the lock |
| LockRuns.ReleaseMeans | src/anyio/_backends/_asyncio.py:1810-1820 | succeeds for the holder only, never meets a completed future, wakes the oldest waiter that is not cancelled |
| LockRuns.AcquiredInOrder | src/anyio/_backends/_asyncio.py:1764-1820 | acquisitions follow the order of the calls |
| LockRuns.StrandsOnlyIf | src/anyio/_backends/_asyncio.py:1764-1784 | a waiter beside a free lock arises exactly by an `acquire()` that finds cancelled waiters queued |
| LockRuns.AcquireCanStrand | src/anyio/_backends/_asyncio.py:1764-1784 | a concrete run that does it |
| LockRuns.StrandedIsStuck | src/anyio/_backends/_asyncio.py:1796-1820 | nobody acquires while a stranded waiter is left |
| LockRuns.StepKeeps | src/anyio/_backends/_asyncio.py:1762-1820 | every step keeps the invariant, and no future is completed twice |
| Locks.Lock.Acquire | src/anyio/_backends/_asyncio.py:1762-1784 | the fast path, the error, or the queue |
| Locks.Lock.Resume | src/anyio/_backends/_asyncio.py:1770-1794 | the rest of `acquire()` with both cancellation handlers |
| Locks.Lock.AcquireNowait | src/anyio/_backends/_asyncio.py:1796-1805 | takes a free lock without waiters, or the error |
| Locks.Lock.HandOver | src/anyio/_backends/_asyncio.py:1814-1820 | the loop of `release()` |
| Locks.Lock.Release | src/anyio/_backends/_asyncio.py:1810-1820 | `release()` by client code |
| Locks.Lock.Locked | src/anyio/_backends/_asyncio.py:1807-1808 | true iff some task was granted the lock and has not passed it on |
| SemaphoreRuns.PermitsAreConserved | src/anyio/_backends/_asyncio.py:1850-1894 | value, held and granted permits sum to the initial value; the value stays between zero and the maximum; no release raises |
| SemaphoreRuns.HeldMeans | src/anyio/_backends/_asyncio.py:1850-1894 | over every step, a result `Acquired` means one more permit held and a release one less |
| SemaphoreRuns.AcquireMeans | src/anyio/_backends/_asyncio.py:1850-1867 | when each result of `acquire()` comes, in terms of permits left and the queue |
| SemaphoreRuns.AcquireNowaitMeans | src/anyio/_backends/_asyncio.py:1878-1882 | a permit iff one is left, and otherwise `WouldBlock` |
| SemaphoreRuns.ReleaseMeans | src/anyio/_backends/_asyncio.py:1884-1894 | a client's permit goes to the oldest live waiter or back to the value |
| SemaphoreRuns.ReleaseRaises | src/anyio/_backends/_asyncio.py:1884-1886 | an error iff the value is at its maximum |
| SemaphoreRuns.ResumeMeans | src/anyio/_backends/_asyncio.py:1857-1876 | a cancelled call passes a permit on iff it was granted one |
| SemaphoreRuns.GrantedReturns | src/anyio/_backends/_asyncio.py:1868-1876 | without native cancellation a granted call returns with its permit |
| SemaphoreRuns.GrantedInOrder | src/anyio/_backends/_asyncio.py:1850-1894 | calls of `acquire()` are granted in the order in which they were made |
| SemaphoreRuns.ReleasePasses | src/anyio/_backends/_asyncio.py:1884-1894 | a released permit goes to the oldest live waiter, or back to the value |
| SemaphoreRuns.StrandsOnlyIf | src/anyio/_backends/_asyncio.py:1851-1867 | a waiter beside a free permit arises exactly by an `acquire()` that finds cancelled waiters queued |
| SemaphoreRuns.AcquireCanStrand | src/anyio/_backends/_asyncio.py:1851-1867 | a concrete run that does it |
| Semaphores.Semaphore.Acquire | src/anyio/_backends/_asyncio.py:1850-1867 | the fast path or the queue |
| Semaphores.Semaphore.Resume | src/anyio/_backends/_asyncio.py:1857-1876 | the rest of `acquire()` with both cancellation handlers |
| Semaphores.Semaphore.AcquireNowait | src/anyio/_backends/_asyncio.py:1878-1882 | takes a permit without looking at the queue |
| Semaphores.Semaphore.GiveBack | src/anyio/_backends/_asyncio.py:1884-1894 | the check and the loop of `release()` |
| ConditionRuns.WaitLeavesWithLock | src/anyio/_core/_synchronization.py:321-330 | every way out of `wait()` after its release owns the lock, unless a native cancellation strikes the acquisition; a normal return was notified; the removal never fails |
| ConditionRuns.WaitMeans | src/anyio/_core/_synchronization.py:318-322 | blocks iff the caller holds the lock, which it gives back |
| ConditionRuns.ClientsGetTheLock | src/anyio/_core/_synchronization.py:273-294 | to its clients the condition is its lock, step by step and with its results |
| ConditionRuns.AcquiredMayNotify | src/anyio/_core/_synchronization.py:269-276 | a task that got the lock through the condition may notify |
| ConditionRuns.OwnerTaskMeans | src/anyio/_core/_synchronization.py:273-276 | nothing else makes a task the one that may notify, but leaving `wait()` with the lock |
| ConditionRuns.EnteringMeans | src/anyio/_core/_synchronization.py:273-276 | which blocked calls are those of the condition |
| ConditionRuns.QueuedIffUnset | src/anyio/_core/_synchronization.py:318-325 | an event is queued iff it is unset and its call still awaits it |
| ConditionRuns.StaleOnlyByMisuse | src/anyio/_core/_synchronization.py:318-320 | an event nobody awaits is queued exactly by a `wait()` without the lock |
| ConditionRuns.WaitCanLeaveStale | src/anyio/_core/_synchronization.py:318-320 | a concrete state and step that does it |
| ConditionRuns.NotifyMeans | src/anyio/_core/_synchronization.py:296-305 | sets exactly the min(n, waiting) oldest events, or raises for others than the last to acquire |
| ConditionRuns.NotifyAllMeans | src/anyio/_core/_synchronization.py:307-313 | wakes every queued call, or raises |
| ConditionRuns.WokenMeans | src/anyio/_core/_synchronization.py:321-330 | a woken call returns, or will return, as notified iff its task is not interrupted |
| ConditionRuns.SpentOnlyIf | src/anyio/_core/_synchronization.py:299-305 | a notification reaches a cancelled call exactly by a `notify` that takes a cancelled one from the queue, or by a native cancellation after it |
| ConditionRuns.NotifyCanBeSpent | src/anyio/_core/_synchronization.py:299-305 | a concrete run in which that happens while a live call stays queued |
| ConditionRuns.NotifyWakesOldest | src/anyio/_core/_synchronization.py:299-305 | what the loop does to queue and events |
| ConditionRuns.StepKeeps | src/anyio/_core/_synchronization.py:269-330 | every step keeps the invariant of condition and lock |
| Conditions.Condition.Notify | src/anyio/_core/_synchronization.py:296-305 | the loop with its error |
| Conditions.Condition.NotifyAll | src/anyio/_core/_synchronization.py:307-313 | sets every queued event and empties the queue |
| Conditions.Condition.Wait | src/anyio/_core/_synchronization.py:318-322 | after its checkpoint: queues the event, releases, and blocks or raises |
| Conditions.Condition.ResumeWait | src/anyio/_core/_synchronization.py:323-330 | the handler and the start of the shielded acquisition |
| Conditions.Condition.FinishWait | src/anyio/_core/_synchronization.py:328-330 | the end of the shielded acquisition |
| Conditions.Condition.Acquire | src/anyio/_core/_synchronization.py:273-276 | `acquire()` up to the point where it waits: the error, the fast path or the queue of the lock |
| ByteSearch.OffsetFindsTheSame | src/anyio/streams/buffered.py:99-119 | searching from the offset finds the index that searching from zero finds |
| BufferedStreams.BytesAreConserved | src/anyio/streams/buffered.py:35-119 | any sequence of calls, failing ones and ones cancelled while they read included, takes the bytes in order and loses none |
| BufferedStreams.ChunkingDoesNotMatter | src/anyio/streams/buffered.py:56-119 | successful sized and delimited reads do not depend on the chunking |
| BufferedStreams.ExactlyIsExact | src/anyio/streams/buffered.py:56-81 | the first n bytes iff so many come before a cancellation; otherwise interrupted iff cancelled, and else incomplete |
| BufferedStreams.UntilIsDetermined | src/anyio/streams/buffered.py:97-119 | a delimiter that ends within the limit is found; uncancelled calls can differ only if it first ends beyond, and then between that match and `DelimiterNotFound` |
| BufferedStreams.UntilIsExact | src/anyio/streams/buffered.py:97-119 | a delimiter is found iff it ends inside the buffer as it stands when the reader stops to read; the exact outcome otherwise |
| BufferedStreams.UntilWhenClosed | src/anyio/streams/buffered.py:97-119 | on a closed transport the buffer still serves |
| BufferedStreams.LimitDependsOnChunking | src/anyio/streams/buffered.py:97-119 | a concrete input that is found in one chunking and not in another |
| BufferedStreams.BufferedByteReceiveStream.Receive | src/anyio/streams/buffered.py:35-54 | the buffer's first bytes, exactly as many as asked for or all; with an empty buffer the next bytes of the transport, the rest kept; or the error |
| BufferedStreams.BufferedByteReceiveStream.ReceiveExactly | src/anyio/streams/buffered.py:56-81 | the first n bytes iff so many come before the end or a cancellation, and otherwise nothing is lost |
| BufferedStreams.BufferedByteReceiveStream.ReceiveUntil | src/anyio/streams/buffered.py:83-119 | exactly the outcome that `UntilIsExact` describes, and where buffer and transport are left |
| WorkerProtocol.FrameRoundTrip | src/anyio/to_process.py:61-71 | reading a printed reply whose header is within the limit gives it back and leaves what follows, for any payload and any chunking |
| WorkerProtocol.HeaderRoundTrip | src/anyio/to_process.py:249-250 | the printed header parses to its status and length and has no newline |
| WorkerProtocol.HeaderMeans | src/anyio/to_process.py:65-71 | a header is accepted iff it is one of the two words, one space and digits, and then with that status and length |
| WorkerProtocol.NumberTakes | src/anyio/to_process.py:71-71 | only non-empty strings of digits are lengths |
| WorkerProtocol.ReplyMeans | src/anyio/to_process.py:61-90 | when the caller gets a value, an error, a cancellation or a broken worker |
| WorkerProtocol.HeaderFits | src/anyio/to_process.py:64 | the header of a payload of fewer than 10^39 bytes is within the limit of 50 bytes |
| WorkerProtocol.NumberOfDecimal | src/anyio/to_process.py:65-71 | the printed length reads back as itself |
| WorkerProtocol.AnswerArrives | src/anyio/to_process.py:237-250 | the caller gets how the command ended in the worker |
| WorkerProtocol.LockstepRecoversAll | src/anyio/to_process.py:112-118 | over every sequence of commands whose reply headers are within the limit each reply arrives and each buffer is empty afterwards |
| WorkerProtocol.ReadReply | src/anyio/to_process.py:61-90 | the reading half of `send_raw_command` |
| SocketState.BytesInOrder | src/anyio/_backends/_asyncio.py:1151-1167 | returned bytes, then the queue, are the received bytes; a non-empty queue means that the event is set, and a set event means queued bytes, an end or a loss |
| SocketState.NoLostWakeup | src/anyio/_backends/_asyncio.py:1219-1228 | a reader that waits has nothing to read and no end to see, and the transport was asked to read |
| SocketState.ReceiveMeans | src/anyio/_backends/_asyncio.py:1232-1252 | the next bytes while there are any; the end only after the peer's end or the loss, with every byte returned; a cancelled call takes nothing and leaves the transport reading, a woken one pauses it |
| SocketState.ReceiveStarts | src/anyio/_backends/_asyncio.py:1219-1230 | when a reader is refused, waits or yields |
| SocketState.ReportsMean | src/anyio/_backends/_asyncio.py:1151-1167 | what each callback of the transport notes, and that it lets the reader go on |
| SocketState.CancellationsMean | src/anyio/_backends/_asyncio.py:1227-1227 | a waiting reader that is cancelled goes on and ends as interrupted |
| SocketState.CloseMeans | src/anyio/_backends/_asyncio.py:1279-1288 | closing is noted unless the transport closes already |
| SocketStreams.SocketStream.Receive | src/anyio/_backends/_asyncio.py:1219-1230 | the guard, whether the reader waits or yields, and that a waiting one resumes the transport |
| SocketStreams.SocketStream.ResumeReceive | src/anyio/_backends/_asyncio.py:1227-1252 | the rest of `receive()`, with the pause of the transport |
| SocketStreams.StreamProtocol.PopChunk | src/anyio/_backends/_asyncio.py:1232-1250 | splits an oversized chunk and clears the event when nothing is left |
| IdleWorkers.PruneIsExact | src/anyio/to_process.py:124-131 | on a sorted deque, stopping at the first young entry drops exactly the expired ones |
| IdleWorkers.PruneKeeps | src/anyio/to_process.py:124-131 | pruning keeps exactly the workers idle for less than 300 seconds |
| PoolState.PoolStaysInOrder | src/anyio/to_process.py:108-179 | over every interleaving of calls the deque is duplicate-free, sorted, and lists workers that no call uses |
| PoolState.WorkersAreAccountedFor | src/anyio/to_process.py:108-179 | over every interleaving each worker is idle or used by a call, and not both |
| PoolState.FinishMeans | src/anyio/to_process.py:177-179 | a process that is still a worker becomes the youngest idle one, which the next call reuses |
| PoolState.ReservedIsFree | src/anyio/to_process.py:112-139 | a call gets a process that no other call uses |
| PoolState.GoneForGood | src/anyio/to_process.py:61-90 | a process that has left the workers never comes back |
| PoolState.ReserveMeans | src/anyio/to_process.py:112-139 | the most recently idle live process is reused; exactly the dead ones met and the expired ones leave the pool |
| PoolState.PickIsMostRecent | src/anyio/to_process.py:112-114 | the popping loop |
| ProcessPools.ProcessPool.Reserve | src/anyio/to_process.py:112-139 | which entries the nested loops take from the pool, without a failing removal |
| ProcessPools.ProcessPool.PruneIdle | src/anyio/to_process.py:122-131 | which entries the inner loop takes from the pool |
| ProcessPools.ProcessPool.Finish | src/anyio/to_process.py:177-179 | a process that is still a worker becomes idle |

## Left out

- The Trio backend, files, text, TLS and stapled streams, sockets other than the receiving side of stream sockets, DNS, signals: wrappers and plumbing around libraries.
- `TaskGroup.start`, task names and status futures.
- Spawns into a task group by tasks that are neither its host nor its members.
- `CapacityLimiter`: the number of borrowers is checked before it is updated, so its obvious invariant does not hold between the two.
- Worker threads: their idle queue is pruned by the same loop as that of the processes.
- Python before 3.11, and the change of 3.13 by which `uncancel()` also clears a due cancellation.
- Sends on sockets, datagrams and raw sockets; the read buffer of the operating system.
- WorkerProtocol.ReadReply: does not model spellings of the length other than plain digits, which `int()` would also accept; the worker prints none.
- Killing and awaiting worker processes, the `READY` handshake, pickling: payloads are opaque bytes, and a process is alive or not.
- Fairness: that callbacks that are scheduled do run is not stated; what is proved is that they are scheduled.
- Weak references, reference cycles, statistics objects, typed attributes.
- CancelScopes.CancelScope.Enter: asks for a scope that is active or was never entered, because re-entry is what the error message of `__enter__` forbids; the code accepts a scope that was left before.
- CancelScopes.CancelScope.Exit: asks that the scope is nobody's home, because the source leaves that to `TaskGroup`; `StructuredMayLeave` and `GroupTheorems.NeverStuck` discharge it for plain scopes and for groups.
- CancelScopes.CancelScope.Cancel: does not model that the timer is dropped; a deadline is an input of `Enter`.
- CancelScopes.CancelScope.Uncancel: does not model the branch for a scope without a host, which `__exit__` cannot reach, since it checks the host first.
- TaskGroups.TaskGroup.Spawn: says which steps the loop makes, and the world is the loop after them, but the class does not call methods of loop and scopes, so aliasing between a group and those objects is not captured. `_wait` is a station of the class.
- TaskGroups.TaskGroup.TaskDone: gives its steps of the loop like `Spawn`.
- TaskGroups.TaskGroup.BeginAexit: gives its steps of the loop like `Spawn`.
- TaskGroups.TaskGroup.NextPiece: gives its steps of the loop like `Spawn`.
- TaskGroups.TaskGroup.Resumed: gives its steps of the loop like `Spawn`.
- TaskGroups.TaskGroup.Finish: gives its steps of the loop like `Spawn`.
- MemoryStreams.SendStream.Send: starts after the leading checkpoint, where a cancelled call has done nothing.
- MemoryStreams.ReceiveStream.Receive: starts after the leading checkpoint, likewise.
- Conditions.Condition.Wait: starts after the leading checkpoint, likewise.
- Conditions.Condition.Acquire: ends where the lock waits; `ResumeAcquire` is the rest.
- ProcessPools.ProcessPool.Reserve: does not kill or await the processes that leave the pool.
- ProcessPools.ProcessPool.PruneIdle: does not kill the expired processes.
