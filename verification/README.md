# LinuxThreads, modelled and proved in Dafny

LinuxThreads implements POSIX threads over `clone` and one wake-up primitive: a blocked,
non-queued signal that `restart` sends and `suspend` waits for. This project models its
concurrent protocols as step systems and its pointer structures as classes, and proves what
they promise for every interleaving of any number of threads.

| part | files | form |
|---|---|---|
| Semaphores | `Words`, `Semaphore`, `SemaphoreWakeups`, `SemaphoreCounter`, `SemaphoreCalls`, `SemaphoreCancel`, `SemaphoreCancelRaces` | every load, store, compare-and-swap, suspend and restart is a step |
| Mutexes and conditions | `Locks`, `LocksCore`, `LocksInvariant`, `LocksTheorems`, `LocksCalls`, `LocksLimits` | taking a spinlock, the statements under it, releasing it, each restart and each suspend are steps |
| Queues | `WaitQueue`, `SharedLink` | classes over `p_nextwaiting`, refined to sequences; two queues over the same link |
| Life of threads | `Lifecycle`, `LifecycleInvariant`, `LifecycleTheorems`, `LifecycleDetach`, `LifecycleReclaim`, `LifecycleWindow` | create, exit, join, detach, and the manager with its pipe and signal, as steps |
| Live ring, segments, addresses | `LiveRing`, `StackSegments`, `LifecycleStructures`, `Addresses` | classes over links and over an array, driven by the manager's steps; bit arithmetic |
| Cancellation and cleanup | `Cleanup`, `CleanupStack` | statements with requests arriving between them; a class over the linked buffers |
| All waiting together | `Joint`, `JointViews`, `JointRuns`, `JointTheorems`, `JointLimits` | the three step systems over one pending signal per thread |
| Bounded buffers | `Circular`, `SemBuffer`, `SemBufferRuns`, `MonitorBuffer`, `MonitorBufferRuns`, `MonitorBufferTheorems` | the two producer-consumer examples, as programs over counters and a monitor, and over the real primitives |
| Shared notions | `Options`, `Seqs` | missing values; sequences without repetition |

A step system has a `State`, `Enabled`, `Step` and `EventOf`; `Legal(s, ms)` says that the moves
`ms` can be made from `s`, `Exec` gives the state they lead to and `Trace` the events. A theorem
about `Exec(s0, ms)` for all `ms` is about every run. The semaphore and lock theorems rest on an
invariant over the state and a witness that tells where each waiting thread is; what mutexes and
spinlocks exclude rests on a smaller invariant that holds in all runs; the life-cycle theorems rest
on an invariant over the state alone. The joint theorems project a run of the whole library to a run
of each part. What a call has done when it returns is stated over a record that `Latest` (or
`LastCall`) reads off the run: the call's arguments, the state it was made in, and what its caller
found, sent and waited for on the way. The kernel's answers (`clone`, `mmap`, `malloc`, `waitpid`, readiness of the pipe,
expiry of a time-out, arrival of a cancellation) are parameters of the moves or methods, so that
every answer is covered.

Where the code does not keep a property, a lemma gives a run that breaks it and another lemma
says exactly when it holds: `PostRefusal`, `LinkNullIff` with `StaleLink`, `UnlinkExact`,
`HeadSwapExact` and `RightIffCareful` with `TwoCancellersRelink`, `HeadReadTooEarly` and
`PostThenCutOff`, `TimeoutExact` with `TimeoutRace`, `HolderOffQueueExact` with `QueuedHolder`, `JoinResumesExactly` with `JoinTooEarly`,
`InvalidKindLeaks`, `SecondFree` with `FreedTwice`, `RunsTwice`, `Enqueue`, `Do` and `WhileOnBoth`
with `StrangerBehind`, `LockerBehind` and `WaiterBehind`.

Three differences between the code and its own words: the manual lets `sem_post` fail only above
`SEM_VALUE_MAX`, but the code compares the encoded word and fails at half of it (`PostRefusal`); the
fork reset writes `p_nextlive` twice and never `p_prevlive` (`Reset`); the comment in `sem_wait`
says that its race does not matter because the exiting thread is no longer reachable from the
semaphore, and that holds only under the condition of `UnlinkExact`.

## Model

| member | source | states |
|---|---|---|
| Semaphore.SemInit | semaphore.c:58-72 | succeeds exactly for unshared values up to SEM_VALUE_MAX, and the word decodes to the value |
| SemaphoreWakeups.StepKeepsInv | semaphore.c:80-192 | every step of wait, trywait, post and getvalue keeps the invariant: each waiting thread has one place, chains are linked, disjoint and without repetition, a poster owns the rest of the chain it detached |
| SemaphoreWakeups.NoLostWakeup | semaphore.c:80-102 | in every reachable state a suspended thread is on the chain of its semaphore, or on the rest of exactly one poster's chain, or has a restart pending; nobody else is on a chain; chains end in 1; a positive semaphore has no chain |
| SemaphoreWakeups.StepShortensWalk | semaphore.c:182-190 | only the poster's own steps shorten its walk, by one each, whatever the others do |
| SemaphoreCounter.RefinesCounter | semaphore.c:80-204 | the events of every run are those of an atomic counter starting from the initial value, and its value is the decoded word, although a swap may succeed on a word that changed and changed back |
| SemaphoreCalls.CallReturns | semaphore.c:74-204 | when a call returns, its steps have shown one answer, decided by the value at one moment of it: a wait took a unit that was there, a trywait took one if and only if there was one and never waited, a post counted up unless the semaphore was full, getvalue reported the value; a post that found waiters has restarted exactly these, once each, in chain order |
| SemaphoreCalls.AnswerIsReturn | semaphore.c:80-192 | until a wait or trywait returns it has taken nothing and refused nothing; a post that has counted up and not returned is restarting the threads it found |
| SemaphoreCounter.Conservation | semaphore.c:47-56 | value + completed waits and trywaits = initial value + successful posts, in every run |
| SemaphoreCounter.OneRestartPerWait | restart.h:19-39 | suspends, restarts and resumes of a thread balance: one restart per wait, never two pending |
| SemaphoreCounter.NobodyStranded | semaphore.c:159-192 | at rest no thread waits on a semaphore with a positive value |
| SemaphoreCounter.PostTerminates | semaphore.c:184-189 | a poster that has detached a chain returns after a number of its own steps that is fixed at that moment, in every continuation |
| SemaphoreCounter.PostRefusal | semaphore.c:170-174 | sem_post refuses exactly from half of SEM_VALUE_MAX on; this agrees with the promised limit exactly below that and at SEM_VALUE_MAX |
| SemaphoreCounter.LinkNullIff | semaphore.c:91-99 | outside a wait a thread's link is null if and only if it stored no link since its last restart |
| SemaphoreCounter.StaleLink | semaphore.c:85-99 | a run in which sem_wait returns and the link enqueue expects to be null is not |
| SemaphoreCancel.CancelRemovesOnlyCaller | semaphore.c:105-135 | with any pushes, takes and posts without waiters in between, the cancelled thread leaves exactly the old chain without it, in order, below the new arrivals, wherever it stood |
| SemaphoreCancelRaces.UnlinkExact | semaphore.c:126-130 | with any number of cancellers: the last store of the walk leaves exactly the chain without its thread if and only if it goes to the thread's predecessor on the chain and stores its present link; off the chain, if and only if it changes no link of it |
| SemaphoreCancelRaces.HeadSwapExact | semaphore.c:108-117 | the swap at the head does so if and only if the link that was read is still the thread's link |
| SemaphoreCancelRaces.CancelsRemoveOnlyThemselves | semaphore.c:105-135 | with any number of cancellers, pushes, takes and posts without waiters: as long as these conditions hold at every last write, the chain is exactly the threads that were on it or joined it and have not exited, in order |
| SemaphoreCancelRaces.RightIffCareful | semaphore.c:105-135 | over all such runs, the chain is right after every move if and only if every last write met its condition |
| SemaphoreCancelRaces.TwoCancellersRelink | semaphore.c:123-133 | a run of two cancellers after which an exited thread is still on the chain |
| SemaphoreCancelRaces.HeadReadTooEarly | semaphore.c:108-117 | a run in which the swap of a canceller makes an exited thread the head |
| SemaphoreCancelRaces.PostThenCutOff | semaphore.c:118-133 | a run from the chain a, t in which a post walks the chain between the search of t and its store, and the store cuts a waiting thread off every chain |
| LocksCore.StepKeepsCore | mutex.c:54-152 | every step, a time-out that races with a signal included, keeps: spinlocks exclude, the count of a mutex is the depth of its one holder, and who is about to unlock is inside |
| LocksInvariant.StepKeepsInv | mutex.c:54-152 | every step of lock, trylock, unlock, wait, timed wait, signal and broadcast keeps the invariant, a time-out that races with a signal excepted |
| LocksTheorems.MutualExclusion | mutex.c:54-143 | in every run, at most one thread is inside a mutex; the count is its nesting depth; a recursive mutex names it whenever the count is positive; a fast one counts to one |
| LocksTheorems.LockExact | mutex.c:54-123 | in every run, a lock or trylock under the spinlock enters the mutex once more if and only if it is free, or recursive and already held by the caller; otherwise a lock goes to the end of the queue and a trylock changes nothing |
| LocksTheorems.HolderNotRefused | mutex.c:100-115 | in every run, a thread inside a recursive mutex is not suspended on it or about to be; without a racing time-out it is not on its queue either |
| LocksTheorems.HolderOffQueueExact | mutex.c:88-123 | in every run, a holder of a recursive mutex is never on its queue if and only if nobody ever gets it while on its queue |
| LocksLimits.QueuedHolder | condvar.c:128-144 | a run, with a time-out that races with a signal, in which a thread holds a recursive mutex and is on its queue |
| LocksCalls.CallReturns | mutex.c:54-152 | in every run, when a call returns: a lock has entered the mutex once more, and waited if and only if it first found it taken; a trylock has entered it if and only if it found it open; an unlock has left it once and, if for the last time, restarted the first waiter; a wait has joined the condition's queue and is as deep in the mutex as before; `Signal(c)` has restarted the first thread queued while it held the spinlock, `Broadcast(c)` all of them in order; no other mutex changed, nobody else was restarted |
| LocksCalls.WakesExactlyTheQueued | condvar.c:168-196 | from any moment at which a call of broadcast has got the spinlock until it returns, whatever the others do, it restarts exactly the threads then queued, in order, and no other; a call of signal the first of them; no thread is queued twice unless a time-out raced with a signal |
| LocksTheorems.SpinlockExclusion | spinlock.h:18-30 | in every run, no two threads are between acquire and release of the same spinlock |
| LocksTheorems.NoLostWakeup | condvar.c:51-63 | from the enqueue, before the mutex is released, until the suspend returns, a waiter is on the one queue it waits on, or owed a restart by exactly one thread, or has it pending |
| LocksTheorems.NoStrandedWaiter | mutex.c:92-123 | whenever a mutex is free and has waiters, a thread that an unlock took off its queue, and that has not looked at the mutex since, is owed its restart, has it pending or is on its way to look, barging lockers and trylockers included |
| LocksTheorems.RestIsJustified | mutex.c:117-150 | at rest every thread that is not idle sleeps on a condition, or on a mutex that somebody holds, somebody else if the mutex is recursive |
| LocksTheorems.OneRestartPerWait | restart.h:19-39 | a wait that does not time out is sent exactly one restart, and each restart ends exactly one wait |
| LocksTheorems.FirstInFirstOut | condvar.c:168-196 | what ever joined a queue is what was served, in order, followed by what is on it |
| LocksTheorems.SendsWhatItTook | condvar.c:168-196 | in every run, a thread restarts, once each and in order, exactly what it took off queues; what is missing it still owes |
| LocksLimits.TimeoutExact | condvar.c:136-144 | a timed-out waiter leaves no unaccounted restart behind if and only if it is still queued when it looks |
| LocksLimits.TimeoutRace | condvar.c:128-144 | a run in which a signaller has dequeued it before it looks |
| LocksLimits.InvalidKindLeaks | mutex.c:79-81 | lock, trylock and unlock leave the spinlock taken by nobody if and only if the kind is invalid |
| LocksLimits.LeakBlocksForever | mutex.c:54-116 | from then on no run lets a thread that locks, trylocks or unlocks past that spinlock |
| LocksLimits.RelativeTimeExact | condvar.c:157-165 | the relative time is a proper timespec of exactly the remaining length, and the call fails at once if and only if the deadline has passed |
| WaitQueue.Queue.Enqueue | queue.h:24-34 | appends; the links are right afterwards if and only if the link of the thread was clear |
| WaitQueue.Queue.Dequeue | queue.h:36-46 | takes the first thread and clears its link, or null on an empty queue |
| WaitQueue.Queue.Remove | condvar.c:210-229 | deletes a member at any position and clears its link, keeping head and tail right, or changes nothing if it is absent |
| WaitQueue.Queue.Bypass | condvar.c:222-226 | linking past the successor of an item removes exactly that successor |
| WaitQueue.RestartAll | condvar.c:194-194 | the dequeuing loop ends having taken the whole queue in order, links cleared |
| WaitQueue.Broadcast | condvar.c:186-194 | empties the queue and wakes exactly its threads, in order, when nobody touches their links in between |
| WaitQueue.Perform | queue.h:24-46 | any mix of enqueues, dequeues and removals on the pointer queue takes and leaves what the sequence functions say, and leaves every thread outside with a clear link, so that it may enter again |
| WaitQueue.Fifo | queue.h:24-46 | of what `Perform` takes and leaves: for any mix of enqueues, dequeues and removals, what was taken followed by what is left is in the order of entering |
| WaitQueue.NothingLost | queue.h:24-46 | of what `Perform` takes and leaves: a thread that is not removed is neither lost nor duplicated by any mix of calls |
| SharedLink.Do | queue.h:24-46 | of two queues over one link, for any number of threads on both: both are right after a call if and only if it is harmless, that is, if a thread enters either, nobody is on both and one that enters the second from the first is last there |
| SharedLink.DoAll | queue.h:24-46 | for any mix of calls the last of which is the first that may do harm: both queues are right if and only if it does not, and each takes out and leaves behind what it would without the other |
| SharedLink.WhileOnBoth | condvar.c:61-72 | a cancelled condition waiter that queues on the mutex leaves both queues right, for as long as it is on both, if and only if it is the last waiter of the condition and nobody enters either queue meanwhile |
| SharedLink.RelockWhileQueued | condvar.c:61-72 | at the moment of the enqueue, the mutex's queue is right if and only if it is the last waiter |
| SharedLink.StrangerBehind | condvar.c:61-72 | a run after which the mutex's queue leads on to a waiter of the condition: the relocking waiter was not last |
| SharedLink.LockerBehind | condvar.c:61-72 | it was last, a locker comes, and the condition's queue leads on to the locker |
| SharedLink.WaiterBehind | condvar.c:61-72 | it was last, a waiter comes, and the mutex's queue leads on to the waiter |
| SharedLink.BroadcastAmid | condvar.c:186-194 | while others enter, take and leave the queue between its dequeues, threads it has woken included, broadcast wakes exactly the threads queued when it took its copy, in order, and the queue holds what the others made of it |
| LifecycleInvariant.StepKeepsInv | manager.c:90-155 | every step of every thread, of the manager and of its signal keeps the invariant, whatever the clients join or detach |
| LifecycleTheorems.ValueKept | join.c:44-56 | the value of a terminated thread is the argument of its call of pthread_exit, although the manager parks thread identities in the same field |
| LifecycleTheorems.JoinDelivers | join.c:75-108 | a join succeeds only for the thread the caller named, after that thread terminated, and with the argument of its call of pthread_exit |
| LifecycleTheorems.CallReturns | join.c:75-154 | a join of oneself fails at once and changes nothing; a create returns with its answer; an exit does not return; a join of another thread delivers the value that thread gave to pthread_exit, or fails because it is detached or joined; a detach leaves it detached or joined |
| LifecycleTheorems.JoinerNotForgotten | join.c:52-56 | each thread has at most one waiter, and once the target has terminated its restart is pending or about to be sent by a target that nothing blocks |
| LifecycleTheorems.CreateReturnsAnswer | pthread.c:226-240 | pthread_create returns the manager's latest answer to the caller, and that is the answer to this very request: the answers are one more than the returns before |
| LifecycleTheorems.AnswersWithBirth | manager.c:122-131 | the manager answers a create with the thread its clone for that request made, or with the failure of that clone |
| LifecycleTheorems.MadeAsAsked | manager.c:241-275 | that thread is new, runs, is neither terminated nor joined, and is detached if and only if the caller of pthread_create asked for it |
| LifecycleTheorems.OneRestartPerWait | manager.c:123-131 | each wait in create, join or the main thread's exit is sent exactly one restart |
| LifecycleTheorems.DeadAreNoticed | manager.c:110-113 | an unreaped dead child implies the flag, the pending signal or the reaping loop; the ring holds exactly the unreaped threads |
| LifecycleTheorems.MainReleasedAlone | manager.c:142-151 | the manager ends only by restarting the waiting main thread, once, when it is alone in the ring and all others are reaped |
| LifecycleTheorems.MainNotForgotten | manager.c:346-353 | while the main thread waits, its request is queued, or others live, or the manager is about to look; it does not leave before |
| LifecycleDetach.AsksOnce | join.c:128-154 | for all clients: of all detaches of a thread at most one ever asks for it to be freed, and none while a joiner is registered |
| LifecycleReclaim.StepKeepsBooks | manager.c:322-389 | every step keeps the books of claims: who holds the right to have a thread freed, at most one request per thread, and the exact number of frees |
| LifecycleReclaim.Reclamation | manager.c:307-318 | with each thread claimed once and no detach between termination and the mark p_exited, a segment is freed at most once, after its process was reaped, and no later step of anybody touches its descriptor |
| LifecycleReclaim.TouchesNoMore | manager.c:307-318 | a step leaves alone the descriptor, the count of frees and the pending restart of every thread outside the set that `Reclamation` speaks of |
| LifecycleReclaim.DependsOnNoMore | manager.c:307-318 | and does and reports the same whatever the descriptor of such a thread contains |
| LifecycleReclaim.NothingLeaks | join.c:109-154 | a claimed thread whose process is reaped, with the call about it over and no request left, has been freed |
| LifecycleReclaim.SecondFree | manager.c:377-389 | with each thread claimed once, a segment is freed a second time exactly when the manager serves, after the mark, the request of a detach from before it; never a third time |
| LifecycleWindow.FreedTwice | join.c:143-154 | a run with one single detach after which the segment has been freed twice |
| LifecycleStructures.DriveRing | manager.c:291-334 | along every run of the life cycle, for all clients, the linked ring the manager works on holds exactly the live threads, each once, the main one first, with all links right |
| LifecycleStructures.DriveSegments | manager.c:207-318 | with each thread claimed once and no detach in the window, along every run the owned segments are exactly those of the threads made and not freed, one each; this fails only if some clone finds no segment |
| LiveRing.Ring.Insert | manager.c:291-299 | the new thread stands behind the main one and all links of the ring are right, also those a fork left stale |
| LiveRing.Ring.Unlink | manager.c:333-334 | exactly that thread leaves the ring, all other links right |
| LiveRing.Ring.Find | manager.c:327-331 | the first thread with that pid besides the main one, or null if and only if there is none |
| LiveRing.Ring.Remove | manager.c:327-334 | that thread leaves the ring; if there is none the ring is unchanged |
| LiveRing.Ring.KillAll | manager.c:393-404 | signals every thread but the main one, once each, and the main one if asked |
| LiveRing.Ring.SignalOthers | manager.c:418-423 | signals the ring from behind the issuing thread around to it |
| LiveRing.BehindIsTheRest | manager.c:412-423 | that is every other member, exactly once |
| LiveRing.Ring.Reset | pthread.c:344-366 | one thread, alone in a ring on which all operations work, with a stale backward link |
| StackSegments.Allocator.Grow | manager.c:159-178 | 128 or twice as many marks; the old ones kept, the new ones clear |
| StackSegments.Allocator.NextFree | manager.c:219-225 | the lowest clear mark, growing as long as memory is granted; fails only if all marks are set |
| StackSegments.Allocator.Create | manager.c:207-275 | takes the lowest free mappable segment; marked are the owned and the reserved ones; segments that cannot be mapped stay reserved; a failed clone gives its segment back |
| StackSegments.Allocator.Free | manager.c:307-318 | gives exactly that segment back |
| Addresses.OrBits | internals.h:202-202 | the model's bitwise or, bit by bit |
| Addresses.AndNotBits | pthread.c:145-145 | the model's masking, bit by bit |
| Addresses.SelfRecovers | internals.h:192-202 | for every power-of-two stack size, thread_self yields the descriptor of segment k if and only if the stack pointer lies in segment k and not on the manager's stack |
| Addresses.SegThreadInverts | manager.c:43-46 | SEG_THREAD inverts THREAD_SEG |
| Addresses.FreesTheSegment | manager.c:314-316 | the unmapped range is exactly segment k; what create mapped and the descriptor lie inside it |
| Addresses.SegmentsDisjoint | manager.c:35-46 | no address is in two segments |
| Addresses.InitialBos | pthread.c:139-145 | the base is aligned and two to three stack sizes below the frame |
| Cleanup.DeferringAlike | cancel.c:94-118 | push_defer and pop_restore have the same runs as set-deferred, push, pop, set-type, for every nesting and wherever requests arrive: handlers, order, type and exit |
| Cleanup.Completes | cancel.c:76-118 | a run without exit restores handlers and saved types, runs exactly the handlers to be executed, inner before outer, and a deferring bracket restores the type |
| Cleanup.Interrupted | cancel.c:119-125 | an interrupted run has run what was executed so far, then the open brackets from the inside, then the handlers linked before |
| Cleanup.RequestsActedUpon | cancel.c:56-66 | a passed cancellation point leaves no request pending while enabled; neither does a set function, or the end of a deferring bracket, while the type is asynchronous |
| Cleanup.SetReturns | cancel.c:30-74 | a set function that returns has stored what it was given and changed nothing else; testcancel changes nothing; a request may have arrived and none is dropped |
| Cleanup.SetExits | cancel.c:30-74 | a pending request ends the thread in a set function whose new settings are enabled and asynchronous, and in testcancel if enabled, with all handlers run; it does not if neither the settings before nor those after allow it |
| Cleanup.RunsTwice | cancel.c:86-92 | a handler that pop executes can run a second time if and only if cancellation is enabled and asynchronous then |
| Cleanup.DeferredRunsOnce | cancel.c:106-118 | in a deferring bracket whose body leaves the type alone it runs once, wherever requests arrive |
| CleanupStack.Thread.PerformCleanup | cancel.c:119-125 | the loop runs the linked handlers, innermost first |
| CleanupStack.Thread.ExitThread | join.c:34-39 | resets the flag and runs the handlers, as the statement model has it |
| CleanupStack.Thread.Push | cancel.c:76-84 | the buffer is the innermost one, with the routine given, as the statement model has it |
| CleanupStack.Thread.Pop | cancel.c:86-92 | runs the handler if and only if asked, then unlinks it |
| CleanupStack.Thread.PushDefer | cancel.c:94-104 | the type is deferred afterwards and the old one is in the buffer; is the statements save, defer, link |
| CleanupStack.Thread.PopRestore | cancel.c:107-118 | the type is the one in the buffer, and the thread exits, with the remaining handlers run, if and only if a request is pending, enabled and asynchronous then; is the statements run, unlink, restore, check |
| CleanupStack.Thread.SetCancelType | cancel.c:47-59 | stores the type and returns the old one; the thread exits, with all handlers run, if and only if a request is pending, enabled and the new type asynchronous |
| CleanupStack.Thread.SetCancelState | cancel.c:30-45 | stores the state and returns the old one; the thread exits if and only if a request is pending, the new state enabled and the type asynchronous |
| CleanupStack.Thread.TestCancel | cancel.c:68-74 | the thread exits, with all handlers run, if and only if a request is pending and enabled |
| JointRuns.OwnRunMerges | restart.h:19-39 | as long as no suspend finds a restart of another system, racing time-outs included, each of the three systems makes a run of its own, and the shared pending set is theirs thrown together |
| JointRuns.RunMerges | restart.h:19-39 | every run of all three systems over one pending bit per thread in which no time-out races with a signal is of that kind |
| JointTheorems.OneBitPerThread | restart.h:19-39 | the pending restarts are the disjoint union of those of the three systems, each for a wait of the system that sent it; no thread has two waits outstanding |
| JointTheorems.OneRestartPerWait | restart.h:19-39 | waits, restarts, ended suspends and time-outs balance over the joint run, in any mix of semaphores, mutexes, conditions, creates, joins and exits |
| JointTheorems.EndedByItsOwn | restart.h:25-39 | whatever ends a suspend, the latest restart the thread was sent by any system was sent by this one |
| JointTheorems.JoinDelivers | join.c:75-108 | among the other systems too, as long as no suspend finds a restart of another system, a join delivers, for the thread it named, the argument of that thread's call of pthread_exit |
| JointTheorems.LockCallReturns | mutex.c:54-152 | and a call of a mutex or condition function has done what `LocksCalls.CallReturns` says when it returns |
| JointTheorems.SemCallReturns | semaphore.c:74-204 | and a call of a semaphore function has given the one answer that `SemaphoreCalls.CallReturns` says |
| JointTheorems.JoinResumesExactly | join.c:90-96 | up to the first suspend that finds a restart of another system: a suspended join that resumes finds its target terminated if and only if the life cycle's own restart is pending for it or the target is about to send it, whatever else is pending |
| JointLimits.JoinTooEarly | condvar.c:136-144 | a run in which the restart left over from a time-out that raced with a signal ends a pthread_join, which succeeds although its target is running |
| SemBuffer.CapacityAndOrder | Examples/ex5.c:22-58 | the two semaphores and the operations in progress always total BUFFER_SIZE - 1; the output is a prefix of the input |
| SemBuffer.NeverStuck | Examples/ex5.c:32-58 | all accesses are in bounds, only the semaphores block, and never both threads |
| SemBufferRuns.Refines | Examples/ex5.c:32-58 | the program over the real semaphores refines the program over counters: same buffer, values and counts |
| SemBufferRuns.OneValuePerCall | Examples/ex5.c:32-58 | every call of put stores its argument, once, and every call of get loads one value |
| SemBufferRuns.CapacityAndOrder | Examples/ex5.c:22-58 | over the real semaphores, what comes out is, in order, the beginning of the arguments of put, and the buffer holds at most BUFFER_SIZE - 1 values |
| SemBufferRuns.SleepIsJustified | Examples/ex5.c:32-58 | a producer sleeps, while the consumer is outside get, only at a full buffer; a consumer, while the producer is outside put, only at an empty one; never both |
| MonitorBuffer.StepKeepsInv | Examples/ex2.c:34-69 | every step of any number of producers and consumers keeps the invariant |
| MonitorBuffer.NobodyStranded | Examples/ex2.c:34-69 | while consumers wait, items are at most the consumers woken or about to be; while producers wait, free slots are at most the producers so; values come out in the order they went in |
| MonitorBuffer.RestIsJustified | Examples/ex2.c:38-59 | threads are stuck only at an empty or a full buffer, and never both kinds |
| MonitorBufferRuns.StepSim | Examples/ex2.c:34-69 | every step of the program over the real mutex and conditions is a step of the monitor program or none at all |
| MonitorBufferTheorems.Refines | Examples/ex2.c:34-69 | so every run of it ends like a run of the monitor program, with the same buffer, values and queues, and its locks make a run of mutex.c and condvar.c |
| MonitorBufferTheorems.CapacityAndOrder | Examples/ex2.c:34-69 | over the real mutex and conditions, the output is a prefix of the input and the buffer holds at most BUFFER_SIZE - 1 values |
| MonitorBufferTheorems.OneValuePerCall | Examples/ex2.c:34-69 | what a thread has put are the arguments of its calls of put, in order and once each, and every call of get loads one value |
| MonitorBufferTheorems.KeepsTheRules | Examples/ex2.c:34-69 | put and get unlock and wait only while they hold the mutex and stay inside the array, so a thread is held up only inside a library call |
| MonitorBufferTheorems.RestIsJustified | Examples/ex2.c:34-69 | at rest nobody is stuck at the mutex: every thread inside put or get sleeps on the queue of its condition, at a full or an empty buffer, and never both kinds |

## Left out

- CancelRemovesOnlyCaller: requires that no second thread cancels; `CancelsRemoveOnlyThemselves` is about any number of cancellers.
- CancelsRemoveOnlyThemselves: requires that no post walks the chain meanwhile; `UnlinkExact` says what a store does then, and `PostThenCutOff` shows that it can go wrong. The repeated loads of `*th` in one round of the search are one step.
- LocksInvariant.StepKeepsInv, NoLostWakeup, NoStrandedWaiter, RestIsJustified, FirstInFirstOut, OneRestartPerWait: about runs in which no time-out races with a signal (`CleanRun`); `TimeoutExact` and `JoinTooEarly` say what happens otherwise. Clients unlock only what they hold.
- HolderNotRefused: its clause about the queue is about such runs too; `HolderOffQueueExact` has the exact condition for all runs and `QueuedHolder` a run that breaks it.
- LocksCalls.CallReturns: about calls that return; when one does not is the matter of `RestIsJustified`. Mutexes have a valid kind (`InvalidKindLeaks` has the others), and whether a timed wait reports a time-out is not part of the record.
- WaitQueue.Broadcast: sequential; `BroadcastAmid` has the calls of others between its dequeues, one call at a time.
- SecondFree, Reclamation: the client rule is one join or detach per joinable thread; joining a terminated thread records no joiner, so the code cannot enforce it.
- StackSegments.Allocator.Create: which segments can be mapped is fixed during one call, and memory for the marks is granted a finite number of times.
- SetCancelType, SetCancelState: the EINVAL for a value that is neither of the two is left to the types.
- RunsTwice: a handler is one statement; cancellation points inside handlers, and requests arriving during pthread_exit, are not modelled.
- Interrupted, Completes: brackets nest as the macros enforce it.
- Cancellation of a condition wait, of a join and of a timed wait as steps of a protocol; `SharedLink` has what the first does to the queues.
- JoinResumesExactly: about the first suspend that finds a restart of another system; what a thread does after it was misled is not followed.
- OneBitPerThread, EndedByItsOwn: the link `p_nextwaiting` that semaphores and queues share is not part of the joint system; `LinkNullIff` says when a semaphore leaves it as a queue expects it.
- MonitorBufferRuns.StepSim: the statements on the buffer between two library calls are one step, under the mutex.
- `suspend` returning for a stale `p_signal`: only a restart ends a suspend here, and a pending restart is one bit.
- Signal masks, `sigsetjmp` and `siglongjmp`, and EINTR: kernel and C library behaviour.
- Memory is sequentially consistent; test-and-set and compare-and-swap are atomic; the compare-and-swap under a spinlock is taken as one step.
- Thread identities and process identifiers are not reused; a thread killed by a signal, and exec, are not modelled; process exit is modelled as the traversal of the ring only.
- The manager's start, its check for a dead parent, and its two-second time-out (a read may find the pipe empty at any time).
- Attributes, scheduling, thread-specific data, fork handlers, `sigwait`, the locking of streams and the system call wrappers: they would only add easy members.
- Integers are unbounded, except where the code compares with SEM_VALUE_MAX; in particular a status word holds 2 * SEM_VALUE_MAX + 1, which needs a long of more than 32 bits.
