# Verification of the concurrent queues

A Dafny model of the project's queues and of the benchmark that drives them, with proofs for any
number of threads, any schedule and any length of run.

- **The lock-free queue** (`project_skeleton/src/Ex5.c`): the Michael-Scott queue whose nodes are
  recycled through per-thread free lists, with an odd/even counter per thread deciding when a retired
  node may be reused. `LockFree` is the state machine, one shared access of one thread per step, with
  weak compare-exchange that may fail for no reason. Because addresses are reused, the proofs keep an
  all-time chain of node occurrences beside the heap (`NodePool`), which no step reads. `LockFreeQueue`
  is the same queue as an object with fields and arrays changed in place, one method per access; each
  is proved equal to its transition, and `Act` combines them.
  Results: `LockFreeTheorems` (FIFO behaviour, no bad pointer, no ABA), `LockFreeQuiescence` (why
  waiting makes recycling safe), `LockFreeProgress` (no wait cycles, a thread alone finishes),
  `LockFreeRounds` (lock-freedom, from the counts of `LockFreeRetries`), `LockFreeMemory` (no node
  lost or in two places).
- **The two-lock queue** (`project_skeleton/src/Ex4.c`): `TwoLock`, where `head` can overtake `tail`
  and the second lock makes recycling the old sentinel safe. A parameter selects whether the sentinel
  is recycled before the release of `deq_lock`, as the code does, or after it, as its comment
  proposes; everything is proved for both. `TwoLockTheorems` has safety and absence of deadlock,
  `TwoLockProgress` termination of a thread alone and what calls report.
- **The Peterson lock** of `archive/Ex4_old.c`: `Peterson`, two slots, each behind its own lock, the
  two wait conditions read in separate steps; `PetersonPassage`, how a thread passes through.
- **The sequential queue and the queue under one lock** (`project_skeleton/src/Ex1.c`, `Ex2.c`):
  `LinkedQueue`, an object over linked nodes; `LinkedRuns`, sequences of calls; `LockedRuns`, the
  one-lock queue as the interleaving of its critical sections with the recycling that follows the
  unlock.
- **The benchmark** (`project_skeleton/src/bench.c`, `bench.h`): generated values, counters and
  checksum (`BenchLog`, `Checksum`, `LockFreeBench`, `TwoLockBench`), its loops run by one thread
  (`Bench`), and the parser of batch-size patterns with its printer (`BatchSpec`, `BatchSpecParser`,
  `BatchSpecPrint`). The parser is judged by `BatchSpecGrammar`, a grammar that shares no character
  class, number or bound with it, and by `BatchSpecLimits`, where accepted and rejected texts are
  written out.

All queues are measured against one specification, `Fifo`: a log of events, the sequential queue that
replays it, and what each returned call must have done; `FifoCalls` draws the consequences for whole
calls (linearizability). `Teardown` has the freeing loops, `NodeLists` the lists a reader obtains by
following `next`.

How a result is built up: an elementary update of memory keeps heap and chain in agreement
(`NodePool`); a step keeps what its own thread knows and what every other thread knows
(`LockFreeSteps`, `TwoLockSteps`); so the invariant holds in every reachable state; and each theorem
reads one property off the invariant, or compares two moments of a run.

Memory is sequentially consistent. In the lock-free queue all atomic accesses are so by the language;
for the plain fields of the other versions it is an assumption.

Where code and documentation differ, the code is modelled: the comment in `Ex4.c` about moving
`recycle_node` describes a variant, which is proved beside the code; a batch-size tuple `(0,2147483647)`
is accepted by the parser although sampling it overflows `int` (`BatchSpecPrint.OverflowExists`); and
numbers such as `+5` and `-0` are accepted, as `strtol` does.

`dafny verify dfyconfig.toml` checks the project.

## Model

| member | source | states |
|---|---|---|
| LockFreeTheorems.Reachable | project_skeleton/src/Ex5.c:11-293 | The whole invariant (memory and bookkeeping agree; `head` not past `tail`; what each thread knows at each of its accesses) holds after every schedule of any number of threads. |
| LockFreeTheorems.RefinesFifo | project_skeleton/src/Ex5.c:210-293 | The log of every run, with an append at each successful exchange of `last->next` and a removal at each successful exchange of `head`, replays on a sequential FIFO queue and ends with the values memory holds; and every call that returned made exactly the change it reports. |
| LockFreeTheorems.StepChangesContents | project_skeleton/src/Ex5.c:218-289 | One step changes the values reachable from `head` exactly as its event says: one value appended at the back, the returned value removed from the front, or nothing; a `deq` that sees NULL sees a queue that is empty in memory. |
| FifoCalls.EnqueueTakesEffect | project_skeleton/src/Ex5.c:210-250 | A returned `enq` with code 1 made exactly one change of the queue between its invocation and its return, the append of its argument; with code 0 it made none. |
| FifoCalls.DequeueTakesEffect | project_skeleton/src/Ex5.c:252-293 | A returned `deq` with code 1 made exactly one change between its invocation and its return, the removal of the value it returns; any other `deq` made none, and between its invocation and its return there is an instant at which the replayed queue is empty. |
| FifoCalls.SeenEmptyWasEmpty | project_skeleton/src/Ex5.c:258-270 | At every read of `first->next` that returns NULL the abstract queue is empty at that very moment. |
| FifoCalls.NothingLost | project_skeleton/src/Ex5.c:210-293 | In every log that replays, the values dequeued so far followed by the values still queued are the values enqueued so far, in order. |
| LockFreeTheorems.UsedIsNotRecycled | project_skeleton/src/Ex5.c:18-51 | A node that a thread will still compare or follow inside its operation is allocated, in no free list, and being filled or recycled by no thread. |
| LockFreeTheorems.LinkedIsNotRecycled | project_skeleton/src/Ex5.c:18-66 | A node that was in the list at any moment of a thread's operation (odd counter, unchanged) stays allocated, out of all free lists and unfilled until that operation ends. |
| LockFreeQuiescence.WaitOutlasts | project_skeleton/src/Ex5.c:18-66 | When a thread that moved `head` on at step i is about to recycle its node at step j of the same call, no other thread is still in an operation it was in at step i: the wait outlasts every operation that was in progress when the node was unlinked. |
| LockFreeQuiescence.RecyclesWhatItUnlinked | project_skeleton/src/Ex5.c:37-76 | What that thread then recycles is exactly the one node that was `head` when it moved `head` on. |
| LockFreeTheorems.NoBadDereference | project_skeleton/src/Ex5.c:218-289 | Every access through a pointer, in every reachable state, goes through an allocated node; in particular `next` is not NULL when `deq` reads `next->data`. |
| LockFreeTheorems.TailNearEnd | project_skeleton/src/Ex5.c:218-278 | In every reachable state `head` is not past `tail`, and `tail` is the last or the last but one node of the list from `head`. |
| LockFreeTheorems.HeadNoAba | project_skeleton/src/Ex5.c:258-278 | If `head` is the same address at two moments of one operation of any thread, it did not change in between, although addresses are recycled. |
| LockFreeTheorems.TailNoAba | project_skeleton/src/Ex5.c:220-242 | The same for `tail`. |
| LockFreeTheorems.LinkNoAba | project_skeleton/src/Ex5.c:221-228 | If the link of a node that was in the list when the operation could first read it is NULL later in the same operation, it was NULL all the time in between. |
| LockFreeTheorems.SamePosition | project_skeleton/src/Ex5.c:220-278 | Within one operation an address read from the list stands for one and the same occurrence in the all-time chain of nodes. |
| LockFreeTheorems.GrowsBetween | project_skeleton/src/Ex5.c:210-293 | From any moment of a run to any later one, the all-time chain only gets longer and `head` and `tail` only move forward along it. |
| LockFreeTheorems.CounterBetween | project_skeleton/src/Ex5.c:11-16 | A thread's counter never decreases, and while it stands still so does the record of where `head` was when the thread's operation began. |
| LockFreeProgress.WaitsOnlyForRunning | project_skeleton/src/Ex5.c:18-35 | A thread in the busy wait has an even counter; the thread it waits for is another one, has an odd counter, is between `mm_op_begin` and the increment in `mm_op_end`, and is not itself waiting. |
| LockFreeProgress.SomeThreadRuns | project_skeleton/src/Ex5.c:18-66 | Unless all threads are idle, some thread inside a call is not waiting, and its own step takes it on, whatever the environment chooses: reclamation has no wait cycle. |
| LockFreeProgress.UnblockedMoves | project_skeleton/src/Ex5.c:11-293 | Only the busy wait, while the counter still has the remembered value, can hold a thread up: any other thread inside a call is elsewhere after its own step, or looks at the next counter. |
| LockFreeProgress.OnlyRemoversReclaim | project_skeleton/src/Ex5.c:53-66 | A thread that waits for others or recycles nodes is in a `deq` whose latest event is the removal of the value it will return; so no `enq` and no failed `deq` ever waits. |
| LockFreeProgress.OnlyRemoversReclaimIn | project_skeleton/src/Ex5.c:53-61 | The same for a thread at `mm_op_end`: its retired list is non-empty only if its call removed a value. |
| LockFreeProgress.FinishesAlone | project_skeleton/src/Ex5.c:218-289 | From anywhere inside an operation, in any reachable state, a thread left alone without spurious failures reaches `mm_op_end` in exactly `Rank` steps: at most 12 (two rounds of the loop) from the start of an operation, at most 15 from the middle of a round. |
| LockFreeProgress.ReturnsAlone | project_skeleton/src/Ex5.c:11-293 | From any reachable state in which all other threads are outside their operations, a thread inside a call that is left alone without spurious failures returns within n + 21 steps, the wait over all n counters and the recycling included. |
| LockFreeProgress.AloneFinishes | project_skeleton/src/Ex5.c:218-289 | The induction behind it, from any state that satisfies the invariant. |
| LockFreeProgress.StepNearer | project_skeleton/src/Ex5.c:218-289 | Every undisturbed step of a busy thread lowers its rank by exactly one. |
| LockFreeRetries.ChangesPerEnqueue | project_skeleton/src/Ex5.c:218-289 | In any run, `head`, `tail` and the links together change at most three times per linked enqueue. |
| LockFreeRounds.FruitlessRoundSpansChange | project_skeleton/src/Ex5.c:218-289 | Each round that ends back at the top of its loop without a spurious failure spans a change of `head`, of `tail` or of a link, from its first read on. |
| LockFreeRounds.AtMostOneChange | project_skeleton/src/Ex5.c:218-289 | Between any two moments with no append and no removal between them, `head`, `tail` and the links together change at most once: only a lagging `tail` can catch up. |
| LockFreeRounds.TwoFruitlessRounds | project_skeleton/src/Ex5.c:218-289 | Lock-freedom: of two fruitless rounds one after the other, of the same thread or of two threads, some operation took effect between the beginning of the first and the end of the second. |
| LockFreeRetries.RetriesBounded | project_skeleton/src/Ex5.c:218-289 | The count over a whole operation: a thread in the loop has gone back to its top at most as often as `head`, `tail` or a link has changed since the operation began, plus the number of its spurious failures. |
| LockFreeRetries.ChangesCounted | project_skeleton/src/Ex5.c:218-289 | The sum of the positions of `head`, `tail` and the end of the chain counts exactly the changes seen in memory. |
| LockFreeRetries.FailuresCounted | project_skeleton/src/Ex5.c:228-243 | The failure count a thread hands back is the number of its compare-exchanges, in both calls, that left memory as it was. |
| LockFreeRetries.CounterCounts | project_skeleton/src/Ex5.c:11-16 | In every reachable state a thread's counter is twice the number of operations it has begun, less one while it is inside one. |
| LockFreeTheorems.IdleReports | project_skeleton/src/Ex5.c:218-293 | An idle thread that has made a call has a return as its latest event, and holds the code and the value of that return. |
| LockFreeMemory.NodesConserved | project_skeleton/src/Ex5.c:37-208 | In every reachable state each node ever allocated is exactly once in the live list, in one free list, in one retired list, or in the private hands of one thread, and nothing else is in any of them. |
| LockFreeMemory.SizesAreLengths | project_skeleton/src/Ex5.c:37-76 | `size` and `retired_count` are the lengths of their lists; at most one node is retired per thread; between calls a thread holds no node outside its free list. |
| LockFreeMemory.LoopTestHolds | project_skeleton/src/Ex5.c:213-249 | At every test of `while(n)`, in every reachable state, `n` is an allocated node: the code after the loop, which reports failure, is not reached. |
| LockFreeMemory.EnqueueNeverFails | project_skeleton/src/Ex5.c:213-249 | Every `enq` that returns reports 1 (the return behind the loop has no step of its own: by LoopTestHolds it is not reached). |
| LockFreeSteps.StepKeepsInv | project_skeleton/src/Ex5.c:11-293 | Every step of every thread keeps the whole invariant, for that thread and all others, and moves the chain, `head` and `tail` only forward. |
| LockFreeInvariant.EndSteady | project_skeleton/src/Ex5.c:18-51 | What a thread in `mm_wait_until_unreserved` has found out about the others stays true through any step of another thread that does not take up an older position. |
| LockFreeQueue.Queue.constructor | project_skeleton/src/Ex5.c:92-118 | The new queue has one dummy node, empty free and retired lists and counters 0, and satisfies the invariant. |
| LockFreeQueue.Queue.ValidIsSafe | project_skeleton/src/Ex5.c:185-289 | Under the invariant, the pointer that the thread's next access follows is an allocated node. |
| LockFreeQueue.Queue.Act | project_skeleton/src/Ex5.c:11-293 | The next access of any thread, whatever it is (one method for each), keeps the invariant, and the fields and arrays afterwards are the image of those before under the transition of the state machine. |
| LockFreeQueue.Execute | project_skeleton/src/Ex5.c:92-293 | A new queue object driven by any schedule ends in the state that all theorems about runs speak of. |
| LockFreeQueue.DestroyQueue | project_skeleton/src/Ex5.c:120-182 | On an idle queue, the three loops free every node ever allocated exactly once. |
| TwoLockTheorems.Reachable | project_skeleton/src/Ex4.c:89-145 | The invariant holds after every schedule of any number of threads, for recycling before and for recycling after the release of `deq_lock`. |
| TwoLockTheorems.RefinesFifo | project_skeleton/src/Ex4.c:89-145 | Every run replays on a sequential FIFO queue, with the append at `tail->next = new_node`, the removal at `head = next` and emptiness seen at the read of `sentinel->next`; every returned call made exactly the change it reports. |
| TwoLockTheorems.Handshake | project_skeleton/src/Ex4.c:92-136 | In every reachable state `tail` is the last node of the list from `head`, or the last but one while an enqueuer is between its two writes; or `head` is exactly one node past `tail`, an enqueuer is between its two writes, and the dequeuer has not yet obtained `enq_lock`. |
| TwoLockTheorems.TailFixIsIdle | project_skeleton/src/Ex4.c:128-136 | When `tail = head` is executed, `tail` already equals `head` and the queue is empty: the write never changes `tail`. |
| TwoLockTheorems.RecycledIsDetached | project_skeleton/src/Ex4.c:115-140 | A sentinel being recycled is allocated and is not `head`; when its link is overwritten it is not `tail` either. |
| TwoLockTheorems.EndsAreNotFree | project_skeleton/src/Ex4.c:66-87 | Neither `head` nor `tail` ever points to a node in a free list. |
| TwoLockTheorems.MutualExclusion | project_skeleton/src/Ex4.c:89-145 | At most one thread is between setting and releasing each of the two locks. |
| TwoLockTheorems.SomeThreadRuns | project_skeleton/src/Ex4.c:92-142 | Unless all threads are idle, a thread inside a call does not wait for a lock, and its own step takes it to another place, whatever the environment chooses: no deadlock, with or without the late recycling. |
| TwoLockTheorems.UnblockedMoves | project_skeleton/src/Ex4.c:89-145 | Only a lock that is taken can hold a thread up: any other thread inside a call is elsewhere after its own step. |
| TwoLockProgress.ReturnsAlone | project_skeleton/src/Ex4.c:89-145 | From every reachable state in which all other threads are idle, a thread inside a call that is left alone is idle again after at most 14 steps (7 in `enq`), whatever allocation does, in either variant. |
| TwoLockProgress.FailsOnlyWithoutMemory | project_skeleton/src/Ex4.c:92-107 | `enq` returns 0 exactly when, in the course of that call, its thread's free list was empty and allocation refused; otherwise it returns 1. |
| TwoLockProgress.RepairIsTried | project_skeleton/src/Ex4.c:128-130 | After moving `head` a dequeuer goes for `enq_lock` exactly when the queue in memory is empty at that moment. |
| TwoLockProgress.RepairIsMade | project_skeleton/src/Ex4.c:133-136 | And it writes `tail` exactly when the queue in memory is still empty under that lock. |
| TwoLockProgress.IdleReports | project_skeleton/src/Ex4.c:89-145 | An idle thread that has made a call has a return as its latest event, and holds the code and the value of that return. |
| TwoLockTheorems.NodesConserved | project_skeleton/src/Ex4.c:66-145 | Each node ever allocated is exactly once in the live list, in one free list, or with one thread; also when `recycle_node` is moved after the release of `deq_lock`, as the comment in the code proposes. |
| TwoLockTheorems.SizesAreLengths | project_skeleton/src/Ex4.c:66-87 | `size` is the length of the free list in every reachable state. |
| TwoLockSteps.StepKeepsInv | project_skeleton/src/Ex4.c:89-145 | Every step of every thread keeps the invariant, including what each lock holder relies on. |
| TwoLockQueue.Queue.constructor | project_skeleton/src/Ex4.c:14-29 | The new queue satisfies the invariant. |
| TwoLockQueue.Queue.ValidIsSafe | project_skeleton/src/Ex4.c:66-145 | Under the invariant, every pointer that the thread's next access follows is an allocated node. |
| TwoLockQueue.Queue.Act | project_skeleton/src/Ex4.c:89-145 | The next access of any thread (one method for each) keeps the invariant, and the fields and arrays afterwards are the image of those before under the transition of the state machine, in either variant. |
| TwoLockQueue.Execute | project_skeleton/src/Ex4.c:89-145 | A new queue object driven by any schedule ends in the state that the theorems speak of. |
| TwoLockQueue.DestroyQueue | project_skeleton/src/Ex4.c:31-63 | On an idle queue every node ever allocated is freed exactly once. |
| Peterson.MutualExclusion | archive/Ex4_old.c:29-44 | In every run the enqueue side and the dequeue side are never both past `lock_peterson`, with `flag[other]` and `victim` read in separate steps. |
| Peterson.EntersSoon | archive/Ex4_old.c:35-38 | A waiting slot for which the wait condition is false gets past the loop within two steps of its own thread. |
| Peterson.NeverBothStuck | archive/Ex4_old.c:35-38 | If one slot cannot leave its wait loop, the other slot has its flag up and can proceed. |
| Peterson.BypassedAtMostOnce | archive/Ex4_old.c:33-38 | After a slot has written `victim`, and for as long as it then waits, the other slot gets past `lock_peterson` at most once. |
| PetersonPassage.ContendedEnters | archive/Ex4_old.c:29-39 | From every reachable state, a slot whose test sees contention and which runs alone while the other flag is down is past `lock_peterson`, with its flag up, after four steps of its own. |
| PetersonPassage.ContendedPassage | archive/Ex4_old.c:106-135 | A whole passage alone, from outside: past `lock_peterson` after five steps, outside again with the flag down and the outer lock free after seven. |
| PetersonPassage.UncontendedPassage | archive/Ex4_old.c:106-135 | Without contention the passage takes three steps, and the flag stays down throughout. |
| PetersonPassage.ContendedWasInside | archive/Ex4_old.c:111-135 | In every run, between a test that saw contention and any later release the slot has been past `lock_peterson`. |
| PetersonPassage.UncontendedStaysDown | archive/Ex4_old.c:111-135 | In every run, after a test that saw no contention the slot is at its release with its flag down until it has left. |
| Peterson.StepKeepsInv | archive/Ex4_old.c:29-44 | Every step of either slot keeps flags, outer locks, victim and the fairness record in agreement. |
| Peterson.Lock.LockPeterson | archive/Ex4_old.c:29-39 | One access of `lock_peterson`, or the test before it, in place: the fields afterwards are those of the state machine. |
| Peterson.Lock.UnlockPeterson | archive/Ex4_old.c:40-44 | Lowers the flag of the slot. |
| Peterson.Execute | archive/Ex4_old.c:106-166 | A new lock driven by any schedule of threads through its two slots ends in the state that the theorems speak of. |
| LinkedQueue.Queue.constructor | project_skeleton/src/Ex1.c:14-26 | The new queue has one node, no values, and empty free lists. |
| LinkedQueue.Queue.UpcycleNode | project_skeleton/src/Ex1.c:61-72 | Returns the top of the free list or a new node, or NULL exactly when the list is empty and allocation refuses, in which case nothing changes. |
| LinkedQueue.Queue.LinkBehindTail | project_skeleton/src/Ex1.c:88-92 | Links a node the thread holds behind `tail` and moves `tail`: one value more at the end, free lists as before. |
| LinkedQueue.Queue.Enqueue | project_skeleton/src/Ex1.c:84-93 | Reports 0 exactly when no node is to be had, and then changes nothing; otherwise the value is appended at the back, the thread's free list loses its first node if it had one, all others stay, and a node is allocated only if that list was empty. |
| LinkedQueue.Queue.Unlink | project_skeleton/src/Ex1.c:97-103 | Reports 0 exactly on the empty queue, and then changes nothing; otherwise removes and returns the front value and the old sentinel. |
| LinkedQueue.Queue.RecycleNode | project_skeleton/src/Ex1.c:75-82 | Puts the sentinel first on the thread's own free list; the queue and all other lists stay. |
| LinkedQueue.Queue.Dequeue | project_skeleton/src/Ex1.c:95-107 | Reports 0 exactly on the empty queue; otherwise the front value is removed and returned and the old sentinel becomes the first node of the thread's free list. |
| LinkedQueue.Queue.DestroyQueue | project_skeleton/src/Ex1.c:28-58 | Frees every node ever allocated exactly once. |
| LinkedQueue.Queue.LiveList | project_skeleton/src/Ex1.c:84-107 | Following `next` from `head` gives the nodes of the chain, whose values are the queue and whose last node is `tail`'s. |
| LinkedQueue.Queue.Frees | project_skeleton/src/Ex1.c:60-82 | Following `next` from each free list's head gives exactly its recorded nodes. |
| LinkedQueue.UpcycleUndoesRecycle | project_skeleton/src/Ex1.c:61-82 | `upcylce_node` after `recycle_node` returns the same node and leaves free list and size as they were. |
| LinkedQueue.AllocatedNodes | project_skeleton/src/Ex1.c:61-107 | With no call in progress, the nodes ever allocated are one, plus the queue length, plus the sizes of all free lists. |
| LinkedRuns.SpecIsFifo | project_skeleton/src/Ex1.c:84-107 | The log that a sequence of calls must produce (an append, unless the caller's free list is empty and allocation refuses; the front value, or emptiness seen) is a log of a FIFO queue. |
| LinkedRuns.Perform | project_skeleton/src/Ex1.c:84-107 | One call reports exactly the event that contents and the caller's free list determine, changes the contents as that event says, changes the length of that free list only, and allocates a node exactly when an append finds it empty. |
| LinkedRuns.RunSequential | project_skeleton/src/Ex1.c:61-107 | For every sequence of calls under any thread ids, the log is exactly the one required; the queue holds what the log replays to, each free list has the length the log gives it, and the number of nodes allocated is one plus queue length plus the sum of the free-list sizes. |
| LinkedRuns.SpareIsSlack | project_skeleton/src/Ex1.c:61-107 | While one thread id is used, the length of its free list is the difference between the greatest and the current length of the queue. |
| LinkedRuns.RunOneThread | project_skeleton/src/Ex1.c:61-107 | When one thread id is used, the number of nodes ever allocated is exactly one plus the greatest length the queue has had. |
| LockedRuns.TurnsAreFifo | project_skeleton/src/Ex2.c:85-122 | The log that a sequence of turns of any threads must produce (the recycling a thread owes after a removal, else its call) is a log of a FIFO queue. |
| LockedRuns.Turn | project_skeleton/src/Ex2.c:85-122 | One turn of a thread: if it owes a recycling, that, which leaves the queue alone and lengthens its free list; else one critical section, which reports the event that contents and free list determine and has its effect; a removal leaves the old sentinel in that thread's hands. |
| LockedRuns.RunLocked | project_skeleton/src/Ex2.c:85-122 | For every interleaving of critical sections with the recycling that follows the unlock, the log is exactly the one required; the queue holds what it replays to, each free list has the length it gives, a thread holds a sentinel exactly when its latest event is a removal, and each node allocated is exactly once in the queue's list, in one free list, or so held. |
| NodePool.TakeKeepsPool | project_skeleton/src/Ex5.c:185-197 | Taking a node keeps memory and bookkeeping in agreement and leaves the node with that thread alone. |
| NodePool.LinkKeepsPool | project_skeleton/src/Ex5.c:228 | Linking a held node behind the last one keeps the agreement: the chain gets one position longer, nothing else moves. |
| NodePool.MoveHeadKeepsPool | project_skeleton/src/Ex5.c:278-281 | Moving `head` one node on keeps the agreement: the old sentinel is retired by that thread, still linked. |
| NodePool.MoveTailKeepsPool | project_skeleton/src/Ex5.c:230 | Moving `tail` to any position of the chain keeps the agreement. |
| NodePool.ClaimKeepsPool | project_skeleton/src/Ex5.c:46 | Taking a retired node back into private hands keeps the agreement. |
| NodePool.WriteDataKeepsPool | project_skeleton/src/Ex5.c:215 | Writing the value of a held node disturbs no list. |
| NodePool.WriteNextKeepsPool | project_skeleton/src/Ex5.c:216 | Writing the link of a held node disturbs no list. |
| NodePool.PushKeepsPool | project_skeleton/src/Ex5.c:202-205 | Putting a held node, already linked to the old top, on the free list keeps the agreement. |
| NodeLists.LiveNodesAreChain | project_skeleton/src/Ex1.c:84-107 | The list from `head` is the live part of the chain, and its values are the abstract queue. |
| NodeLists.FreeNodesAreListed | project_skeleton/src/Ex1.c:60-82 | The list from a free list's head is its bookkeeping, and `size` is its length. |
| NodeLists.Conservation | project_skeleton/src/Ex1.c:28-107 | The live list, the free lists and what threads hold outside them contain every allocated node exactly once: so the lists are acyclic and disjoint. |
| NodeLists.NodesCounted | project_skeleton/src/Ex1.c:61-107 | The number of allocated nodes is one plus the queue length plus what is in the free lists and outside the lists. |
| Teardown.FreeList | project_skeleton/src/Ex1.c:32-38 | The freeing loop ends and frees the nodes of a NULL-terminated list in order, each once. |
| Teardown.FreeThreads | project_skeleton/src/Ex1.c:41-52 | The loop over the free lists frees the nodes of all of them. |
| Teardown.EverythingOnce | project_skeleton/src/Ex1.c:28-58 | With all threads idle, the queue's list and the free lists together are every node ever allocated, exactly once. |
| BenchLog.EnqueuesTallied | project_skeleton/src/bench.c:57-77 | In every run driven by the benchmark, what a thread has put into the queue is its first `enq_count` values, plus one if its current call has already taken effect. |
| BenchLog.DequeuesTallied | project_skeleton/src/bench.c:79-98 | What a thread's calls of `deq` have returned is what the thread has taken out of the queue, except the value of a call that has not returned yet. |
| BenchLog.InOrder | project_skeleton/src/bench.c:64-98 | Each producer's values leave the queue in the order it made them and without a gap: those dequeued are its first ones, those still queued are the rest. |
| BenchLog.Rising | project_skeleton/src/bench.c:67 | Of two values of one producer, the one enqueued earlier is smaller. |
| BenchLog.ValuesDistinct | project_skeleton/src/bench.c:67 | The values enqueued in a run are pairwise distinct. |
| BenchLog.ProducerOf | project_skeleton/src/bench.c:67 | `enq_count * num_threads + tid` determines both thread and count. |
| Checksum.SumsAgree | project_skeleton/src/bench.c:94-128 | At any moment between calls, the sum of what all calls returned plus the sum of what is still queued is the sum that the counters predict. |
| Checksum.DrainEmpties | project_skeleton/src/bench.c:130-136 | When the drain's last `deq` reports 0, the queue is empty. |
| Checksum.DrainCompletes | project_skeleton/src/bench.c:119-136 | What the threads dequeued plus what the drain found is exactly the sum the counters predict, before any reduction modulo 2^64. |
| Checksum.CheckPasses | project_skeleton/src/bench.c:94-143 | `total_dequeue_sum`, accumulated per thread, then over threads, then by the drain in unsigned 64-bit arithmetic, equals `expected_sum`; and equals the exact sum that the counters predict when that is below 2^64. |
| Checksum.CheckDetects | project_skeleton/src/bench.c:94-143 | For any drained values and any expected sum the check passes if and only if the sum of what the calls returned and what was drained differs from the expected sum by a multiple of 2^64. |
| Checksum.WordIsResidue | project_skeleton/src/bench.c:94-136 | A 64-bit word lies between 0 and 2^64 - 1; two sums have the same word exactly when they differ by a multiple of 2^64; a sum below 2^64 is its own word. |
| Checksum.CountedClosed | project_skeleton/src/bench.c:120-128 | The sum the counters predict in closed form: over threads t with counter c, n * c * (c - 1) / 2 + c * t. |
| Checksum.ExpectedSum | project_skeleton/src/bench.c:120-128 | The two loops compute the sum of the first `Nr_enq_operations[tid]` values of every thread: a number below 2^64, equal to that sum modulo 2^64, and equal to it when it is below 2^64. |
| LockFreeBench.BenchmarkPasses | project_skeleton/src/bench.c:37-143 | For every run of n threads on the lock-free queue that generates values as the benchmark does, is idle at step k and is then drained by thread 0, the correctness check passes, with the exact sum when it is below 2^64. |
| LockFreeBench.ProducersInOrder | project_skeleton/src/bench.c:57-99 | In every such run, at every moment, each producer's values have left the queue in order and without a gap. |
| LockFreeBench.InsertionsAreDequeues | project_skeleton/src/Ex5.c:200-208 | Between calls, a thread's free-list insertion count equals the number of its successful calls of `deq`. |
| TwoLockBench.BenchmarkPasses | project_skeleton/src/bench.c:37-169 | The same correctness check on the two-lock queue. |
| TwoLockBench.ProducersInOrder | project_skeleton/src/bench.c:57-99 | The same order of each producer's values on the two-lock queue. |
| TwoLockBench.InsertionsAreDequeues | project_skeleton/src/Ex4.c:80-87 | The same count of free-list insertions on the two-lock queue. |
| Bench.EnqueueBatch | project_skeleton/src/bench.c:63-77 | The enqueue loop, which repeats a refused call with the same value: the queue grows by exactly the thread's next `size` values, free nodes are used first, and the failure count is exactly the number of calls that report 0. |
| Bench.RefusalsCounted | project_skeleton/src/bench.c:63-77 | That number is the number of refusals among the calls made once the free list is used up. |
| Bench.DequeueBatch | project_skeleton/src/bench.c:79-98 | The dequeue loop: takes the first values of the queue, as many as requested or there are, counts successes and failures and accumulates the sum. |
| Bench.Drain | project_skeleton/src/bench.c:155-161 | Empties the queue and accumulates all it held. |
| Bench.RunBenchmark | project_skeleton/src/bench.c:39-171 | The single-thread version on the sequential queue: `enq_count` is the total of the enqueue batches, `deq_count` the sum of the least of each request and what is queued then, and both failure counts are exact; the values dequeued in the rounds followed by those drained are the values enqueued, in order; `total_dequeue_sum` accumulates exactly them and equals `expected_sum`, which is enq_count * (enq_count - 1) / 2 when that is below 2^64; at the end the queue is empty and every node is freed once. |
| BatchSpecParser.SkipWs | project_skeleton/src/bench.h:54-61 | The cursor moves past exactly the white space. |
| BatchSpecParser.ParseIntToken | project_skeleton/src/bench.h:64-87 | Value, cursor and each kind of failure are those of the reading function; on success the value lies between 0 and 2147483647 and the cursor has moved. |
| BatchSpecParser.ParseSpec | project_skeleton/src/bench.h:90-136 | The same for one specification. |
| BatchSpecParser.ParseElements | project_skeleton/src/bench.h:146-184 | The loop with its growing buffer reads the elements up to the closing bracket; every round consumes input and stays inside string and buffer. |
| BatchSpecParser.ParseSpecList | project_skeleton/src/bench.h:138-194 | The same for a whole list, with its errors. |
| BatchSpecParser.Spread | project_skeleton/src/bench.h:225-256 | Thread t gets element t % len. |
| BatchSpecParser.ParsePattern | project_skeleton/src/bench.h:197-263 | Accepts exactly what the reading function accepts, with one specification per thread; otherwise fails for the same reason. |
| BatchSpec.PatternValid | project_skeleton/src/bench.h:197-263 | Every accepted pattern gives exactly `num_threads` specifications with 0 <= min <= max <= INT32_MAX, and min = max for the fixed kind. |
| BatchSpecGrammar.SpecIsRead | project_skeleton/src/bench.h:90-136 | Every text of a specification, with any white space before its tokens and any signs the value allows, is read as what it means, and nothing after it is read. |
| BatchSpecGrammar.SpecFound | project_skeleton/src/bench.h:90-136 | Whatever is read as a specification is such a text. |
| BatchSpecGrammar.ItemsAreRead | project_skeleton/src/bench.h:159-184 | Every comma-separated list of such texts is read element by element up to its bracket. |
| BatchSpecGrammar.ItemsFound | project_skeleton/src/bench.h:159-184 | Whatever is read as a list is such a list. |
| BatchSpecGrammar.PatternIsRead | project_skeleton/src/bench.h:197-263 | Every text of a pattern is accepted and gives each thread what the pattern says. |
| BatchSpecGrammar.PatternFound | project_skeleton/src/bench.h:197-263 | Every accepted string is the text of a pattern. |
| BatchSpecGrammar.AcceptedExactly | project_skeleton/src/bench.h:197-263 | A string is accepted if and only if it is the text of a pattern of the grammar, which names its own characters, place values and largest number. |
| BatchSpecGrammar.ValueDenotes | project_skeleton/src/bench.h:70 | What the parser makes of a string of figures is the number they denote by place. |
| BatchSpecLimits.NumberAccepted | project_skeleton/src/bench.h:64-87 | For every v, the decimal number v is accepted if and only if v <= 2147483647, and then gives every thread v; otherwise it is rejected as too large, or as out of range above 9223372036854775807. |
| BatchSpecLimits.NegativeRejected | project_skeleton/src/bench.h:64-87 | With a minus sign in front it is rejected as negative, or as out of range below -9223372036854775808, unless it is zero. |
| BatchSpecLimits.PlusIgnored | project_skeleton/src/bench.h:70 | A plus sign in front changes nothing. |
| BatchSpecLimits.BeforeNumber | project_skeleton/src/bench.h:54-61 | Of all characters that are neither figures nor signs, blank, tab, newline, vertical tab, form feed and carriage return may stand before a number and change nothing; any other makes the pattern unacceptable. |
| BatchSpecLimits.DecimalDenotes | project_skeleton/src/bench.h:346-358 | Printed numbers consist of figures that denote the number by place, without a superfluous zero in front. |
| BatchSpecLimits.RejectedBounds | project_skeleton/src/bench.h:117-127 | For all numbers a and b, a tuple without its parenthesis is rejected for that, and one with a > b for the order of its bounds. |
| BatchSpecLimits.RejectedRest | project_skeleton/src/bench.h:220-224 | A number followed by anything but white space or figures is rejected for what follows. |
| BatchSpecLimits.RejectedAfterList | project_skeleton/src/bench.h:186-192 | A closed list followed by anything but white space is rejected for what follows. |
| BatchSpecLimits.RejectedOpen | project_skeleton/src/bench.h:175-184 | A list that is not closed is rejected for that. |
| BatchSpecLimits.RejectedStarts | project_skeleton/src/bench.h:138-212 | The empty pattern, a pattern that starts with another character, the empty list and a bracket alone are rejected, each for its own reason. |
| BatchSpecLimits.RejectedCounts | project_skeleton/src/bench.h:200-205 | Without threads every pattern is rejected for that. |
| BatchSpecLimits.RejectedTuples | project_skeleton/src/bench.h:97-112 | A tuple that breaks off is rejected for what is missing. |
| BatchSpecPrint.PrintThenParse | project_skeleton/src/bench.h:346-358 | A printed specification parses back to itself, for every thread. |
| BatchSpecPrint.PrintThenParseRepeating | project_skeleton/src/bench.h:233-242 | A printed list in square brackets gives thread t element t % len. |
| BatchSpecPrint.PrintThenParseExplicit | project_skeleton/src/bench.h:245-259 | A printed list in braces parses back to itself if it has one element per thread, and is rejected for its length otherwise. |
| BatchSpecPrint.SampleInRange | project_skeleton/src/bench.h:266-282 | For every parsed specification, sampling overflows `int` if and only if max - min = INT32_MAX; otherwise the sample lies between min and max. |
| BatchSpecPrint.OverflowExists | project_skeleton/src/bench.h:266-282 | The string `(0,2147483647)` is accepted, and sampling overflows for every thread and every draw. |
| BatchSpecPrint.SampleIsResidue | project_skeleton/src/bench.h:266-282 | For every draw r the sample is exactly the v within the bounds for which r and v - min differ by a multiple of the number of sizes. |
| BatchSpecPrint.SampleReaches | project_skeleton/src/bench.h:266-282 | Every size between the bounds is the sample for some non-negative `int` that `rand_r` may return. |

## Left out

- Weak memory and data races: every access is atomic and in one total order.
- The width of the 64-bit operation counters: they are natural numbers, so a counter that wraps around to the value a waiting thread remembers is not modelled.
- The width of `int` in counters, sizes and generated values: they are unbounded, so the benchmark's results hold as long as `enq_count * num_threads + tid` fits in `int`.
- Allocation failure in the lock-free queue, which the code does not check: an allocation always yields a new node. In the other queues a refused allocation is modelled, except for the first node, and for the growing buffer and result array of the parser.
- Threads that die inside an operation: README.md line 66 of the repository says that this blocks reclamation; `LockFreeProgress.SomeThreadRuns` speaks of running threads.
- Starvation and the fairness of schedulers: progress is stated as lock-freedom, absence of deadlock, and termination of a thread that runs alone.
- The inside of OpenMP locks: a lock is a field naming its holder. The critical sections of the one-lock queue are single events, since the lock lets no other thread in.
- Accesses that only one thread can see are grouped: taking a node from the free list is one step, and so is putting it back once its link is written; both still interleave with everything shared. A call's local steps between two accesses belong to the next access.
- The retired list's own cells and their `malloc` and `free`: the list is a sequence of nodes.
- The effect of `free` and of re-initialising fields in `destroy_queue`: the freed nodes are returned in order, and the object is not changed.
- Null pointers passed for the optional counters or for `spec`, `pattern` and `out_specs`.
- Bench.RunBenchmark: one thread, batch sizes given, allocation succeeding in the end; time, random numbers and the number of rounds are inputs. The loops of several threads at once appear only through the logs of their runs (LockFreeBench, TwoLockBench), where the calls are those the benchmark makes in any order and number. `max_free_list_size` is not modelled.
- LockFreeRounds.TwoFruitlessRounds: some operation takes effect; how often a particular operation can be overtaken is not bounded, and the code does not bound it.
- Peterson.MutualExclusion: the lock only. The queue of `archive/Ex4_old.c` is superseded, and its test before the lock is read without a common lock; here its outcome is an arbitrary input.
- BatchSpecPrint.SampleInRange: the range of a sample, not its distribution; `rand_r` is an input.
- `strtol` is the function of section 7.22.1.4 of ISO/IEC 9899:2011 in base 10, with the C locale's white space and a 64-bit `long`; it is not implemented with a loop.
- Messages and process exit on a rejected pattern: a rejection is a value naming its reason.
- `parse_args`, CSV output, `main`, `print_configuration`: plumbing around the parts above.
- `project_skeleton/src/library.c`: a course example with easy conservation laws.
- The concurrent bag of the repository's README: it is described there without code.
- `plot.py`, scripts, build files and logs: no queue logic.
