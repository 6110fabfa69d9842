# Verified models of the concurrency exercises

The repository is a set of finished concurrency exercises: lock-free containers with hand-made
reclamation, locks, a barrier, a serial executor and futures. This project models the hardest of them
and proves what they are for: nothing is freed too early, twice or never; every container behaves like
its sequential counterpart; every lock excludes, hands over and wakes as it should; no task, callback or
waiter is lost.

## How the models are built

Each concurrent component is one module with the same shape.

* A `State` holds the shared variables of the source, one program counter with its locals per thread
  (any number of threads), and auxiliary fields that no branch reads except to record history: the log
  of linearization points, the calls and answers of each thread, the order of arrivals, the owner of a
  node. A `Step` function performs one atomic operation, or one access to a node or variable, of one
  thread; a `Run` is any sequence of steps of any threads, so every theorem about runs holds for every
  number of threads, every interleaving and every length. Loops of the source are cycles of program
  counters.
* Weak compare-and-swaps may fail for no reason, condition variables and futexes may wake for no reason,
  allocators may return any free address (also one just freed), schedulers may choose anything: each such
  choice is a parameter of the action.
* An access to a freed node, an empty queue or an empty optional raises `fault`; the theorems say it never
  happens.
* An inductive invariant is proved step by step, by the theorems that follow for every run, and by
  refinement to a sequential object where there is one. The log then replays on that object, and the
  events of each thread are tied, one by one, to the calls that the client's actions make from it, with
  their arguments, and to the answers it was given.
* Safety does not say that a call ever does anything. So each lock-free component has a theorem about a
  thread left alone, the `...Alone` modules: from any state that a run reaches, its call returns within a
  bounded number of its own steps, and a call left alone from its start answers and changes what it should,
  exactly. For the locks, the barrier, the philosophers, the strand and the futures, some continuation
  serves everybody, and every call is shown to be served once.
* The stack over AtomicSharedPtr is a client of the model of AtomicSharedPtr: its memory is a state of that
  module, its runs are proved to use it as it demands, and its theorems rest on the ones proved there.
* A class with the fields of the source performs the same steps in place, one method per source function,
  each proved to do exactly what `Step` does; in the class the faulting accesses are plain map or array
  accesses that Dafny has to prove safe. `Execute` runs any schedule.

`RetiringQueue` (a queue used by one thread at a time) is instead real linked objects with the source's
loops, and `StampedPointer` is bit arithmetic on 64-bit words.

| file | source |
|---|---|
| `StampedPointer.dfy`, `StampedWords.dfy` | a pointer and a stamp packed into one word, and the pairs such words stand for |
| `SplitCountStack.dfy` | Treiber stack with split reference counts |
| `SharedPointers.dfy` | AtomicSharedPtr: differential counting, conservation and reclamation |
| `StampOverflow.dfy` | what happens to its counts when a stamp does not fit |
| `SharedRegisters.dfy` | its cells as registers, its answers and the references they amount to |
| `UnkeptDesired.dfy` | when a caller of compare-exchange must keep a reference to `desired` |
| `AtomicSharedPtr.dfy` | the cells and blocks as objects updated in place |
| `SharedStack.dfy` | the stack built on AtomicSharedPtr |
| `SplitCountAlone.dfy`, `SharedPointersAlone.dfy`, `SharedStackAlone.dfy`, `MichaelScottAlone.dfy`, `WorkStealingAlone.dfy` | what a thread left alone achieves in each of them |
| `MichaelScottQueue.dfy`, `RetiringQueue.dfy` | the concurrent queue, and the queue with retired nodes in serial use |
| `WorkStealing.dfy` | the single-producer work-stealing ring |
| `StrandExecutor.dfy`, `StrandAlone.dfy` | the strand and its lifetime; what one Run executes |
| `QueueSpinLock.dfy`, `FutexMutex.dfy`, `FiberMutex.dfy` | MCS lock, three-state futex mutex, fiber mutex |
| `CyclicBarrier.dfy` | the barrier with an entry gate |
| `FutureChain.dfy` | result/callback rendezvous and the Map, AndThen, OrElse stages |
| `DiningPhilosophers.dfy` | the fork protocol |
| `Counting.dfy`, `Histories.dfy`, `Words.dfy`, `Options.dfy` | shared: sums over threads, histories of pushes and pops, 64-bit words |

Where a promise fails outside its assumptions, the exact condition is proved:

* a step keeps the counts of the split-count stack unless it raises a stamp that is already 65535
  (`SplitCountStack.StepInv`; `OverflowLeaks` is a whole run in which a node is never freed);
* a step keeps the counts of AtomicSharedPtr unless it raises such a stamp, or is the overwriting store of
  Load on a cell that has changed since (`SharedPointers.StepInv`; `StampOverflow.OverflowLeaks` is a whole
  run that ends as no run within this condition can);
* callers of CompareExchangeWeak must keep a reference to `desired` unless there is one thread or no cell
  (`UnkeptDesired.PromiseNeeded`);
* an empty answer of Grab can be false throughout its call only if the ring has room for two items and
  there is a thread beside the owner, and then it can (`WorkStealing.TailFirstGrabMissesItems`);
* destroying the strand is safe if and only if nobody is inside Submit before its AddRef, or the only
  thread is and a Run is pending (`StrandExecutor.DropIsSafeExactly`);
* the philosophers' table can deadlock if and only if it has one seat
  (`DiningPhilosophers.DeadlockFreeUnlessOneSeat`).

## Model

| member | source | states |
|---|---|---|
| StampedPointer.PackUnpack | tasks/lockfree/stack/atomic_stamped_ptr.hpp:68-106 | every 64-bit word is the packing of the pair it unpacks to, and that pair is canonical with a stamp of 16 bits |
| StampedPointer.UnpackPack | tasks/lockfree/stack/atomic_stamped_ptr.hpp:68-106 | a pair survives packing if and only if its pointer is canonical and its stamp at most kMaxStamp |
| StampedPointer.WordComparisonIsPairComparison | tasks/lockfree/stack/atomic_stamped_ptr.hpp:148-166 | comparing packed words compares pointer and stamp for every word, exactly for the expected pairs that can be represented |
| StampedPointer.IncrementThroughWord | tasks/lockfree/stack/atomic_stamped_ptr.hpp:43-45 | storing an incremented stamp adds one to it below kMaxStamp, and restarts it at 0 there |
| StampedWords.StoredPair | tasks/lockfree/stack/atomic_stamped_ptr.hpp:135-146 | storing a pair whose stamp has at most just passed the limit stores the pair of numbers that the stack and the shared pointers compute with |
| StampedWords.ComparedPair | tasks/lockfree/stack/atomic_stamped_ptr.hpp:148-166 | the compare-and-swap of the packed word succeeds exactly when those pairs of numbers are equal |
| StampedPointer.AtomicStampedPtr.constructor | tasks/lockfree/stack/atomic_stamped_ptr.hpp:131-133 | the pair read afterwards is the given one if and only if it can be represented |
| StampedPointer.AtomicStampedPtr.Store | tasks/lockfree/stack/atomic_stamped_ptr.hpp:135-137 | the pair read afterwards is the stored one if and only if it can be represented |
| StampedPointer.AtomicStampedPtr.Load | tasks/lockfree/stack/atomic_stamped_ptr.hpp:139-141 | yields the current pair, which can be represented |
| StampedPointer.AtomicStampedPtr.Exchange | tasks/lockfree/stack/atomic_stamped_ptr.hpp:143-146 | yields the previous pair and stores the new one |
| StampedPointer.AtomicStampedPtr.CompareExchangeWeak | tasks/lockfree/stack/atomic_stamped_ptr.hpp:148-166 | succeeds, unless spuriously failing, if and only if pointer and stamp both match; on failure reports the current pair and changes nothing |
| SplitCountStack.StepInv | tasks/lockfree/stack/lock_free_stack.hpp:34-66 | a step keeps the law stamp + inner counter == number of threads holding the node (the stamp in head_ or, for a buried node, in its predecessor's next), and all else, if and only if it is not an Acquire that succeeds on a head_ with stamp 65535 |
| SplitCountStack.Linearizable | tasks/lockfree/stack/lock_free_stack.hpp:34-66 | in every run, with addresses reused, the log of linearization points is a legal LIFO history leaving exactly the chain; the events of each thread are the client's calls one by one, with the values passed to Push, and each TryPop's answer is that of its event |
| SplitCountStack.MemorySafe | tasks/lockfree/stack/lock_free_stack.hpp:54-63 | no thread touches a freed node; a node about to be deleted is off the stack, held and touched by nobody else; every allocated node is on the stack, unpublished or held |
| SplitCountStack.QuietStackOwnsTheHeap | tasks/lockfree/stack/lock_free_stack.hpp:41-66 | when no operation is under way, exactly the nodes listed from head_ are allocated: every popped node was freed |
| SplitCountStack.OverflowLeaks | tasks/lockfree/stack/lock_free_stack.hpp:43-50 | a run in which a stamp passes 65535 and a popped node is never freed |
| SplitCountAlone.AloneReturns | tasks/lockfree/stack/lock_free_stack.hpp:34-66 | from any reachable state a thread left alone, with no spurious failure, is out of Push within two steps and has its answer to TryPop within eleven, whatever others hold |
| SplitCountAlone.PushAlone | tasks/lockfree/stack/lock_free_stack.hpp:34-39 | a Push left alone from its start puts its value on top |
| SplitCountAlone.TryPopAlone | tasks/lockfree/stack/lock_free_stack.hpp:41-66 | a TryPop left alone from its start yields and removes the newest value, or nothing from an empty stack |
| SplitCountAlone.SpuriousFailure | tasks/lockfree/stack/lock_free_stack.hpp:38-54 | a compare-and-swap that fails for no reason changes neither head_ nor the chain, and its thread tries again |
| SplitCountStack.LockFreeStack.Push | tasks/lockfree/stack/lock_free_stack.hpp:34-39 | each access of Push, performed in place, is the model's step and keeps the invariant |
| SplitCountStack.LockFreeStack.TryPop | tasks/lockfree/stack/lock_free_stack.hpp:41-66 | each access of TryPop, performed in place, is the model's step, hits an allocated node and keeps the invariant |
| SplitCountStack.LockFreeStack.Execute | tasks/lockfree/stack/lock_free_stack.hpp:34-66 | any schedule performed in place is the model's run |
| SplitCountStack.LockFreeStack.Destroy | tasks/lockfree/stack/lock_free_stack.hpp:68-75 | the destructor of a quiet stack frees every node |
| SharedPointers.StepInv | tasks/lockfree/shared_ptr/shared_ptr.hpp:240-324 | an access of Load, Store, CompareExchangeWeak, of a reference copy or of a deletion keeps the conservation law of both counters of every block if and only if it raises no full 16-bit stamp and is not Load's overwriting store on a changed cell; with it the whole invariant |
| SharedPointers.HandleKeepsAlive | tasks/lockfree/shared_ptr/shared_ptr.hpp:105-146 | a block that a thread refers to is allocated, even while its own counting is still pending |
| SharedPointers.LinkKeepsAlive | tasks/lockfree/shared_ptr/shared_ptr.hpp:70-73 | so is a block to which the data of an allocated block refers |
| SharedPointers.Conserved | tasks/lockfree/shared_ptr/shared_ptr.hpp:240-324 | in every run, for every block: strong == cells pointing to it + references in blocks + what the threads stand for; transient + stamps of those cells == acquisitions in flight |
| SharedPointers.MemorySafe | tasks/lockfree/shared_ptr/shared_ptr.hpp:167-185 | no freed block is touched; what threads, cells and blocks refer to is allocated; a block about to be deleted is unreachable from all of them and nobody else is about to delete it |
| SharedPointers.QuietCounts | tasks/lockfree/shared_ptr/shared_ptr.hpp:240-296 | at rest strong == references in threads, cells and blocks, transient == minus the stamps, and exactly the blocks referred to are allocated |
| StampOverflow.OverflowLeaks | tasks/lockfree/shared_ptr/shared_ptr.hpp:313-324 | a run of one thread in which failing CompareExchangeWeak calls raise a stamp past 65535 and a block to which nobody refers stays allocated for ever; no run with fitting stamps ends so |
| SharedRegisters.Linearizable | tasks/lockfree/shared_ptr/shared_ptr.hpp:240-296 | the cells behave as atomic registers; each Load, Store and CompareExchangeWeak that the client calls, with a reference it owns or may copy, has exactly one event; its answer (the pointer loaded, true, or false with the pointer found) is that event's; and each thread owns exactly the references that its own moves and these answers amount to |
| SharedRegisters.AllowedTakesPlace | tasks/lockfree/shared_ptr/shared_ptr.hpp:105-146 | whatever a client is free to do with references it owns, or may copy out of data it refers to, takes place as a call, in every state |
| SharedPointersAlone.AloneReturns | tasks/lockfree/shared_ptr/shared_ptr.hpp:240-324 | from any reachable state a thread left alone is out of its operation within an explicit number of steps, in which every reference in a block counts three: deletions cascade at most once each |
| SharedPointersAlone.CallAlone | tasks/lockfree/shared_ptr/shared_ptr.hpp:240-296 | a call left alone from its start: Load yields the pointer and raises the stamp by one, folding it above the limit; Store overwrites; CompareExchangeWeak exchanges exactly if the cell holds `expected`, and otherwise answers with what it holds; the caller's references change accordingly |
| SharedPointersAlone.SpuriousFailure | tasks/lockfree/shared_ptr/shared_ptr.hpp:167-324 | a compare-and-swap that fails for no reason changes no cell, counter or block |
| UnkeptDesired.PromiseNeeded | tasks/lockfree/shared_ptr/shared_ptr.hpp:282-289 | runs with fitting stamps never touch a freed block without the callers' promise if and only if there is at most one thread or no cell: otherwise desired is published before it is counted and can be freed in between |
| AtomicSharedPtr.AtomicSharedPtrs.IncrementCounter | tasks/lockfree/shared_ptr/shared_ptr.hpp:167-185 | one turn of the counting loop, in place: a successful compare-and-swap adds what was asked to both counts, and the thread goes on to delete exactly if both are zero, when nobody can reach the block; the invariant is kept |
| AtomicSharedPtr.AtomicSharedPtrs.AcquireTransientRef | tasks/lockfree/shared_ptr/shared_ptr.hpp:313-324 | one turn of the acquisition loop, in place: the pointer stays, and exactly if the compare-and-swap succeeds its stamp is one higher and the thread has one acquisition of that block more; the invariant is kept |
| AtomicSharedPtr.AtomicSharedPtrs.Store | tasks/lockfree/shared_ptr/shared_ptr.hpp:258-267 | the exchange, in place: the cell holds the target with stamp 0, and the thread is left owing exactly the old stamp and the old pointer's count; the invariant is kept |
| AtomicSharedPtr.AtomicSharedPtrs.CompareExchangeWeak | tasks/lockfree/shared_ptr/shared_ptr.hpp:273-296 | the swing, in place: it succeeds exactly if the cell is as acquired and no failure is spurious; on success the cell holds desired, the answer is true and the old stamp less the acquisition is owed; on failure nothing changes and the acquisition remains to be given back; the invariant is kept |
| AtomicSharedPtr.AtomicSharedPtrs.Execute | tasks/lockfree/shared_ptr/shared_ptr.hpp:229-325 | any schedule that fits, performed in place, is the model's run |
| SharedStack.Linearizable | tasks/lockfree/shared_ptr/lock_free_stack.hpp:23-41 | in every run with fitting stamps, with nodes deleted when their counts say so and addresses reused, no access misses its node or value; the history is legal LIFO and leaves exactly the values that are read from top_ along next; each thread's events are its calls, with the values passed to Push, and its answers are those of its events |
| SharedStack.MemoryIsUsedProperly | tasks/lockfree/shared_ptr/lock_free_stack.hpp:24-37 | what the stack does with its memory is a run of SharedPointers that fits: at every CompareExchangeWeak the caller keeps a reference to desired (Push) or to a node whose data hold one (TryPop) |
| SharedStack.QuietStackOwnsTheMemory | tasks/lockfree/shared_ptr/lock_free_stack.hpp:23-41 | when no operation is under way exactly the nodes read from top_ along next are allocated: every popped node has been deleted by the counts alone |
| SharedStack.StepInv | tasks/lockfree/shared_ptr/lock_free_stack.hpp:23-41 | every step keeps the chain of next references, the ownership of every node, and the history of every thread, on top of the invariant of the memory |
| SharedStackAlone.AloneReturns | tasks/lockfree/shared_ptr/lock_free_stack.hpp:23-41 | from any reachable state a thread left alone is out of Push or TryPop within an explicit number of steps, those of the memory and all deletions included |
| SharedStackAlone.PushAlone | tasks/lockfree/shared_ptr/lock_free_stack.hpp:23-29 | a Push left alone from its start puts its value on top |
| SharedStackAlone.TryPopAlone | tasks/lockfree/shared_ptr/lock_free_stack.hpp:31-41 | a TryPop left alone from its start yields and removes the value on top, or nothing from an empty stack |
| SharedStack.LockFreeStack.Push | tasks/lockfree/shared_ptr/lock_free_stack.hpp:23-29 | what Push does between its operations on the memory, in place, is the model's step and keeps the invariant |
| SharedStack.LockFreeStack.TryPop | tasks/lockfree/shared_ptr/lock_free_stack.hpp:31-41 | what TryPop does between its operations on the memory, in place, is the model's step and keeps the invariant |
| SharedStack.LockFreeStack.MoveOut | tasks/lockfree/shared_ptr/lock_free_stack.hpp:38-38 | the value of a popped node is there, is moved out once, and the node is still allocated |
| SharedStack.LockFreeStack.Access | tasks/lockfree/shared_ptr/lock_free_stack.hpp:23-41 | each access inside an operation on the memory, performed by the shared pointer objects, is the model's step and keeps the invariant |
| SharedStack.LockFreeStack.Execute | tasks/lockfree/shared_ptr/lock_free_stack.hpp:23-41 | any schedule performed in place is the model's run |
| MichaelScottQueue.StepInv | tasks/lockfree/queue/lock_free_queue.hpp:51-95 | every step keeps the chain, the ownership of every node and the law of size_, with tail_ anywhere in the chain |
| MichaelScottQueue.LastIsUnique | tasks/lockfree/queue/lock_free_queue.hpp:64-67 | a node without a successor is the last of the chain: a link happens only there |
| MichaelScottQueue.Linearizable | tasks/lockfree/queue/lock_free_queue.hpp:51-95 | in every run the log is a legal FIFO history leaving exactly the values that are read after head_ along next, so an empty answer is true at its instant; the events of each thread are the client's calls one by one, with the values passed to Push, and each TryPop's answer is that of its event |
| MichaelScottQueue.WellFormed | tasks/lockfree/queue/lock_free_queue.hpp:29-32 | head_ is the node after the last popped one, tail_ some node of the chain, and size_ == length - pushes linked but uncounted + pops unlinked but uncounted, modulo 2^64 |
| MichaelScottAlone.AloneReturns | tasks/lockfree/queue/lock_free_queue.hpp:51-95 | from any reachable state a thread left alone is out of Push within four steps for each node ever linked and five more, and has its answer to TryPop within ten, wherever tail_ has been left |
| MichaelScottAlone.PushAlone | tasks/lockfree/queue/lock_free_queue.hpp:51-72 | a Push left alone from its start puts its value behind those held |
| MichaelScottAlone.TryPopAlone | tasks/lockfree/queue/lock_free_queue.hpp:74-95 | a TryPop left alone from its start yields and removes the oldest value, or nothing from an empty queue |
| MichaelScottAlone.TailFollowsByLuck | tasks/lockfree/queue/lock_free_queue.hpp:64-71 | after a link at the node tail_ points to, the last compare-and-swap brings tail_ to the new last node exactly if the variable that was never assigned happens to hold tail_; otherwise tail_ stays one node behind |
| MichaelScottAlone.SpuriousFailure | tasks/lockfree/queue/lock_free_queue.hpp:57-88 | a compare-and-swap that fails for no reason changes nothing shared, and its thread goes on |
| MichaelScottQueue.LockFreeQueue.Push | tasks/lockfree/queue/lock_free_queue.hpp:51-72 | each access of Push, in place, with helping, is the model's step; the last swing compares with an arbitrary value |
| MichaelScottQueue.LockFreeQueue.TryPop | tasks/lockfree/queue/lock_free_queue.hpp:74-95 | each access of TryPop, in place, is the model's step |
| MichaelScottQueue.LockFreeQueue.Count | tasks/lockfree/queue/lock_free_queue.hpp:102-104 | yields the length up to the operations between their link or unlink and their update of size_ |
| MichaelScottQueue.LockFreeQueue.Execute | tasks/lockfree/queue/lock_free_queue.hpp:51-95 | any schedule performed in place is the model's run |
| RetiringQueue.MSQueue.constructor | tasks/tasks/executors/exe/support/msqueue.hpp:42-46 | an empty queue of one sentinel |
| RetiringQueue.MSQueue.Put | tasks/tasks/executors/exe/support/msqueue.hpp:95-118 | appends the item, whatever the weak compare-and-swaps and the unassigned variable do; tail_ ends at the last node or its predecessor |
| RetiringQueue.MSQueue.Take | tasks/tasks/executors/exe/support/msqueue.hpp:120-137 | removes and yields the oldest item, or nothing when there is none; fewer than ten nodes stay retired |
| RetiringQueue.MSQueue.CollectGarbage | tasks/tasks/executors/exe/support/msqueue.hpp:177-188 | once ten nodes are retired deletes the five oldest, none of them deleted before, and otherwise nothing; never the newest one, to which tail_ may point |
| RetiringQueue.MSQueue.IsEmpty | tasks/tasks/executors/exe/support/msqueue.hpp:139-141 | true exactly when nothing is held |
| RetiringQueue.MSQueue.Count | tasks/tasks/executors/exe/support/msqueue.hpp:143-145 | the number of items held |
| RetiringQueue.MSQueue.Destroy | tasks/tasks/executors/exe/support/msqueue.hpp:89-93 | every node the queue ever allocated has been deleted exactly once |
| RetiringQueue.MSQueue.DeleteList | tasks/tasks/executors/exe/support/msqueue.hpp:162-173 | deletes the list and then the retired nodes, each once; every node is read through an accessor that demands it is not deleted |
| RetiringQueue.Live | tasks/tasks/executors/exe/support/msqueue.hpp:42-137 | over a whole life, any calls are answered like a sequential queue, and all 1 + number of puts nodes, all different, are deleted exactly once |
| RetiringQueue.FirstInFirstOut | tasks/tasks/executors/exe/support/msqueue.hpp:95-137 | the items taken, in order, followed by those still held, are the items put |
| WorkStealing.StepInv | tasks/lockfree/steal/work_stealing_queue.hpp:50-116 | every step keeps every slot between head_ and tail_ intact and every batch copied so far the oldest items, as long as head_ is the one first seen |
| WorkStealing.SlotsDiffer | tasks/lockfree/steal/work_stealing_queue.hpp:118-120 | two positions less than a lap apart have different slots |
| WorkStealing.Linearizable | tasks/lockfree/steal/work_stealing_queue.hpp:50-94 | the log is a legal history of a queue of at most Capacity items; what was delivered, batch after batch, is a prefix of what was pushed: each item at most once, in push order; each thread's answers suit its calls one by one, with the items passed to TryPush, and its events are the effects of the answers that are no refusals |
| WorkStealing.AnswersHold | tasks/lockfree/steal/work_stealing_queue.hpp:50-94 | in every run: a full or empty answer is true at the load it names; a batch is never larger than the caller's buffer, nor than the tail_ less the head_ it was counted by, which is between 1 and the capacity, and it has one of these two sizes |
| WorkStealingAlone.AloneReturns | tasks/lockfree/steal/work_stealing_queue.hpp:50-94 | from any reachable state a thread left alone answers within five steps in TryPush, eight in TryPop, and two for each place of its buffer and six more in Grab |
| WorkStealingAlone.CallAlone | tasks/lockfree/steal/work_stealing_queue.hpp:50-94 | a call left alone from its start: TryPush accepts its item exactly if the ring is not full, TryPop yields the oldest item, Grab the min(room, n) oldest of n items in order; what remains is exactly the rest |
| WorkStealing.TailFirstGrabMissesItems | tasks/lockfree/steal/work_stealing_queue.hpp:79-82 | for every capacity and number of threads: a Grab whose count loads tail_ first can answer 0 although the ring was never empty during its call if and only if the capacity is at least 2 and there is a second thread |
| WorkStealing.WorkStealingQueue.TryPush | tasks/lockfree/steal/work_stealing_queue.hpp:50-58 | each access of TryPush, performed on the array, is the model's step |
| WorkStealing.WorkStealingQueue.TryPop | tasks/lockfree/steal/work_stealing_queue.hpp:61-73 | each access of TryPop, in place, is the model's step; the slot index is in bounds |
| WorkStealing.WorkStealingQueue.Grab | tasks/lockfree/steal/work_stealing_queue.hpp:75-94 | each access of Grab, with its copy loop, in place, is the model's step, also when the count wraps |
| WorkStealing.WorkStealingQueue.Execute | tasks/lockfree/steal/work_stealing_queue.hpp:50-94 | any schedule performed in place is the model's run |
| StrandExecutor.StepInv | tasks/tasks/executors/exe/executors/strand.cpp:43-78 | every step keeps the order of the tasks, the meaning of both counters, the single turn and the reference count |
| StrandExecutor.UnsignedTestIsRight | tasks/tasks/executors/exe/executors/strand.cpp:64-67 | the unsigned comparison of the wrapped counter decides exactly whether counted tasks are still waiting |
| StrandExecutor.MutualExclusion | tasks/tasks/executors/exe/executors/strand.cpp:57-69 | at most one thread is inside Run up to its update of scheduled_, and then no other Run is pending |
| StrandExecutor.NothingLost | tasks/tasks/executors/exe/executors/strand.cpp:43-78 | Take never meets an empty queue; tasks executed, then in hand, then queued are exactly the tasks linked, in link order; and each task is linked, or about to be, as often as the client submitted it |
| StrandExecutor.CountersMean | tasks/tasks/executors/exe/executors/strand.cpp:43-65 | scheduled_ is increments minus completions, wrapped; that integer is positive exactly while one Run is pending, executing or about to be handed over; size_ is at least 1 where it is lowered |
| StrandExecutor.QuietMeansDone | tasks/tasks/executors/exe/executors/strand.cpp:43-69 | when no Submit and no Run is outstanding, the tasks executed are exactly those submitted, each as often, the queue is empty and both counters are 0 |
| StrandExecutor.EverythingGetsDone | tasks/tasks/executors/exe/executors/strand.cpp:43-78 | from any state a run can reach, up to 2^64 tasks, some continuation without new Submits reaches quiet with an empty queue and the tasks executed exactly those submitted, each as often |
| StrandAlone.RunTakesAllCounted | tasks/tasks/executors/exe/executors/strand.cpp:57-62 | in every run, when a Run begins to execute, every task counted in size_ has been taken; with nobody between link and count the queue is empty |
| StrandAlone.OneRunDoesAll | tasks/tasks/executors/exe/executors/strand.cpp:57-78 | with no Submit under way, the pending Run, begun by any thread and left alone, executes all tasks in order, in five steps each, and is not resubmitted |
| StrandExecutor.Lifetime | tasks/tasks/executors/exe/support/refer/ref_counted.hpp:16-28 | the count is one for the living Strand plus one per unreleased Run; the Impl is deleted once, when they are gone, with everything submitted executed and nobody left to touch it |
| StrandExecutor.DropIsSafeExactly | tasks/tasks/executors/exe/executors/strand.cpp:43-55 | from any state a run can reach, up to 2^64 tasks: no continuation after destroying the Strand touches the deleted Impl if and only if nobody is inside Submit before its AddRef, or the only thread is and a Run is pending |
| StrandExecutor.StrandImpl.Submit | tasks/tasks/executors/exe/executors/strand.cpp:43-55 | each access of Submit and SubmitSelf, in place, is the model's step on a living Impl |
| StrandExecutor.StrandImpl.RunLoop | tasks/tasks/executors/exe/executors/strand.cpp:57-69 | each access of Run, in place, is the model's step on a living Impl with a task to take |
| StrandExecutor.StrandImpl.Work | tasks/tasks/executors/exe/executors/strand.cpp:71-78 | each turn of RunTasks, in place, executes the next task of the local queue |
| StrandExecutor.StrandImpl.Release | tasks/tasks/executors/exe/support/refer/ref_counted.hpp:24-28 | a Run gives up its reference on a living Impl; the Impl is deleted exactly if neither the Strand nor a Run nor a Submit holds one, and then everything linked has been executed and nobody comes back; the invariant is kept |
| StrandExecutor.StrandImpl.Execute | tasks/tasks/executors/exe/executors/strand.hpp:21-35 | any schedule that fits, performed in place, is the model's run |
| QueueSpinLock.StepInv | tasks/mutex/queue/queue_spinlock.hpp:60-85 | every step keeps the waiters one line ending at tail_, also while some are not yet linked |
| QueueSpinLock.MutualExclusion | tasks/mutex/queue/queue_spinlock.hpp:60-85 | two threads never own the lock at once |
| QueueSpinLock.HandOffInExchangeOrder | tasks/mutex/queue/queue_spinlock.hpp:61-81 | threads enter the critical section exactly in the order of their exchanges of tail_ |
| QueueSpinLock.GuardsAreSafe | tasks/mutex/queue/queue_spinlock.hpp:37-54 | no guard is read or written before its construction or after its Release has returned; a guard that is done with is not in the line |
| QueueSpinLock.NeverStuck | tasks/mutex/queue/queue_spinlock.hpp:68-84 | whenever a thread is in the line, some thread of the line can take a step that is no mere retry and brings it nearer to the end of its Release |
| QueueSpinLock.EverybodyGetsIn | tasks/mutex/queue/queue_spinlock.hpp:60-85 | from any reachable state some continuation without new calls brings every thread inside Acquire to own the lock, and all out of Release |
| QueueSpinLock.CallerGetsIn | tasks/mutex/queue/queue_spinlock.hpp:60-85 | from any reachable state, for any idle thread and any free address, some continuation that begins with its call brings it to own the lock, and all out |
| QueueSpinLock.EachCallEntersOnce | tasks/mutex/queue/queue_spinlock.hpp:60-72 | in every run a thread has entered once for each call that the client made from it, up to the one under way |
| QueueSpinLock.AcquireAlone | tasks/mutex/queue/queue_spinlock.hpp:60-72 | a free lock is taken by a call left alone in three steps, with exactly this effect |
| QueueSpinLock.ReleaseAlone | tasks/mutex/queue/queue_spinlock.hpp:74-85 | a Release with nobody behind empties tail_ and ends the guard in four steps |
| QueueSpinLock.SpinLock.Acquire | tasks/mutex/queue/queue_spinlock.hpp:60-72 | each access of Acquire, in place, is the model's step on living guards |
| QueueSpinLock.SpinLock.Release | tasks/mutex/queue/queue_spinlock.hpp:74-85 | each access of Release, in place, is the model's step on living guards |
| FutexMutex.StepInv | tasks/mutex/mutex/mutex.hpp:22-46 | every step keeps the word Unlocked exactly while nobody holds the mutex, and every sleeper announced |
| FutexMutex.MutualExclusion | tasks/mutex/mutex/mutex.hpp:22-40 | two threads never hold the mutex, and while one does the word says so |
| FutexMutex.NoLostWakeUp | tasks/mutex/mutex/mutex.hpp:22-40 | while a thread sleeps, some awake thread answers for it (the holder of a word marked Sleeping, an unlocker owing a WakeOne, a thread in the slow path) and can take a step |
| FutexMutex.EverybodyGetsIn | tasks/mutex/mutex/mutex.hpp:22-40 | from any reachable state some continuation without new calls and spurious wake-ups brings every thread inside Lock, asleep or not, to hold the mutex, and all out of it |
| FutexMutex.CallerGetsIn | tasks/mutex/mutex/mutex.hpp:22-40 | from any reachable state, for any idle thread, some continuation that begins with its call of Lock brings it to hold the mutex, and all out |
| FutexMutex.EachCallEntersOnce | tasks/mutex/mutex/mutex.hpp:22-33 | in every run a thread has held the mutex once for each call of Lock that the client made from it, up to the one under way |
| FutexMutex.LockAlone | tasks/mutex/mutex/mutex.hpp:22-33 | a call of Lock left alone takes a free mutex in one step; otherwise it marks the word Sleeping if it is not and sleeps, without a further attempt |
| FutexMutex.UnlockAlone | tasks/mutex/mutex/mutex.hpp:35-39 | Unlock frees the word, and wakes one sleeper exactly if the word was Sleeping and somebody sleeps |
| FutexMutex.SpuriousWakeUp | tasks/mutex/mutex/mutex.hpp:25-32 | a sleeper woken for no reason takes a free mutex, or sleeps again with the word marked Sleeping |
| FutexMutex.NobodyIsLeftAsleep | tasks/mutex/mutex/mutex.hpp:22-40 | when all threads are idle or asleep, none is asleep and the mutex is free |
| FutexMutex.Mutex.Cmpxchg | tasks/mutex/mutex/mutex.hpp:43-46 | yields the word as it was and changes it only if it was the expected one |
| FutexMutex.Mutex.LockNext | tasks/mutex/mutex/mutex.hpp:22-33 | each step of Lock, in place, is the model's step |
| FutexMutex.Mutex.Release | tasks/mutex/mutex/mutex.hpp:35-36 | the exchange of Unlock, in place: it owes a WakeOne unless the word was Locked |
| FutexMutex.Mutex.WakeOne | tasks/mutex/mutex/mutex.hpp:37-38 | wakes one sleeper of the scheduler's choice, if there is one |
| FiberMutex.StepInv | tasks/fibers/mutex/exe/fibers/sync/mutex.hpp:52-99 | every step keeps one owner, the queue of parked fibers and the truth of the status |
| FiberMutex.MutualExclusion | tasks/fibers/mutex/exe/fibers/sync/mutex.hpp:52-99 | at most one fiber holds the mutex, unlocks it or has been given it |
| FiberMutex.StatusTellsWaiters | tasks/fibers/mutex/exe/fibers/sync/mutex.hpp:60-66 | whenever the spinlock is free, LockedWithWaiters holds if and only if the queue is not empty; the unlocker never takes from an empty queue |
| FiberMutex.HandOffInParkingOrder | tasks/fibers/mutex/exe/fibers/sync/mutex.hpp:87-98 | the mutex passes to the parked fibers in parking order, and the status is never None before all of them have had it |
| FiberMutex.ParkedHasOwner | tasks/fibers/mutex/exe/fibers/sync/mutex.hpp:52-99 | while a fiber is parked there is an owner, and some fiber can move on |
| FiberMutex.EverybodyGetsIn | tasks/fibers/mutex/exe/fibers/sync/mutex.hpp:52-99 | from any reachable state some continuation without new calls brings every fiber inside Lock, parked or not, to hold the mutex, and all out of it |
| FiberMutex.CallerGetsIn | tasks/fibers/mutex/exe/fibers/sync/mutex.hpp:52-99 | from any reachable state, for any fiber outside, some continuation that begins with its call of Lock brings it to hold the mutex, and all out |
| FiberMutex.EachCallEntersOnce | tasks/fibers/mutex/exe/fibers/sync/mutex.hpp:52-72 | in every run a fiber has held the mutex once for each call of Lock that the client made from it, up to the one under way |
| FiberMutex.LockAlone | tasks/fibers/mutex/exe/fibers/sync/mutex.hpp:52-72 | with the spinlock free, a call of Lock left alone takes a free mutex in one step, or marks the status once, parks behind the others and frees the spinlock |
| FiberMutex.UnlockFree | tasks/fibers/mutex/exe/fibers/sync/mutex.hpp:80-85 | Unlock without waiters frees the mutex in one step |
| FiberMutex.UnlockAlone | tasks/fibers/mutex/exe/fibers/sync/mutex.hpp:80-99 | Unlock with waiters hands the mutex to the oldest, which runs on as holder; the status then tells whether others wait |
| FiberMutex.Mutex.LockAwait | tasks/fibers/mutex/exe/fibers/sync/mutex.hpp:52-72 | each access of LockAwaiter, in place, is the model's step |
| FiberMutex.Mutex.UnlockAwait | tasks/fibers/mutex/exe/fibers/sync/mutex.hpp:80-99 | each access of UnlockAwaiter, in place, is the model's step |
| CyclicBarrier.StepInv | tasks/cond/barrier/cyclic_barrier.hpp:36-70 | every step keeps the counters of the round, the flag and every sleeper's claim |
| CyclicBarrier.NobodyReturnsEarly | tasks/cond/barrier/cyclic_barrier.hpp:36-70 | no thread returns from its k-th call before all have begun theirs, and completed calls differ by at most one |
| CyclicBarrier.RoundsNeverMix | tasks/cond/barrier/cyclic_barrier.hpp:38-69 | arrived_ and departed_ count the current round only, despite the unlocked gate check and the gap between the two locked regions; a thread past its wait has all others arrived beside it |
| CyclicBarrier.NobodyOversleeps | tasks/cond/barrier/cyclic_barrier.hpp:41-68 | a sleeper whose condition holds is about to be woken by the owner of the mutex, at the wait and at the gate |
| CyclicBarrier.NeverDeadlocked | tasks/cond/barrier/cyclic_barrier.hpp:36-70 | while all participants are inside, some thread can move on |
| CyclicBarrier.EverybodyLeaves | tasks/cond/barrier/cyclic_barrier.hpp:36-70 | from any reachable state some continuation without spurious wake-ups, in which each thread calls at most once more, brings all threads out of the barrier |
| CyclicBarrier.AnotherRound | tasks/cond/barrier/cyclic_barrier.hpp:36-70 | whenever all are outside, all can call and complete exactly one call more |
| CyclicBarrier.EachCallCompletesOnce | tasks/cond/barrier/cyclic_barrier.hpp:36-70 | in every run a thread has completed each call that the client made from it, up to the one under way |
| CyclicBarrier.CallAlone | tasks/cond/barrier/cyclic_barrier.hpp:38-54 | a call left alone arrives at an open gate and sleeps at the wait, unless it is the last; at a closed gate it sleeps there, uncounted; in exactly so many steps |
| CyclicBarrier.LeavesGate | tasks/cond/barrier/cyclic_barrier.hpp:41-49 | a thread that finds the gate open lets the mutex go before it takes it again to arrive |
| CyclicBarrier.SpuriousWakeUp | tasks/cond/barrier/cyclic_barrier.hpp:41-54 | a sleeper woken for no reason while its condition does not hold goes back to sleep, and nothing has changed |
| CyclicBarrier.Barrier.Approach | tasks/cond/barrier/cyclic_barrier.hpp:38-47 | each step without the mutex, in place, is the model's step |
| CyclicBarrier.Barrier.Proceed | tasks/cond/barrier/cyclic_barrier.hpp:41-70 | each step inside the mutex, in place, is the model's step |
| FutureChain.StepInv | tasks/futures/fun/exe/futures/state/shared_state.hpp:56-107 | every access of SetResult and SetCallback and every callback keeps one submission per meeting and the fold in every state |
| FutureChain.SubmittedExactlyOnce | tasks/futures/fun/exe/futures/state/shared_state.hpp:63-73 | each callback is submitted at most once, never before result and callback are there, and exactly once when both sides are through |
| FutureChain.ResultsAreFolds | tasks/futures/fun/exe/futures/state/shared_state.hpp:97-107 | every callback is submitted with the fold of the stages before it, and the final result, and what GetResult yields, is the fold of all |
| FutureChain.SettledMeansDone | tasks/futures/fun/exe/futures/state/shared_state.hpp:56-74 | once nobody has a step left, every callback has run exactly once and the final result is there |
| FutureChain.RunsAreFinite | tasks/futures/fun/exe/futures/state/shared_state.hpp:56-107 | a run has at most a fixed number of steps that change anything |
| FutureChain.NeverStuck | tasks/futures/fun/exe/futures/state/shared_state.hpp:56-107 | as long as the final result is missing, some step is possible |
| FutureChain.ErrorsPass | tasks/futures/fun/exe/futures/combine/seq/and_then.hpp:28-43 | an error passes all Map and AndThen stages unchanged up to the next OrElse |
| FutureChain.ValuesPass | tasks/futures/fun/exe/futures/combine/seq/or_else.hpp:18-28 | a value passes all OrElse stages unchanged |
| FutureChain.FoldIsTwoRails | tasks/futures/fun/exe/futures/combine/seq/map.hpp:23-34 | the stage-by-stage fold equals the chain read from the front on two rails, values through Map and AndThen, errors to OrElse |
| FutureChain.ResultIsTwoRails | tasks/futures/fun/exe/futures/types/future.hpp:36-38 | what GetResult returns is the two-rail meaning of the whole chain on its input |
| FutureChain.GetResultReturns | tasks/futures/fun/exe/futures/types/future.hpp:36-38 | GetResult returns the two-rail meaning whenever the final result is there, which it is at the latest when all is settled |
| FutureChain.ResultArrives | tasks/futures/fun/exe/futures/state/shared_state.hpp:56-107 | from any reachable state some continuation makes GetResult return the two-rail meaning |
| FutureChain.InvokeInv | tasks/futures/fun/exe/futures/combine/seq/map.hpp:23-34 | a running callback starts the next promise with the stage applied to its result, and only then |
| FutureChain.Chain.SetResult | tasks/futures/fun/exe/futures/state/shared_state.hpp:56-66 | each access of SetResult, in place, is the model's step |
| FutureChain.Chain.SetCallback | tasks/futures/fun/exe/futures/state/shared_state.hpp:68-74 | each access of SetCallback, in place, is the model's step |
| FutureChain.Chain.SubmitCallback | tasks/futures/fun/exe/futures/state/shared_state.hpp:97-107 | the second of producer and subscriber submits, for the first and only time, with the fold of the stages before; result and callback move out; the invariant is kept |
| DiningPhilosophers.StepInv | tasks/mutex/dining/philosopher.cpp:15-43 | every step keeps each fork with the one philosopher whose place in the code holds it, and the meals counted |
| DiningPhilosophers.PlatesAreGuarded | tasks/mutex/dining/philosopher.cpp:32-37 | only the holder of fork i is at plate i, so no two philosophers are at one plate |
| DiningPhilosophers.RanksRise | tasks/mutex/dining/philosopher.cpp:22-30 | on a table of at least two seats every philosopher takes forks in one common rising order |
| DiningPhilosophers.SomebodySteps | tasks/mutex/dining/philosopher.cpp:22-30 | a hungry philosopher can step, or one found by following the forks to higher ranks can |
| DiningPhilosophers.DeadlockFreeUnlessOneSeat | tasks/mutex/dining/table.hpp:27-37 | no run ends in a deadlock if and only if the table does not have exactly one seat |
| DiningPhilosophers.AllCanFinish | tasks/mutex/dining/philosopher.cpp:15-43 | from any reachable state of a table of at least two seats all philosophers can finish, in as many steps as the meals have left |
| DiningPhilosophers.AnybodyCanEat | tasks/mutex/dining/philosopher.cpp:15-43 | on a table of at least two seats any philosopher who thinks can be asked to eat and have one meal more, and all others finish theirs |
| DiningPhilosophers.MealsAreCalls | tasks/mutex/dining/philosopher.cpp:15-43 | in every run a philosopher who thinks has had one meal for each time the client asked him to eat |
| DiningPhilosophers.Table.EatNext | tasks/mutex/dining/philosopher.cpp:15-43 | each step of Eat, in place, is the model's step |

## Left out

- Weak memory: every model assumes sequential consistency; the memory orders of the source are not modelled.
- SharedPointers.StepInv: runs in which a stamp passes 65535, or Load's overwriting store meets a changed cell, are not followed further: the lemma shows that conservation then fails.
- Progress is proved for a thread left alone and as the existence of continuations; that under contention some thread always gets done, and fairness, are not modelled.
- Counter widths: the 32-bit counters of control blocks and of stack nodes and the reference count of the strand are unbounded integers; the 16-bit stamps and the 64-bit size_, scheduled_ and ring positions wrap.
- References in the data of a block can be added and copied while it is shared, and are dropped when it is deleted; taking one out of a shared block would be a data race of the client.
- The control block of a deleted block is freed at once and the references in its data are dropped after that, one by one; the source drops them first and frees the control block last. Nobody can reach the block in between, so the model only lets the allocator reuse its address earlier.
- The `expected` reference of CompareExchangeWeak is accounted to its thread also where it is a member of the private new node (SharedStack); it moves into the node when the exchange succeeds. The destructor of the stack is not modelled.
- WorkStealing.Linearizable: does not model 2^64 or more pushes, because positions would restart in the middle of a lap; nor that an empty Grab whose count loads tail_ first is true, because it need not be (TailFirstGrabMissesItems).
- StrandExecutor: the queue of tasks is the linearizable FIFO of MichaelScottQueue and the local queue a sequence; underlying executor and tasks are arbitrary schedules.
- The nodes of the concurrent LockFreeQueue are never freed while it lives, as in the source; its destructor, the reclamation of MSQueue under concurrent Put, MSQueue::Swap and all of tasks/lockfree/hazard are not modelled.
- FutexMutex: PrepareWake and WakeOne are one step after the exchange; a mutex destroyed between them is not modelled.
- FiberMutex: suspending, running and scheduling fibers are abstract steps.
- FutureChain: Via and GetExecutor, the lock and condition variable around the result, First, All, Flatten and FlatMap are not modelled; user functions are total.
- CyclicBarrier: exactly `participants_` threads use it; other numbers of callers are not modelled.
- Thread pools, wait groups, semaphores, ticket and test-and-set locks, blocking queues, condition variables of the repository's own, coroutines, timers, logging and tests.
