# Verified models of a concurrency and networking exercise collection

The repository works through two books' worth of C++ exercises: lock-free and lock-based containers, a
helping thread pool, parallel algorithms, and a set of asio servers. This project models the parts in which
something can go wrong in a way that reading one function does not show, and proves that it does not (or
says exactly when it does).

* **Lock-free stacks.** `RcStack` (split reference counts), `HpStack` (hazard pointers) and `CountStack`
  (a count of the threads in pop). Each is a shared heap with one program counter per thread; a step is one
  atomic operation, allocation, deletion or node access, threads step in any order and number, and addresses
  are reused after deletion. For each: memory safety, deletion exactly once and only when nobody can still
  read the node, conservation of nodes, the ABA argument, and linearizability against the sequential stack of
  `LinearSpec`. For the counting stack the crash of an empty pop is characterized exactly; for the
  reference-counted one `RcStackLockFree` says that it is lock-free exactly if no two threads pop, whereas the
  other two always are (`HpStackLockFree`, `CountStackLockFree`); the `...Races` modules say which of them have
  data races on plain fields. `Allocation` accounts for addresses that are used again. Each object has a
  module for the model, one for its invariant, one for the refinement, and one (`...Theorems`) for what holds
  in every run; the other objects with several threads are laid out in the same way.
* **Helping thread pool.** `ThreadPool` runs the parallel quicksort with any number of workers, zero included.
  Nested waiting never deadlocks, the work is bounded, the result is a sorted permutation, and nothing is
  left queued when the sort returns.
* **Fine-grained locking.** `TwoLockQueue` (linearizable FIFO, free of data races and deadlock, nothing
  leaked), `LockedList` (hand-over-hand walks, linearizable at the lock of the head), `LockedTable` (the
  lookup table with its bucket mutexes, linearizable as a map, whole-table copies included),
  `HierarchicalMutex` (no waiting cycle; unlocking in another order breaks the discipline and a deadlock is
  exhibited). `SimpleQueue`, `SequentialList`, `LookupTable` and `MutexObject` are the same objects as one
  thread uses them: linked nodes, loops and fields updated in place.
* **HTTP.** `SwitchParser` and `CoroutineParser`, built on `HttpMessage`; `ParserAgreement` says exactly when
  the two agree; `ReplyPrinter` prints header blocks and reads them back.
* **Arithmetic, delivery, parallel algorithms.** `IcmpChecksum` (32-bit sums, folding, error detection),
  `ChatRoom` (what each client is sent), `ParallelFold` and `ParallelWorkers` (blocks, fold and map under
  every interleaving).

Memory is sequentially consistent and integers are unbounded except where a width is written out
(`IcmpChecksum`). All pointers and counters start null and zero, although some constructors in the repository
leave them unset. Where spelling slips keep a template from compiling, the evident intent is modelled
(`threadsafe_list.hpp:56-63` declares `lock` and uses `lk`; `get_map` reads private members of the bucket and
keeps lock guards, which cannot be moved, in a vector).

`dafny verify dfyconfig.toml` checks the whole project.

## Model

| member | source | states |
|---|---|---|
| RcStackTheorems.MemorySafety | cpp-concurrency-in-action/7.lock_free/lock_free_stack_with_rc.hpp:44-118 | no schedule of any number of pushes and pops makes a step reach a node that has been deleted, even if its address is in use again |
| RcStackTheorems.CountLaw | cpp-concurrency-in-action/7.lock_free/lock_free_stack_with_rc.hpp:26-56 | while a node is linked, external plus internal count is one more than the number of threads that counted it and have not released it |
| RcStackTheorems.DeletedOnce | cpp-concurrency-in-action/7.lock_free/lock_free_stack_with_rc.hpp:97-110 | every allocation is either live or deleted, and a step deletes only what had not been deleted before |
| RcStackTheorems.NothingLeaks | cpp-concurrency-in-action/7.lock_free/lock_free_stack_with_rc.hpp:78-118 | when no thread is inside pop, a live node is linked or about to be linked by a push |
| RcStackTheorems.NextIsCurrent | cpp-concurrency-in-action/7.lock_free/lock_free_stack_with_rc.hpp:83-90 | when pop's compare-exchange succeeds, the `next` read earlier is still the link of the top node, despite address reuse |
| RcStackTheorems.RunRefines | cpp-concurrency-in-action/7.lock_free/lock_free_stack_with_rc.hpp:68-118 | every run is linearizable: its calls, effects and returned values are those of a sequential stack holding the linked values |
| RcStackTheorems.RunConserves | cpp-concurrency-in-action/7.lock_free/lock_free_stack_with_rc.hpp:68-118 | values pushed are exactly the values popped and the values still linked, each as often |
| RcStackProgress.PopAloneFinishes | cpp-concurrency-in-action/7.lock_free/lock_free_stack_with_rc.hpp:78-118 | in every reachable state a pop that runs alone comes to its return within ten of its steps |
| RcStackProgress.PopsStarve | cpp-concurrency-in-action/7.lock_free/lock_free_stack_with_rc.hpp:44-56 | two pops can alternate for ever between counting the node and failing in the compare-exchange for that reason: for every n there is a run in which the last 4n steps are theirs, the stack holds a value, and nothing takes effect or returns |
| RcStackLockFree.LockFreeExactly | cpp-concurrency-in-action/7.lock_free/lock_free_stack_with_rc.hpp:44-118 | there is a bound on the steps a thread makes while no operation takes effect or returns, over all runs in which only the threads of a set are asked to pop, if and only if no two of them are different; then twelve is one |
| RcStackRaces.NoDataRace | cpp-concurrency-in-action/7.lock_free/lock_free_stack_with_rc.hpp:68-118 | in every reachable state no thread is about to write a plain field of a node, or delete it, while another is about to access the field |
| RcStackRaces.ReadsAll | cpp-concurrency-in-action/7.lock_free/lock_free_stack_with_rc.hpp:68-118 | a step depends only on the plain fields said to be read or written |
| RcStackInvariant.StepInv | cpp-concurrency-in-action/7.lock_free/lock_free_stack_with_rc.hpp:44-118 | the invariant tying counts, links and node roles to the program counters is kept by every step |
| HpStackTheorems.MemorySafety | cpp-concurrency-in-action/7.lock_free/lock_free_stack_with_hp.hpp:106-213 | no step touches a deleted node or reclaim record, and a sweep walks only over records private to its thread |
| HpStackTheorems.DeletionSafety | cpp-concurrency-in-action/7.lock_free/lock_free_stack_with_hp.hpp:72-80 | with the scan done one slot per step, a node is deleted only when it is unlinked, no other thread has published and re-validated it or owns it, and it had not been deleted |
| HpStackInvariant.NoGuards | cpp-concurrency-in-action/7.lock_free/lock_free_stack_with_hp.hpp:121-137 | when a scan has passed all slots, no thread guards the scanned node, although slots change during the scan |
| HpStackInvariant.ValidateInv | cpp-concurrency-in-action/7.lock_free/lock_free_stack_with_hp.hpp:185-191 | re-validation succeeds only for the node at the head, which no scan is deciding on, and keeps the invariant |
| HpStackInvariant.ClaimInv | cpp-concurrency-in-action/7.lock_free/lock_free_stack_with_hp.hpp:37-62 | claiming a free slot keeps slots owned by one thread each and the invariant of all others |
| HpStackTheorems.Conserved | cpp-concurrency-in-action/7.lock_free/lock_free_stack_with_hp.hpp:108-137 | a live node is in exactly one place: linked, being pushed, owned by its popper, on the reclaim list, or on one sweep's private list; a deleted one in none; every allocation is live or deleted |
| HpStackTheorems.NoStaleHazards | cpp-concurrency-in-action/7.lock_free/lock_free_stack_with_hp.hpp:194-207 | a slot holds a pointer only while its owner is between publishing and clearing it, so a node is set aside only because another thread has published it |
| HpStackTheorems.NextIsCurrent | cpp-concurrency-in-action/7.lock_free/lock_free_stack_with_hp.hpp:181-192 | when pop's compare-exchange succeeds, the node and the `next` read earlier are the current ones |
| HpStackTheorems.RunRefines | cpp-concurrency-in-action/7.lock_free/lock_free_stack_with_hp.hpp:171-213 | every run is linearizable as a stack whose items are the values found along the links from the head; reclaiming is invisible |
| HpStackTheorems.RunConserves | cpp-concurrency-in-action/7.lock_free/lock_free_stack_with_hp.hpp:171-213 | values pushed are exactly those popped and those still linked |
| HpStackLockFree.LockFree | cpp-concurrency-in-action/7.lock_free/lock_free_stack_with_hp.hpp:106-213 | from every reachable state there is a bound on the steps of all threads together in which no operation takes effect or returns, although retired nodes go back and forth between sweeps |
| HpStackRaces.NoDataRace | cpp-concurrency-in-action/7.lock_free/lock_free_stack_with_hp.hpp:108-213 | in every reachable state no thread is about to write or delete a field of a node, or a reclaim record, that another is about to access |
| HpStackRaces.ReadsAll | cpp-concurrency-in-action/7.lock_free/lock_free_stack_with_hp.hpp:108-213 | a step depends only on the plain fields and records said to be read or written |
| CountStackTheorems.MemorySafety | cpp-concurrency-in-action/7.lock_free/lock_free_stack.hpp:36-119 | no step touches a deleted node; the counter is the number of threads in pop; lists walked or deleted belong to the thread |
| CountStackTheorems.DeletionSafety | cpp-concurrency-in-action/7.lock_free/lock_free_stack.hpp:46-74 | a node is deleted once, off the stack and the pending list, when no other thread can reach it |
| CountStackTheorems.Conserved | cpp-concurrency-in-action/7.lock_free/lock_free_stack.hpp:76-90 | a live node is in exactly one place while pending lists are taken and chained again; a deleted one in none |
| CountStackTheorems.CrashExactly | cpp-concurrency-in-action/7.lock_free/lock_free_stack.hpp:46-73 | a run dereferences null if and only if some thread whose pop found the stack empty tests the counter while another thread is in pop, and is scheduled again later |
| CountStackTheorems.EmptyPop | cpp-concurrency-in-action/7.lock_free/lock_free_stack.hpp:49-71 | a step brings a thread before that access exactly if it is such a test |
| CountStackTheorems.TwoEmptyPopsCrash | cpp-concurrency-in-action/7.lock_free/lock_free_stack.hpp:104-116 | two threads popping an empty stack reach the crash in seven steps |
| CountStackTheorems.NextIsCurrent | cpp-concurrency-in-action/7.lock_free/lock_free_stack.hpp:108-109 | when pop's compare-exchange succeeds, the `next` read earlier is the current second node, although pending nodes reuse the field |
| CountStackTheorems.RunRefines | cpp-concurrency-in-action/7.lock_free/lock_free_stack.hpp:97-119 | every run, up to the crash if there is one, is linearizable as a stack and conserves values |
| CountStackLockFree.LockFree | cpp-concurrency-in-action/7.lock_free/lock_free_stack.hpp:46-119 | from every reachable state there is a bound on the steps of all threads together in which no operation takes effect or returns, unless the run crashes |
| CountStackRaces.RacesAre | cpp-concurrency-in-action/7.lock_free/lock_free_stack.hpp:76-90 | two threads are about to access one plain field, one of them to write it, exactly if one chains an unlinked node whose `next` another, which is counted in pop, has loaded the node for but not yet read |
| CountStackRaces.RaceExactly | cpp-concurrency-in-action/7.lock_free/lock_free_stack.hpp:104-116 | such a state can be reached if and only if two different threads may pop |
| CountStackRaces.ReadsAll | cpp-concurrency-in-action/7.lock_free/lock_free_stack.hpp:46-119 | a step depends only on the plain fields said to be read or written |
| ThreadPoolTheorems.NoDeadlock | cpp-concurrency-in-action/9.thread_pool/thread_pool.hpp:185-202 | in every reachable state of an unfinished sort some thread makes progress within two of its own steps, for any number of workers and any local queues |
| ThreadPoolProgress.SomeoneCanAct | cpp-concurrency-in-action/9.thread_pool/thread_pool.hpp:286-290 | some thread can compute, finish its wait, or take a pending task |
| ThreadPoolTheorems.BoundedWork | cpp-concurrency-in-action/9.thread_pool/thread_pool.hpp:262-295 | no run makes more than 4n+1 steps other than polls and yields |
| ThreadPoolProgress.StepWork | cpp-concurrency-in-action/9.thread_pool/thread_pool.hpp:132-141 | every step uses up work or is a poll or yield that leaves it unchanged |
| ThreadPoolTheorems.SortResult | cpp-concurrency-in-action/9.thread_pool/thread_pool.hpp:299-307 | a finished sort is a sorted permutation of its input, all submitted tasks have been run and all queues are empty |
| ThreadPoolTheorems.EveryTaskSorts | cpp-concurrency-in-action/9.thread_pool/thread_pool.hpp:167-183 | every future that is set holds the sorted input of its task |
| ThreadPoolInvariant.StepInv | cpp-concurrency-in-action/9.thread_pool/thread_pool.hpp:262-295 | the invariant of stacks, tasks and queues is kept, tasks never change and done ones stay done |
| TwoLockQueueTheorems.RunRefines | cpp-concurrency-in-action/6.lock_based/threadsafe_queue.hpp:278-374 | every run is linearizable as a FIFO queue: push at the new tail, pop at the head move, failed try_pop at its tail read |
| TwoLockQueueTheorems.RunConserves | cpp-concurrency-in-action/9.thread_pool/queue.hpp:234-347 | values pushed are exactly those popped and those still queued |
| TwoLockQueueTheorems.NoDataRace | cpp-concurrency-in-action/6.lock_based/threadsafe_queue.hpp:311-328 | no thread is ever about to write a location another is about to access; no pop touches the node a push is writing |
| TwoLockQueueTheorems.WritesAll | cpp-concurrency-in-action/6.lock_based/threadsafe_queue.hpp:311-328 | the locations said to be written are all that a step writes, apart from the node it allocates |
| TwoLockQueueTheorems.ReadsAll | cpp-concurrency-in-action/6.lock_based/threadsafe_queue.hpp:278-296 | in two states that agree on the locations said to be read and written a step does the same |
| TwoLockQueueTheorems.NoDeadlock | cpp-concurrency-in-action/6.lock_based/threadsafe_queue.hpp:291-296 | behind every blocked thread is a thread that holds a mutex and can move |
| TwoLockQueueTheorems.NothingLeaks | cpp-concurrency-in-action/6.lock_based/threadsafe_queue.hpp:284-289 | with no operation in progress the live nodes are the listed ones and all others were deleted once |
| SimpleQueue.SimpleQueueDummy.Push | cpp-concurrency-in-action/6.lock_based/threadsafe_queue.hpp:177-186 | appends the value to the contents and a fresh dummy to the nodes |
| SimpleQueue.SimpleQueueDummy.TryPop | cpp-concurrency-in-action/6.lock_based/threadsafe_queue.hpp:164-175 | removes and returns the oldest value, or returns none and changes nothing |
| LockedListTheorems.LockedPointers | cpp-concurrency-in-action/6.lock_based/threadsafe_list.hpp:44-107 | no deleted node or its mutex is touched; a pointer into the list is to a linked node locked by the thread or next to one it has locked, and nobody else is destroying it |
| LockedListTheorems.NoDeadlock | cpp-concurrency-in-action/6.lock_based/threadsafe_list.hpp:52-65 | whenever a thread is blocked, some holder of a mutex can move |
| LockedListRefinement.RunRefines | cpp-concurrency-in-action/6.lock_based/threadsafe_list.hpp:44-107 | every run is linearizable as a sequential list: a push takes effect when it links its node, a for_each, find_first_if or remove_if when it locks the head; what it finds and leaves is what the whole list, with the walks begun before carried out, gives, for function objects with any state |
| LockedListTheorems.StepElements | cpp-concurrency-in-action/6.lock_based/threadsafe_list.hpp:86-107 | in every interleaving the list changes only by a value put in front, a visited element rewritten, or the tested element taken out |
| LockedListTheorems.NothingLeaks | cpp-concurrency-in-action/6.lock_based/threadsafe_list.hpp:96-98 | with no operation in progress the live nodes are the listed ones, all unlocked |
| SequentialList.List.PushFront | cpp-concurrency-in-action/6.lock_based/threadsafe_list.hpp:44-50 | puts the value in front |
| SequentialList.List.ForEach | cpp-concurrency-in-action/6.lock_based/threadsafe_list.hpp:52-65 | replaces every element by its image, in place |
| SequentialList.List.FindFirstIf | cpp-concurrency-in-action/6.lock_based/threadsafe_list.hpp:67-84 | returns the first matching element, and none exactly if there is none |
| SequentialList.List.RemoveIf | cpp-concurrency-in-action/6.lock_based/threadsafe_list.hpp:86-107 | run alone, leaves exactly the non-matching elements in order |
| LockedListAlone.WalkAlone | cpp-concurrency-in-action/6.lock_based/threadsafe_list.hpp:52-107 | on the shared list, from every reachable state with nothing in progress, a walk of any kind that runs alone ends, leaves what the sequential walk leaves, and answers what it finds |
| LockedListAlone.RemoveIfAlone | cpp-concurrency-in-action/6.lock_based/threadsafe_list.hpp:86-107 | a remove_if whose predicate has no state leaves exactly the non-matching elements in order |
| SequentialList.FilterOutExact | cpp-concurrency-in-action/6.lock_based/threadsafe_list.hpp:94-105 | what is left is every non-matching occurrence and no matching one |
| SequentialList.FilterOutConcat | cpp-concurrency-in-action/6.lock_based/threadsafe_list.hpp:91-106 | what is left keeps its order, piece by piece |
| HierarchicalMutex.ValueIsLeast | cpp-concurrency-in-action/3.8.hierarchical_mutex/3.8.hierarchical_mutex.cpp:24-36 | between operations a thread's value is the least value it has locked, and the initial value exactly if it has none |
| HierarchicalMutex.UnlockRestores | cpp-concurrency-in-action/3.8.hierarchical_mutex/3.8.hierarchical_mutex.cpp:49-53 | unlocking restores the value for the remaining mutexes if and only if the mutex was locked last |
| HierarchicalMutex.NoDeadlock | cpp-concurrency-in-action/3.8.hierarchical_mutex/3.8.hierarchical_mutex.cpp:42-62 | with unlocks in reverse order, if a thread is blocked some holder of a mutex is not |
| HierarchicalMutex.NoWaitCycle | cpp-concurrency-in-action/3.8.hierarchical_mutex/3.8.hierarchical_mutex.cpp:24-62 | no set of threads waits only for members of the set |
| HierarchicalMutex.UnlockDeadlocksExactly | cpp-concurrency-in-action/3.8.hierarchical_mutex/3.8.hierarchical_mutex.cpp:24-62 | after every run with unlocks in reverse order, one more unlock makes a deadlock reachable, by steps that keep the order, if and only if it is not of the mutex locked last; and one in which threads wait for each other, if another thread may lock that mutex |
| HierarchicalMutex.OutOfOrderDeadlocks | cpp-concurrency-in-action/3.8.hierarchical_mutex/3.8.hierarchical_mutex.cpp:49-53 | with an unlock in another order two threads and two mutexes end in a waiting cycle |
| MutexObject.HierarchicalMutex.Lock | cpp-concurrency-in-action/3.8.hierarchical_mutex/3.8.hierarchical_mutex.cpp:42-47 | throws exactly if the thread holds a mutex that is not above this one, before looking at the mutex; otherwise it waits while the mutex is locked, and locks it when it is free |
| MutexObject.HierarchicalMutex.TryLock | cpp-concurrency-in-action/3.8.hierarchical_mutex/3.8.hierarchical_mutex.cpp:55-62 | throws on the same condition, a relock included, and otherwise locks the mutex if it is free |
| MutexObject.HierarchicalMutex.Unlock | cpp-concurrency-in-action/3.8.hierarchical_mutex/3.8.hierarchical_mutex.cpp:49-53 | for any held mutex: the thread's value fits the mutexes it still holds if and only if this one was locked last |
| HttpMessage.ChunksDoNotMatter | asio-examples/http_server/request_parser.hpp:36-48 | a parser fed chunk by chunk decides as on the whole input, at the same byte, however it is cut |
| SwitchParser.RequestParser.ConsumeByte | asio-examples/http_server/request_parser.cpp:27-283 | the object moves as the transition function says and keeps a last header wherever one is extended |
| SwitchParser.RequestParser.ParseChunk | asio-examples/http_server/request_parser.hpp:36-48 | consumes up to the first definite verdict and returns it with the count of bytes |
| CoroutineParser.RequestParser.ConsumeByte | asio-examples/http_server4/request_parser.cpp:25-177 | the object resumed with a byte moves as the control flow from its point of suspension says |
| CoroutineParser.RequestParser.FindContentLength | asio-examples/http_server4/request_parser.cpp:151-173 | the last Content-Length wins, any that cannot be converted rejects |
| CoroutineParser.RequestParser.ParseChunk | asio-examples/http_server4/request_parser.hpp:32-44 | consumes up to the first definite verdict and returns it with the count of bytes |
| ParserAgreement.StepAgreement | asio-examples/http_server4/request_parser.cpp:37-149 | on one byte the verdicts are equal exactly unless it ends an empty URI, is above 127 in a header value, or accepts with an effective Content-Length |
| ParserAgreement.Agreement | asio-examples/http_server4/request_parser.cpp:25-177 | on every input the two parsers have the same verdict at the same byte and, on acceptance, the same request, if and only if the switch parser's result has no empty URI, no value byte above 127, and no effective Content-Length |
| ParserAgreement.SevenBitAgreement | asio-examples/http_server/request_parser.cpp:27-283 | for 7-bit inputs with a URI and no Content-Length the parsers agree, each with its own division into chunks |
| ReplyPrinter.Reply.ToBuffers | asio-examples/http_server/reply.cpp:103-118 | the buffers spell the status line, a line for each header, an empty line and the content |
| ReplyPrinter.StatusLineCode | asio-examples/http_server/reply.cpp:20-92 | the status line is one line of HTTP/1.0 with the status as its three digits, or 500 for a number that is no status |
| ReplyPrinter.RoundTrip | asio-examples/http_server/request_parser.cpp:186-279 | the printed block is read back into exactly the printed headers, stopping at the first content byte, if and only if all names are non-empty tokens and all values are free of controls |
| ReplyPrinter.CoroutineRoundTrip | asio-examples/http_server4/request_parser.cpp:102-149 | the coroutine parser reads the block back too, for 7-bit values and no Content-Length |
| ReplyPrinter.RunWellFormed | asio-examples/http_server/request_parser.cpp:186-267 | whatever is parsed, header names are non-empty tokens and values have no controls |
| IcmpChecksum.IcmpHeader.Encode | asio-examples/icmp/icmp_header.hpp:62-69 | what is encoded is decoded again, and no other byte changes |
| IcmpChecksum.AddWords | asio-examples/icmp/icmp_header.hpp:78-87 | the loop computes the exact word sum, odd lengths included, modulo 2^32 |
| IcmpChecksum.FoldsSuffice | asio-examples/icmp/icmp_header.hpp:89-91 | two folds give the one's-complement sum for every 32-bit value |
| IcmpChecksum.ComputeChecksum | asio-examples/icmp/icmp_header.hpp:74-92 | only the checksum changes, and the message is then intact (section 1 of RFC 1071) if and only if the carries lost from 32 bits are a multiple of 65535 |
| IcmpChecksum.NoOverflow | asio-examples/icmp/icmp_header.hpp:81-87 | up to 131068 body bytes the sum is exact and the message intact |
| IcmpChecksum.OverflowBreaks | asio-examples/icmp/icmp_header.hpp:81-87 | two more bytes, all ones, overflow and the message is not intact |
| IcmpChecksum.SingleBitDetected | asio-examples/icmp/icmp_header.hpp:74-92 | inverting any one bit of an intact message is detected |
| ChatRoom.ChatSession.Deliver | asio-examples/chat_server/chat_server.cpp:101-113 | queues the message and starts a write only if none was under way |
| ChatRoom.ChatSession.HandleWrite | asio-examples/chat_server/chat_server.cpp:146-164 | a completed write moves its message to the sent ones and the next is started; an error makes the session leave |
| ChatRoom.ChatRoom.Join | asio-examples/chat_server/chat_server.cpp:45-50 | adds the participant and sends it all recent messages in order |
| ChatRoom.ChatRoom.Deliver | asio-examples/chat_server/chat_server.cpp:57-65 | keeps the last 100 messages and sends the message once to every participant |
| ChatRoom.NothingLostOrReordered | asio-examples/chat_server/chat_server.cpp:45-164 | over every run, what a client was sent followed by its queue is the last 100 messages before it joined followed by all messages while it was a participant; one write is outstanding exactly if the queue is not empty, until a write fails |
| ChatRoom.Membership | asio-examples/chat_server/chat_server.cpp:115-144 | a session stays a participant, with the history it was given, until an error of its own |
| ParallelFold.BlocksPartition | cpp-concurrency-in-action/8.4.parallel_accumulate/8.4.parallel_accumulate.cpp:51-72 | every position is in exactly one block, for every length and thread count |
| ParallelFold.BlocksNonEmpty | cpp-concurrency-in-action/8.4.parallel_accumulate/8.4.parallel_accumulate.cpp:51-56 | no block is empty and each ends inside the range where the next begins |
| ParallelFold.AccumulateBlock | cpp-concurrency-in-action/8.4.parallel_accumulate/8.4.parallel_accumulate.cpp:18-25 | the fold of the block from `T()` |
| ParallelFold.ParallelAccumulate | cpp-concurrency-in-action/8.4.parallel_accumulate/8.4.parallel_accumulate.cpp:44-88 | the sequential fold, for any associative sum with identity `T()` |
| ParallelWorkers.WorkersAccumulate | cpp-concurrency-in-action/8.4.parallel_accumulate/8.4.parallel_accumulate.cpp:58-88 | under every interleaving of the workers, their results added to `init` in order are the sequential fold |
| ParallelFold.ParallelForEach | cpp-concurrency-in-action/8.7.parallel_for_each/8.7.parallel_for_each.cpp:39-77 | the array holds the image of every element |
| ParallelWorkers.WorkersMap | cpp-concurrency-in-action/8.7.parallel_for_each/8.7.parallel_for_each.cpp:58-76 | under every interleaving of reads and writes of the workers the result is the sequential map |
| ParallelWorkers.WorkerAdvances | cpp-concurrency-in-action/8.7.parallel_for_each/8.7.parallel_for_each.cpp:63-67 | each step of an unfinished worker is one access less for it and changes no other worker |
| ParallelWorkers.WorkersFold | cpp-concurrency-in-action/8.4.parallel_accumulate/8.4.parallel_accumulate.cpp:63-72 | under every interleaving each future gets the fold of its block |
| LockedTableTheorems.RunRefines | cpp-concurrency-in-action/6.lock_based/threadsafe_lookup_table.hpp:41-140 | with shared and exclusive bucket mutexes, for every hash function, every positive number of buckets and every schedule: each operation takes effect at one instant and returns what the abstract map says then; get_map returns the whole map as it is when the last mutex is locked |
| LockedTableTheorems.NoDeadlock | cpp-concurrency-in-action/6.lock_based/threadsafe_lookup_table.hpp:122-129 | behind every blocked thread is one that has a bucket mutex and can move, although get_map holds many |
| LookupTable.Table.ValueFor | cpp-concurrency-in-action/6.lock_based/threadsafe_lookup_table.hpp:107-110 | agrees with the abstract map, and gives the default exactly for absent keys |
| LookupTable.Table.AddOrUpdateMapping | cpp-concurrency-in-action/6.lock_based/threadsafe_lookup_table.hpp:112-115 | updates the abstract map; keys stay unique and in the bucket of their hash |
| LookupTable.Table.RemoveMapping | cpp-concurrency-in-action/6.lock_based/threadsafe_lookup_table.hpp:117-120 | removes the key from the abstract map and nothing else |
| LookupTable.Table.GetMap | cpp-concurrency-in-action/6.lock_based/threadsafe_lookup_table.hpp:122-140 | returns exactly the abstract map |
| LookupTable.Bucket.FindEntryFor | cpp-concurrency-in-action/6.lock_based/threadsafe_lookup_table.hpp:34-38 | the first entry with the key, or the end |
| LookupTable.Bucket.AddOrUpdateMapping | cpp-concurrency-in-action/6.lock_based/threadsafe_lookup_table.hpp:49-62 | the mapping of the list is updated at the key |
| LookupTable.Bucket.RemoveMapping | cpp-concurrency-in-action/6.lock_based/threadsafe_lookup_table.hpp:64-73 | the mapping of the list loses the key |
| LookupTable.UpdateMap | cpp-concurrency-in-action/6.lock_based/threadsafe_lookup_table.hpp:58-61 | overwriting one entry of a list without duplicates updates its mapping |
| LookupTable.EraseMap | cpp-concurrency-in-action/6.lock_based/threadsafe_lookup_table.hpp:68-72 | erasing one entry of a list without duplicates removes its key |

## Left out

- Form of the concurrent objects: the stacks, the pool, the two-lock queue, the hand-over-hand list and the mutex with several threads are state machines on immutable values rather than classes, because a step of another thread may fall between any two of their operations; update in place is shown by the single-threaded classes beside them.
- Memory orderings weaker than sequential consistency, overflow of the reference counts, `shared_ptr` internals, and exceptions other than those named in the models.
- Destructors of the containers, which pop or remove everything with no other thread running.
- HpStackTheorems.MemorySafety: reclaim records are followed by address, so for them the statement is that they are private to the sweeping thread, not that a serial number matches.
- CountStackTheorems.RunRefines: nothing is claimed after the crash of an empty pop, which ends the run.
- ThreadPoolTheorems.NoDeadlock: the pool's queues are taken as atomic FIFO queues, which is what TwoLockQueue proves of them; fairness of the scheduler is not modelled, so termination is a bound on working steps together with the existence of a thread that can make one.
- `thread_pool_simple`, `accumulate_block` in the pool header, and `parallel_accmulate_using_tp`, which advances the wrong iterator (thread_pool.hpp:237-244).
- Wake-up guarantees of `wait_and_pop`: push notifies without the head mutex, so waiting pops are modelled as retries and only safety is claimed.
- `threadsafe_queue_old`, `simple_queue` and `lock_free_queue.hpp`, which are marked or visibly broken.
- LockedListRefinement.RunRefines: find_first_if returns a shared pointer to the element; its answer here is the value the element has when it is found, and what a later for_each does to it is not seen. Function objects do not call the list.
- ThreadPoolTheorems.SortResult: elements are compared by an integer key; any strict weak order on the elements of one list is the order of their ranks.
- ReplyPrinter.Reply.ToBuffers: the status is kept as its status line; stock replies are not modelled.
- CoroutineParser.RequestParser.FindContentLength: `boost::lexical_cast` is a parameter of the model.
- ParserAgreement.Agreement: the request handed to the switch parser is empty, as its connections create it; the coroutine clears whatever it is given.
- Sockets, timers, io_context, SSL, files, signals, console output, connection management, URL decoding and the chat header format.
- LookupTable.Table.GetMap: the class is the table as one thread uses it; mutexes and the snapshot are the subject of LockedTableTheorems.RunRefines, where looking up a key and copying a bucket are one step each because the loops are those of the class.
- LockedTableTheorems.RunRefines: the mutexes of get_map are released in the order in which they were locked.
- `request_parser::reset` and the setters of the ICMP header, which only store a value.
- ParallelFold.ParallelAccumulate: an exception in a worker, which the future would rethrow, is not modelled.
