# Verification of the concurrent data structures

Dafny models of six small concurrent data structures, and proofs of what they promise:

- the Michael-Scott queue over a recycled node arena (`ms-queue`): `MSQueueModel`, `MSQueueProofs`, `MSQueueTheorems`, `MSQueueRuns`, `MSQueue`, and `PackedPointer` for its 64-bit words;
- the Chase-Lev work-stealing deque (`chase-lev-deque-bugfix`): `ChaseLevModel`, `ChaseLevProofs`, `ChaseLevTheorems`, `ChaseLevDeque`;
- the bounded queue with packed 16-bit tickets (`mpmc-queue`): `MpmcOps`, `MpmcModel`, `MpmcProofs`, `MpmcTheorems`, `MpmcWrap`, `MpmcQueue`;
- the MCS lock (`mcs-lock`): `McsModel`, `McsProofs`, `McsTheorems`, `McsLock`;
- the single-producer single-consumer queue over an eventcount (`spsc-bugfix`): `SpscModel`, `SpscProofs`, `SpscTheorems`, `SpscQueue`;
- the two concurrent hash maps (`concurrent-hashmap`): the C++ one in `HashMapModel`, `HashMapProofs`, `HashMapTheorems`, `HashMap`; the Java one in `PowersOfTwo`, `BitCount`, `EntryChains`, `Rehash`, `Tables`, `ConcurrentHashMap`, `HashIterator`, and its concurrency in `JavaMapModel`, `JavaMapProofs`, `JavaMapTheorems`.

`dafny verify dfyconfig.toml` checks everything.

## How a protocol is modelled

Each protocol has a `…Model` module: a `State` with the shared words, one `Thread` value per thread (a constructor per program point, with the locals live there) and fields that only observe (a history of events, abstract places of nodes); one function for each atomic step; and the invariant. One step is one load, store, read-modify-write or compare-and-swap, by any of any number of threads. `…Proofs` shows that every step keeps the invariant, and defines `Run`, the state after an arbitrary schedule: a scheduled action that is not enabled changes nothing, so schedules are exactly the interleavings. `…Theorems` states what is promised of every reachable state and every run. The class module has the program's own mutable fields and arrays, with one method for each atomic step; each method is proved to take the object from the value of the old state to the one the step function gives, and `Schedule` runs any schedule on the object.

The Java map is modelled twice. `ConcurrentHashMap` has its operations one by one on heap objects: entries with constant key, hash and next, a table array that operations and resizes replace, per-segment counts. `JavaMapModel` has its concurrency as a state machine like the others: readers that take one load at a time without a lock, against every store of `put`, `remove`, `clear` and the rehash of a resize that such readers can see. There the chains that `remove` rebuilds and the table that a rehash fills appear as any that hold the map, which is what `Tables.RemovedOk` and `Rehash.RehashKeepsMap` prove of the program's own loops.

## Assumptions

- Memory is sequentially consistent: a run is an interleaving of atomic steps. Weak compare-and-swaps may fail spuriously, and a wait on a condition variable may end spuriously.
- Counters are unbounded, except where a property is about wrap-around: the 16-bit tickets and 32-bit counters of the bounded queue, the 31-bit epochs, the unsigned `bottom` of the deque, and the 32-bit counts of `PackedPointer`.
- Clients publish, consume and unlock only what they were handed, once; check for NULL; lock with a node no other guard is using; call `take` on the deque only after a first push; enqueue non-zero values into the single-producer queue; use non-zero keys and values with the C++ map. A scheduled call that breaks this is not enabled.
- Values pushed on the deque differ from EMPTY and ABORT, which the model keeps apart as constructors of a result.
- `resize` of the deque allocates a fresh array with arbitrary contents (chase-lev-deque-bugfix/deque.c:134), not the one preallocated array of line 135. The size of an array never changes, so its load is part of the step that uses it.
- Free-list slots that `init_queue` does not fill are 0. An empty free list blocks the enqueuer. The arena size is a parameter; `FourThreads` says what the source's size allows.
- A thread's scan of its own free list is one step: no other thread touches it.
- Hash maps: keys are equal when they are `==`, and the hash function is any function of the key. `hash & (capacity - 1)` is the Euclidean remainder, also for negative hash codes. In the Java map the per-segment threshold is an arbitrary function of the capacity.
- In the bounded queue there are at most 2^16 threads, each with at most one operation in progress, and, except in `MpmcWrap`, the capacity divides 2^16.

## Findings

- `take` on a deque whose `bottom` is 0, that is before any push, decrements an unsigned 0 and returns the contents of an unused slot (`TakeBeforePush`); `TakeNeedsBottom` gives the exact condition.
- The bounded queue hands one bin to two threads when a ticket wraps, unless its capacity divides 2^16: `ClashAtWrap` gives the run for every other capacity, and `BinsApartIffDivides` says that the runs of a queue are free of such clashes if and only if its capacity divides 2^16 (`CapacityMustDivide` is the ticket arithmetic behind it).
- The branch of the C++ map's `get` for a value of 0 (hashmap.cc:40-41) is never taken, since `put` refuses 0 (`HitIsCurrent`).
- The overall threshold test of the Java map's `put` is a 32-bit product that wraps; `Vote` states it with the wrap.

## Model

| member | source | states |
|---|---|---|
| MSQueueTheorems.StepIsFifo | ms-queue/queue.c:126-251 | in every reachable state, whichever thread moves: a successful link appends exactly the enqueuer's value at the back, a successful head swing removes exactly the front and holds its value, and no other step changes the queue |
| MSQueueTheorems.StepHist | ms-queue/queue.c:145-146 | which step logs which operation: the link logs an enqueue, the head swing a dequeue, nothing else logs |
| MSQueueTheorems.LegalIsFifo | ms-queue/queue.c:182-189 | a legal history delivers, in order, a prefix of what was enqueued; what remains is the queue |
| MSQueueTheorems.RunIsFifo | ms-queue/queue.c:99-260 | every schedule of any number of threads, with node reuse: values enqueued = values dequeued followed by the queue, in order |
| MSQueueTheorems.DequeuedTheFront | ms-queue/queue.c:241-259 | a dequeue that returns true took effect during its call and returns the value then at the front |
| MSQueueTheorems.EnqueuedAtTheBack | ms-queue/queue.c:105-180 | an enqueue that returned took effect during its call, putting its value at the back |
| MSQueueTheorems.FalseMeansEmpty | ms-queue/queue.c:217-226 | a dequeue that returns false has a moment in its call when the queue was empty |
| MSQueueRuns.FalseAtItsLoad | ms-queue/queue.c:217-226 | in every run that moment is the load of `next` in its own last attempt |
| MSQueueTheorems.InsertEmpty | ms-queue/queue.c:217-226 | adding the failed dequeue to the history where it took effect leaves a legal history with the same final queue |
| MSQueueTheorems.StepOnce | ms-queue/queue.c:99-260 | each call puts at most one event into the history, the one its mark points at; kept by every step |
| MSQueueTheorems.RunOnce | ms-queue/queue.c:99-260 | so in every run from the initial queue each call takes effect at most once |
| MSQueueTheorems.StepAdvances | ms-queue/queue.c:110-118 | no shared word returns to an old value: counts never decrease, and a node re-initialised with its old count goes only from non-null to null |
| MSQueueTheorems.RunAdvances | ms-queue/queue.c:110-118 | the same over any run |
| MSQueueTheorems.NoABA | ms-queue/queue.c:139-251 | if a word has at any later point of any run the value a pending compare-and-swap expects, it never changed in between |
| MSQueueTheorems.OneHome | ms-queue/queue.c:20-36 | no node is in two places: list, enqueuer's hand, dequeuer's hand, a free list |
| MSQueueTheorems.SomeHome | ms-queue/queue.c:46-68 | and every node handed out is in one of them or was dropped on a full free list |
| MSQueueTheorems.OnlyMoved | ms-queue/queue.c:107-107 | a step changes the place of no node but the one it takes, links, unlinks or reclaims |
| MSQueueTheorems.NodesConserved | ms-queue/queue.c:46-68 | no step makes a node appear or vanish; a dropped node stays dropped, and only a reclaim onto a full free list drops one |
| MSQueueTheorems.NeverPoisoned | ms-queue/queue.c:219-223 | the assertion on POISON_IDX holds in every reachable state |
| MSQueueTheorems.TailFollows | ms-queue/queue.c:149-165 | every swing of `tail` that succeeds moves it from the second-to-last node to its true successor, the last; `tail` stays in the list, so `head` never overtakes it |
| MSQueueTheorems.FourThreads | ms-queue/queue.h:6-28 | the arena of MAX_NODES + 2 nodes is large enough for the initial free lists of exactly up to four threads |
| MSQueueProofs.StepInv | ms-queue/queue.c:99-260 | the invariant (acyclic null-ended list, `tail` last or second to last, every thread's knowledge) is kept by every step of every thread |
| MSQueueProofs.InitInv | ms-queue/queue.c:70-88 | and holds of the initial queue, which is empty |
| MSQueue.FillFreeList | ms-queue/queue.c:78-81 | a free list of INITIAL_FREE poisoned nodes, the unset slots 0 |
| MSQueue.FillFreeLists | ms-queue/queue.c:76-83 | separate free lists for all threads, with poisoned links for exactly the nodes in them |
| MSQueue.Queue.constructor | ms-queue/queue.c:70-88 | the queue after `init_queue`, satisfying the invariant |
| MSQueue.Queue.NewNode | ms-queue/queue.c:20-36 | takes the first node of the thread's free list; an empty one blocks the enqueuer |
| MSQueue.Queue.StoreValue | ms-queue/queue.c:109-109 | writes the value of the node in hand only |
| MSQueue.Queue.InitLoad | ms-queue/queue.c:110-111 | reads the old link, keeps its count, clears its pointer |
| MSQueue.Queue.InitStore | ms-queue/queue.c:118-118 | re-initialises the link of the node in hand |
| MSQueue.Queue.LoadTail | ms-queue/queue.c:126-126 | reads `tail` |
| MSQueue.Queue.LoadNext | ms-queue/queue.c:132-132 | reads the link of the node read |
| MSQueue.Queue.CheckTail | ms-queue/queue.c:133-138 | goes on only if `tail` is unchanged |
| MSQueue.Queue.CasNext | ms-queue/queue.c:139-146 | compare-and-swap of a link: on success the value is appended, otherwise nothing changes |
| MSQueue.Queue.HelpLoad | ms-queue/queue.c:155-155 | reads the successor for helping |
| MSQueue.Queue.HelpCas | ms-queue/queue.c:156-165 | helps `tail` on to the node read, if `tail` is unchanged |
| MSQueue.Queue.Swing | ms-queue/queue.c:176-179 | moves `tail` to the new node, if it is unchanged |
| MSQueue.Queue.DeqLoadHead | ms-queue/queue.c:203-203 | reads `head` |
| MSQueue.Queue.DeqLoadTail | ms-queue/queue.c:210-210 | reads `tail` |
| MSQueue.Queue.DeqLoadNext | ms-queue/queue.c:217-217 | reads the link of the dummy node |
| MSQueue.Queue.CheckHead | ms-queue/queue.c:219-239 | retries, returns false, helps, or goes on to read the value |
| MSQueue.Queue.DeqHelp | ms-queue/queue.c:234-237 | helps `tail` on |
| MSQueue.Queue.ReadValue | ms-queue/queue.c:241-241 | reads the value before the compare-and-swap |
| MSQueue.Queue.CasHead | ms-queue/queue.c:248-251 | compare-and-swap of `head`: on success the front value, the one read, is gone from the queue; on failure nothing changes |
| MSQueue.Queue.Reclaim | ms-queue/queue.c:46-68 | puts the old dummy into the first empty slot, or drops it |
| MSQueue.Queue.Execute | ms-queue/queue.c:99-260 | one action of any thread, keeping the invariant |
| MSQueue.Queue.Schedule | ms-queue/queue.c:99-260 | any schedule: the invariant holds throughout and delivery is first in, first out |
| PackedPointer.Unpack | ms-queue/queue.h:11-18 | get_ptr and get_count give back what MAKE_POINTER packed |
| PackedPointer.Repack | ms-queue/queue.h:11-18 | packing the two halves of any word gives the word |
| PackedPointer.SameWord | ms-queue/queue.h:11-18 | two words are equal exactly when both halves are, so a compare-and-swap of words is one of pairs |
| PackedPointer.SetPtrHalf | ms-queue/queue.h:16-16 | set_ptr changes the index and keeps the count |
| PackedPointer.SetCountHalf | ms-queue/queue.h:15-15 | set_count keeps the index |
| PackedPointer.SetCountCount | ms-queue/queue.h:15-15 | set_count sets the count |
| PackedPointer.WrapIsHarmless | ms-queue/queue.h:11-18 | with 32-bit counts two pairs are stored as one word exactly when the indices are equal and the counts are a multiple of 2^32 apart |
| MSQueueRuns.CountsBounded | ms-queue/queue.c:139-251 | over any run the count of a word rises by no more than the number of steps that changed the word |
| MSQueueRuns.FooledOnlyAfterWrap | ms-queue/queue.h:11-18 | over any run a stored word that compares equal to the one read either never changed in between or was updated at least 2^32 times |
| ChaseLevTheorems.StepIsDeque | chase-lev-deque-bugfix/deque.c:86-229 | only four steps change the deque: publishing a push appends, the deciding step of a take removes the back, the compare-and-swap of a steal removes the front; every other step of anyone leaves it |
| ChaseLevTheorems.EventMoves | chase-lev-deque-bugfix/deque.c:82-85 | each event moves the contents as on a sequential deque |
| ChaseLevTheorems.StepHist | chase-lev-deque-bugfix/deque.c:86-229 | which step logs which operation, and with which value |
| ChaseLevTheorems.TookTheBack | chase-lev-deque-bugfix/deque.c:86-125 | a take took effect during its call and returns the element that was then at the back, or EMPTY if there was none |
| ChaseLevTheorems.StoleTheFront | chase-lev-deque-bugfix/deque.c:186-229 | a steal that returns a value took effect during its call and returns the element that was then at the front |
| ChaseLevTheorems.StepOnce | chase-lev-deque-bugfix/deque.c:86-229 | each call takes effect at most once and a failed steal never; kept by every step |
| ChaseLevTheorems.RunOnce | chase-lev-deque-bugfix/deque.c:86-229 | so in every run |
| ChaseLevTheorems.OwnerReturns | chase-lev-deque-bugfix/deque.c:86-178 | in every run a push or a take that returned has exactly one event since its call: its own element, or that there was none |
| ChaseLevTheorems.StealReturns | chase-lev-deque-bugfix/deque.c:186-229 | in every run a steal that returned a value has exactly one event since its call, that of this value; EMPTY and ABORT have none |
| ChaseLevTheorems.StealFailure | chase-lev-deque-bugfix/deque.c:204-226 | a steal returns EMPTY only when it saw an empty deque, or one whose last element the owner was already taking, and ABORT only when `top` has passed its index |
| ChaseLevTheorems.LegalConserves | chase-lev-deque-bugfix/deque.c:74-85 | a legal history conserves elements, counted with multiplicity |
| ChaseLevTheorems.RunConserves | chase-lev-deque-bugfix/deque.c:74-229 | every run: what the events pushed is what they took, stole and what is still there |
| ChaseLevTheorems.StepReturns | chase-lev-deque-bugfix/deque.c:86-229 | the accounts of one step: an element leaves the deque, waits in the owner's hands, is returned |
| ChaseLevTheorems.RunDelivers | chase-lev-deque-bugfix/deque.c:74-229 | every run, through any number of resizes: the arguments of the pushes that returned are the values that takes and steals returned, the one a take holds and has not returned, and the contents; so no element is lost or returned twice |
| ChaseLevTheorems.SupersededIsFrozen | chase-lev-deque-bugfix/deque.c:127-151 | no step writes an array that a resize has replaced, nor moves the array pointer back |
| ChaseLevTheorems.RunFreezes | chase-lev-deque-bugfix/deque.c:127-151 | so over any run a superseded array keeps its contents |
| ChaseLevTheorems.StaleReadIsFront | chase-lev-deque-bugfix/deque.c:213-221 | a thief about to read an array superseded by any number of resizes reads the front of the deque if `top` is still its index |
| ChaseLevTheorems.TakeNeedsBottom | chase-lev-deque-bugfix/deque.c:88-121 | run alone, take does what a deque does if and only if `bottom` is not 0 when it starts: the unsigned decrement |
| ChaseLevTheorems.TakeBeforePush | chase-lev-deque-bugfix/deque.c:88-121 | the failing input: take on a new deque of two slots, before any push, returns 0 |
| ChaseLevTheorems.PushedIsSafe | chase-lev-deque-bugfix/deque.c:86-178 | after a first push `bottom` is at least 1 between owner operations, in every run |
| ChaseLevProofs.StepInv | chase-lev-deque-bugfix/deque.c:86-229 | the invariant (live slots, copies of live slots in every array a thief may read, load order of `bottom` and `top`) is kept by every step |
| ChaseLevProofs.TakeLoadTopThieves | chase-lev-deque-bugfix/deque.c:90-99 | load order: once the owner has lowered `bottom` and read a smaller `top`, no thief relies on that index |
| ChaseLevProofs.StealWinsOthers | chase-lev-deque-bugfix/deque.c:220-221 | raising `top` past a live element leaves nobody relying on the old `top` |
| ChaseLevProofs.PushStoreInv | chase-lev-deque-bugfix/deque.c:162-169 | even after a full test with a stale `top` the slot a push writes is no live element's in the array it writes; every other array, and the contents, stay as they are |
| ChaseLevDeque.Deque.constructor | chase-lev-deque-bugfix/deque.c:15-23 | an empty deque over one array of the given size |
| ChaseLevDeque.Deque.PushLoads | chase-lev-deque-bugfix/deque.c:155-161 | reads bottom, top and the array in this order |
| ChaseLevDeque.Deque.CheckFull | chase-lev-deque-bugfix/deque.c:162-162 | the unsigned test for a full array |
| ChaseLevDeque.Deque.ResizeAlloc | chase-lev-deque-bugfix/deque.c:128-135 | a new array of twice the size with arbitrary contents |
| ChaseLevDeque.Deque.ResizeLoads | chase-lev-deque-bugfix/deque.c:137-138 | reads top and bottom again |
| ChaseLevDeque.Deque.ResizeCopy | chase-lev-deque-bugfix/deque.c:141-143 | copies one live slot, or ends the loop |
| ChaseLevDeque.Deque.ResizePublish | chase-lev-deque-bugfix/deque.c:149-149 | publishes the new array |
| ChaseLevDeque.Deque.PushReload | chase-lev-deque-bugfix/deque.c:166-166 | reads the array again |
| ChaseLevDeque.Deque.PushStore | chase-lev-deque-bugfix/deque.c:169-169 | writes the slot of `bottom` |
| ChaseLevDeque.Deque.PushPublish | chase-lev-deque-bugfix/deque.c:177-177 | publishes the element |
| ChaseLevDeque.Deque.TakeLoadBottom | chase-lev-deque-bugfix/deque.c:88-88 | the unsigned decrement |
| ChaseLevDeque.Deque.TakeLoadArray | chase-lev-deque-bugfix/deque.c:89-89 | reads the array |
| ChaseLevDeque.Deque.TakeStoreBottom | chase-lev-deque-bugfix/deque.c:90-90 | lowers `bottom` |
| ChaseLevDeque.Deque.TakeLoadTop | chase-lev-deque-bugfix/deque.c:97-117 | decides: several elements left, the last one, or none |
| ChaseLevDeque.Deque.TakeRead | chase-lev-deque-bugfix/deque.c:101-104 | reads the slot before any race |
| ChaseLevDeque.Deque.TakeCas | chase-lev-deque-bugfix/deque.c:109-113 | the race for the last element |
| ChaseLevDeque.Deque.TakeRestore | chase-lev-deque-bugfix/deque.c:115-120 | restores `bottom` |
| ChaseLevDeque.Deque.StealLoadTop | chase-lev-deque-bugfix/deque.c:192-192 | reads top |
| ChaseLevDeque.Deque.StealLoadBottom | chase-lev-deque-bugfix/deque.c:204-206 | reads bottom; gives up on an empty deque |
| ChaseLevDeque.Deque.StealLoadArray | chase-lev-deque-bugfix/deque.c:213-213 | reads the array, which may be superseded at once |
| ChaseLevDeque.Deque.StealRead | chase-lev-deque-bugfix/deque.c:214-215 | reads the slot of `top` |
| ChaseLevDeque.Deque.StealCas | chase-lev-deque-bugfix/deque.c:220-228 | takes the front if `top` is unchanged, else ABORT |
| ChaseLevDeque.Deque.Execute | chase-lev-deque-bugfix/deque.c:86-229 | one action of the owner or a thief, keeping the invariant |
| ChaseLevDeque.Deque.Schedule | chase-lev-deque-bugfix/deque.c:86-229 | any schedule: the invariant holds throughout and elements are conserved |
| MpmcTheorems.PhasesExclude | mpmc-queue/mpmc-queue.cc:31-60 | a fetched bin and a prepared bin are never outstanding together |
| MpmcTheorems.BinsDistinct | mpmc-queue/mpmc-queue.cc:48-110 | all outstanding bins, of any threads, are different slots |
| MpmcTheorems.WritersLive | mpmc-queue/mpmc-queue.cc:92-122 | no read has finished with the ticket of a write still outstanding |
| MpmcTheorems.ReaderSees | mpmc-queue/mpmc-queue.cc:48-48 | the reader with ticket k finds in its bin the k-th value written, and that write is published |
| MpmcTheorems.DeliveredInOrder | mpmc-queue/mpmc-queue.cc:31-48 | read tickets are strictly increasing and each is that of a started write, so no write is read twice |
| MpmcTheorems.ReadReturns | mpmc-queue/mpmc-queue.cc:48-60 | a read that has returned holds the value of its own ticket |
| MpmcTheorems.WaitsNeverMiss | mpmc-queue/mpmc-queue.cc:43-107 | while an operation waits for exact equality its counter has not passed the snapshot, and the 16-bit comparison is the exact one |
| MpmcTheorems.OldestPasses | mpmc-queue/mpmc-queue.cc:43-107 | the oldest unfinished operation never blocks: its next step moves it on |
| MpmcTheorems.NeverAllBlocked | mpmc-queue/mpmc-queue.cc:43-107 | so while anything is unfinished some thread with a ticket can move |
| MpmcTheorems.MaskedIsExact | mpmc-queue/mpmc-queue.cc:11-110 | in every run, across wraps: packed word, empty and full tests and bins agree with unbounded counters |
| MpmcTheorems.NullIsRight | mpmc-queue/mpmc-queue.cc:11-76 | in every run, wraps included: a call that returned NULL loaded the word it gave up on when the queue was empty (read_fetch) or full (write_prepare), counting started operations |
| MpmcTheorems.CapacityMustDivide | mpmc-queue/mpmc-queue.cc:48-110 | the ticket arithmetic: tickets that fit together always get different bins if and only if the capacity divides 2^16 |
| MpmcWrap.ClashAtWrap | mpmc-queue/mpmc-queue.cc:48-110 | for every capacity that does not divide 2^16, a run of any two or more threads from the empty queue that ends with one bin in the hands of two of them |
| MpmcWrap.NoClash | mpmc-queue/mpmc-queue.cc:48-110 | with a capacity that divides 2^16 no run does |
| MpmcWrap.BinsApartIffDivides | mpmc-queue/mpmc-queue.cc:48-110 | in every run all outstanding bins are different, if and only if the capacity divides 2^16 |
| MpmcProofs.WaitExact | mpmc-queue/mpmc-queue.cc:43-107 | the masked wait succeeds exactly when the unmasked one would |
| MpmcProofs.TestsExact | mpmc-queue/mpmc-queue.cc:14-76 | the empty and full tests on masked counts are exact |
| MpmcProofs.MaskedSlot | mpmc-queue/mpmc-queue.cc:48-110 | a masked ticket has the bin of the ticket |
| MpmcProofs.ClientWriteInv | mpmc-queue/mpmc-queue.cc:98-110 | filling a prepared bin touches no live element |
| MpmcProofs.ClientReadInv | mpmc-queue/mpmc-queue.cc:48-50 | what a reader finds is the value of the write with its ticket |
| MpmcProofs.StepInv | mpmc-queue/mpmc-queue.cc:5-124 | the invariant over the history of tickets is kept by every step |
| MpmcQueue.Queue.constructor | mpmc-queue/mpmc-queue.h:24-31 | counters 0, bins with arbitrary contents |
| MpmcQueue.Queue.LoadWord | mpmc-queue/mpmc-queue.cc:8-69 | reads the packed word |
| MpmcQueue.Queue.TryRead | mpmc-queue/mpmc-queue.cc:11-34 | empty, or takes the next read ticket if the word is unchanged; the compare-and-swap may fail spuriously |
| MpmcQueue.Queue.WaitRead | mpmc-queue/mpmc-queue.cc:43-48 | waits for the writes started before; then has the bin of its ticket |
| MpmcQueue.Queue.Consume | mpmc-queue/mpmc-queue.cc:60-60 | counts the read as completed |
| MpmcQueue.Queue.TryWrite | mpmc-queue/mpmc-queue.cc:72-96 | full, or takes the next write ticket |
| MpmcQueue.Queue.WaitWrite | mpmc-queue/mpmc-queue.cc:105-110 | waits for the reads started before; then has the bin of its ticket |
| MpmcQueue.Queue.Publish | mpmc-queue/mpmc-queue.cc:122-122 | counts the write as completed |
| MpmcQueue.Queue.ClientRead | mpmc-queue/testcase2.cc:12-14 | the client reads the bin it was handed |
| MpmcQueue.Queue.ClientWrite | mpmc-queue/testcase2.cc:12-14 | the client fills the bin it was handed |
| MpmcQueue.Queue.Execute | mpmc-queue/mpmc-queue.cc:5-124 | one action of any thread, keeping the invariant |
| MpmcQueue.Queue.Schedule | mpmc-queue/mpmc-queue.cc:5-124 | any schedule keeps the invariant |
| McsTheorems.MutualExclusion | mcs-lock/mcs-lock.cc:8-115 | at most one thread is between the return of lock and the releasing step of unlock |
| McsTheorems.StepLogs | mcs-lock/mcs-lock.cc:25-58 | which steps count as an exchange and as an entry |
| McsTheorems.RunIsFifo | mcs-lock/mcs-lock.cc:25-58 | every run, any number of threads and reuse of nodes: threads enter in the order of their exchanges |
| McsTheorems.PlaceIsKept | mcs-lock/mcs-lock.cc:25-115 | no step changes a queued thread's place or the log of exchanges before it, and it is inside only once exactly the threads before it have released |
| McsTheorems.TailNullIffFree | mcs-lock/mcs-lock.cc:25-86 | `tail` is null exactly when nobody is between exchange and release |
| McsTheorems.SomeoneCanMove | mcs-lock/mcs-lock.cc:27-115 | no waiter is lost: while anyone is queued the first holds the lock, can move, or waits for a successor that can link itself |
| McsTheorems.UnusedIsFree | mcs-lock/mcs-lock.cc:106-115 | a node no guard uses is neither the tail nor the target of a pending write |
| McsTheorems.ReleaseFreesNode | mcs-lock/mcs-lock.cc:81-115 | so the moment unlock returns, by either path, its node may be reused |
| McsProofs.StepInv | mcs-lock/mcs-lock.cc:3-117 | the invariant of the queue of nodes is kept by every step |
| McsProofs.LinkedIsSecond | mcs-lock/mcs-lock.cc:43-102 | a link in the first node comes from the second in the queue, which is spinning |
| McsLock.Mutex.constructor | mcs-lock/mcs-lock.h:14-37 | a free lock and fresh nodes |
| McsLock.Mutex.SetUp | mcs-lock/mcs-lock.cc:8-9 | resets link and gate of the thread's own node |
| McsLock.Mutex.Swap | mcs-lock/mcs-lock.cc:25-27 | exchanges the tail: where the order of entry is decided |
| McsLock.Mutex.LinkPred | mcs-lock/mcs-lock.cc:43-43 | links the predecessor to the node |
| McsLock.Mutex.Spin | mcs-lock/mcs-lock.cc:54-56 | enters if the gate is open |
| McsLock.Mutex.LoadNext | mcs-lock/mcs-lock.cc:71-72 | looks for a successor |
| McsLock.Mutex.CasTail | mcs-lock/mcs-lock.cc:81-86 | frees the lock if nobody came |
| McsLock.Mutex.SpinNext | mcs-lock/mcs-lock.cc:99-102 | waits for the successor to link itself |
| McsLock.Mutex.OpenGate | mcs-lock/mcs-lock.cc:115-115 | hands the lock over |
| McsLock.Mutex.Execute | mcs-lock/mcs-lock.cc:3-117 | one action of any thread, keeping the invariant |
| McsLock.Mutex.Schedule | mcs-lock/mcs-lock.cc:3-117 | any schedule: one thread inside, entries in exchange order |
| SpscTheorems.NoLostWakeup | spsc-bugfix/eventcount.h:23-71 | whenever the consumer sleeps with an item linked, the producer still owes it an end of epoch or a notify |
| SpscTheorems.SleeperIsWoken | spsc-bugfix/eventcount.h:58-71 | and the producer's own next few steps do wake it |
| SpscTheorems.EpochComparisonExact | spsc-bugfix/eventcount.h:29-49 | the comparison of 31-bit epochs in wait is exact, since at most one epoch begins between get and wait |
| SpscTheorems.SomeoneMoves | spsc-bugfix/eventcount.h:36-71 | no deadlock: with an item linked and the consumer in dequeue one of the two can move |
| SpscTheorems.StepIsFifo | spsc-bugfix/queue.cc:4-55 | linking appends the value, deleting the old front takes the first item, no other step changes the queue |
| SpscTheorems.RunIsFifo | spsc-bugfix/queue.cc:4-55 | every run delivers, in order, a prefix of what was enqueued; dequeue returns the last delivered, never 0 |
| SpscTheorems.NeverDangling | spsc-bugfix/queue.cc:4-55 | no step follows a pointer to a deleted node although addresses are reused, and nothing leaks |
| SpscTheorems.DestructorHolds | spsc-bugfix/queue.h:20-25 | with all items taken `head` is `tail` and that node is the only one left |
| SpscProofs.StepInv | spsc-bugfix/queue.cc:4-55 | the invariant of chain, words and epochs is kept by every step of either thread |
| SpscQueue.EventCount.constructor | spsc-bugfix/eventcount.h:12-15 | count 0, no waiters, mutex free |
| SpscQueue.EventCount.FetchOrFlag | spsc-bugfix/eventcount.h:31-33 | returns the word and sets its flag bit |
| SpscQueue.EventCount.NextEpoch | spsc-bugfix/eventcount.h:63-64 | the weak compare-and-swap to the next epoch with the flag clear, modulo 2^31 |
| SpscQueue.EventCount.TryLock | spsc-bugfix/eventcount.h:41-62 | takes the mutex if it is free |
| SpscQueue.Queue.constructor | spsc-bugfix/queue.h:13-18 | one dummy node |
| SpscQueue.Queue.Alloc | spsc-bugfix/queue.cc:6-6 | a new node at any free address |
| SpscQueue.Queue.Link | spsc-bugfix/queue.cc:12-12 | links the node behind `head` |
| SpscQueue.Queue.StoreHead | spsc-bugfix/queue.cc:14-14 | advances `head` |
| SpscQueue.Queue.Signal | spsc-bugfix/eventcount.h:25-60 | nothing to do when the flag is clear |
| SpscQueue.Queue.SignalLock | spsc-bugfix/eventcount.h:62-62 | takes the mutex |
| SpscQueue.Queue.SignalCas | spsc-bugfix/eventcount.h:63-64 | ends the epoch |
| SpscQueue.Queue.SignalWaiters | spsc-bugfix/eventcount.h:65-67 | reads and clears the waiters, releases the mutex |
| SpscQueue.Queue.Notify | spsc-bugfix/eventcount.h:68-69 | wakes the consumer if it was counted |
| SpscQueue.Queue.TryNext | spsc-bugfix/queue.cc:41-49 | follows the link of `tail` |
| SpscQueue.Queue.ReadData | spsc-bugfix/queue.cc:51-51 | reads the item |
| SpscQueue.Queue.Delete | spsc-bugfix/queue.cc:52-52 | deletes the old front |
| SpscQueue.Queue.StoreTail | spsc-bugfix/queue.cc:53-54 | advances `tail` |
| SpscQueue.Queue.Get | spsc-bugfix/eventcount.h:31-33 | takes the epoch and sets the flag |
| SpscQueue.Queue.WaitLoad | spsc-bugfix/eventcount.h:38-39 | goes to wait only in the same epoch |
| SpscQueue.Queue.WaitLock | spsc-bugfix/eventcount.h:41-41 | takes the mutex |
| SpscQueue.Queue.WaitCheck | spsc-bugfix/eventcount.h:42-43 | compares again under the mutex |
| SpscQueue.Queue.CountWaiter | spsc-bugfix/eventcount.h:45-45 | counts itself |
| SpscQueue.Queue.Sleep | spsc-bugfix/eventcount.h:46-46 | sleeps and releases the mutex in one step |
| SpscQueue.Queue.Wake | spsc-bugfix/eventcount.h:46-46 | a spurious wake-up |
| SpscQueue.Queue.Relock | spsc-bugfix/eventcount.h:46-46 | takes the mutex back |
| SpscQueue.Queue.WaitUnlock | spsc-bugfix/eventcount.h:48-48 | releases the mutex |
| SpscQueue.Queue.Execute | spsc-bugfix/queue.cc:4-55 | one action of either thread, keeping the invariant |
| SpscQueue.Queue.Schedule | spsc-bugfix/queue.cc:4-55 | any schedule: order kept, and a sleeper with an item linked will be woken |
| HashMapTheorems.RunHolds | concurrent-hashmap/hashmap.cc:6-125 | every run: the table holds the map of the operations that took effect, each of which answered what the map held |
| HashMapTheorems.ReturnsCurrent | concurrent-hashmap/hashmap.cc:6-125 | an operation that returned took effect once during its call and returns what its key had then; a put then set it |
| HashMapTheorems.GoLocal | concurrent-hashmap/hashmap.cc:6-125 | a step logs its operation exactly when it makes it effective, and touches no other thread |
| HashMapTheorems.StepOnce | concurrent-hashmap/hashmap.cc:6-125 | each call takes effect at most once; kept by every step |
| HashMapTheorems.RunOnce | concurrent-hashmap/hashmap.cc:6-125 | and in every run |
| HashMapTheorems.HitIsCurrent | concurrent-hashmap/hashmap.cc:30-42 | a lock-free hit returns the key's value at its value load; the retry on a zero value is never taken |
| HashMapTheorems.ZeroUnderLock | concurrent-hashmap/hashmap.cc:48-70 | a get decides to answer 0 only while it holds the segment lock and the map has no such key |
| HashMapTheorems.ChainsGrowInFront | concurrent-hashmap/hashmap.cc:107-122 | keys, hashes and links of entries never change, chains only get one new entry in front, and only by the holder of the lock |
| HashMapTheorems.OneInside | concurrent-hashmap/hashmap.cc:50-123 | at most one thread is between lock and unlock of a segment |
| HashMapTheorems.RunOwned | concurrent-hashmap/hashmap.cc:50-123 | in every run a lock is held only by a thread inside its segment |
| HashMapTheorems.BlockedByAMover | concurrent-hashmap/hashmap.cc:50-123 | no deadlock, in any run: a thread that cannot move waits for a lock whose holder can |
| HashMapProofs.StepInv | concurrent-hashmap/hashmap.cc:6-125 | the invariant is kept by every step |
| HashMapProofs.OnlyOne | concurrent-hashmap/hashmap.cc:92-122 | no two entries of a chain share a key |
| HashMap.Map.constructor | concurrent-hashmap/hashmap.h:65-75 | empty bins and free locks |
| HashMap.Map.GetFirst | concurrent-hashmap/hashmap.cc:11-29 | reads the bin without a lock |
| HashMap.Map.GetWalk | concurrent-hashmap/hashmap.cc:30-46 | one entry of the lock-free walk |
| HashMap.Map.GetValue | concurrent-hashmap/hashmap.cc:36-41 | reads the value: the effect of a hit |
| HashMap.Map.Lock | concurrent-hashmap/hashmap.cc:50-81 | takes the segment's mutex |
| HashMap.Map.GetRecheck | concurrent-hashmap/hashmap.cc:55-57 | with an unchanged bin and no hit the key is absent |
| HashMap.Map.GetRewalk | concurrent-hashmap/hashmap.cc:57-70 | one entry of the walk under the lock |
| HashMap.Map.Unlock | concurrent-hashmap/hashmap.cc:62-123 | releases the mutex |
| HashMap.Map.PutFirst | concurrent-hashmap/hashmap.cc:82-91 | reads the bin under the lock |
| HashMap.Map.PutWalk | concurrent-hashmap/hashmap.cc:92-108 | one entry of the walk |
| HashMap.Map.PutReadOld | concurrent-hashmap/hashmap.cc:96-96 | reads the old value |
| HashMap.Map.PutStore | concurrent-hashmap/hashmap.cc:101-101 | replaces the value: the effect of a put over an old one |
| HashMap.Map.PutAlloc | concurrent-hashmap/hashmap.cc:111-116 | a private new entry |
| HashMap.Map.PutPublish | concurrent-hashmap/hashmap.cc:122-122 | publishes it: the effect of a put of a new key |
| HashMap.Map.Execute | concurrent-hashmap/hashmap.cc:6-125 | one action of any thread, keeping the invariant |
| HashMap.Map.Schedule | concurrent-hashmap/hashmap.cc:6-125 | any schedule: the table holds the map of the operations that took effect |
| ConcurrentMap.P2Capacity | concurrent-hashmap/ConcurrentHashMap.java:295-308 | the least power of two of at least 32 that is large enough; the maximum for negative or too large arguments |
| BitCount.Count | concurrent-hashmap/ConcurrentHashMap.java:282-289 | the bit trick counts the set bits of every 32-bit word |
| BitCount.HalvedIsSum | concurrent-hashmap/ConcurrentHashMap.java:282-289 | five halvings add up all 32 bits |
| BitCount.LinesHalve | concurrent-hashmap/ConcurrentHashMap.java:282-289 | the original lines, which mask less, compute the halvings |
| SegmentBits.SetAgain | concurrent-hashmap/ConcurrentHashMap.java:537-540 | a segment that has voted changes nothing by voting again |
| ConcurrentMap.ConcurrentHashMap.constructor | concurrent-hashmap/ConcurrentHashMap.java:354-364 | an empty map with a legal capacity |
| ConcurrentMap.ConcurrentHashMap.Get | concurrent-hashmap/ConcurrentHashMap.java:436-469 | run alone: the value the map has for the key, or none, by the unlocked probe and the recheck; `JavaMapTheorems` has the races |
| ConcurrentMap.ConcurrentHashMap.Put | concurrent-hashmap/ConcurrentHashMap.java:507-551 | the map with the key set; answers the old value; the table stays or doubles, and the table there was before still holds the map |
| ConcurrentMap.ConcurrentHashMap.PutOver | concurrent-hashmap/ConcurrentHashMap.java:522-528 | replaces the value in the entry of the key |
| ConcurrentMap.ConcurrentHashMap.PutFront | concurrent-hashmap/ConcurrentHashMap.java:531-534 | a new entry in front of its bin, counted in its segment |
| ConcurrentMap.ConcurrentHashMap.Vote | concurrent-hashmap/ConcurrentHashMap.java:537-548 | resizes if and only if eight segments have voted or this one exceeds the overall threshold (a 32-bit product), and the table is the assumed one and not at its maximum |
| ConcurrentMap.ConcurrentHashMap.Resize | concurrent-hashmap/ConcurrentHashMap.java:562-573 | doubles the table if and only if it is still the assumed one and below the maximum; otherwise changes nothing |
| ConcurrentMap.ConcurrentHashMap.NewTable | concurrent-hashmap/ConcurrentHashMap.java:332-335 | an empty table of the capacity, with its threshold |
| ConcurrentMap.ConcurrentHashMap.Rehash | concurrent-hashmap/ConcurrentHashMap.java:579-645 | same map, counts kept, every old bin split exactly in two, old table and all old entries unchanged; at the maximum only the threshold changes |
| ConcurrentMap.ConcurrentHashMap.Remove | concurrent-hashmap/ConcurrentHashMap.java:678-719 | takes the key out if it is there with the given value, if one is given; answers its value |
| ConcurrentMap.ConcurrentHashMap.Unlink | concurrent-hashmap/ConcurrentHashMap.java:706-717 | rebuilds the bin without the entry and lowers its segment's count |
| ConcurrentMap.ConcurrentHashMap.ClearSegment | concurrent-hashmap/ConcurrentHashMap.java:815-825 | empties the bins of one segment, its count, and invalidates their entries |
| ConcurrentMap.ConcurrentHashMap.Clear | concurrent-hashmap/ConcurrentHashMap.java:812-827 | the empty map, and every entry there was is invalidated |
| ConcurrentMap.ConcurrentHashMap.Size | concurrent-hashmap/ConcurrentHashMap.java:405-410 | the sum of the counts is the number of keys of the map |
| ConcurrentMap.ConcurrentHashMap.Perform | concurrent-hashmap/ConcurrentHashMap.java:405-827 | each operation answers and changes the map as on a finite map; an entry whose value it changes then has what the map has for its key, and the old table still holds the map |
| ConcurrentMap.ConcurrentHashMap.PerformAll | concurrent-hashmap/ConcurrentHashMap.java:405-827 | any sequence of operations does, with capacity a power of two of at least 32 throughout |
| ConcurrentMap.Find | concurrent-hashmap/ConcurrentHashMap.java:522-528 | finds the entry with the key, if and only if there is one |
| ConcurrentMap.Probe | concurrent-hashmap/ConcurrentHashMap.java:445-453 | the lock-free walk, stopping at an entry with the key, live or not |
| ConcurrentMap.Detach | concurrent-hashmap/ConcurrentHashMap.java:710-714 | invalidates the entry and clones those before it in front of those after it |
| ConcurrentMap.KillChain | concurrent-hashmap/ConcurrentHashMap.java:820-821 | invalidates every entry of a chain |
| ConcurrentMap.RehashGood | concurrent-hashmap/ConcurrentHashMap.java:579-645 | the doubled table is a good table for the same map with the same counts |
| Rehash.FindRun | concurrent-hashmap/ConcurrentHashMap.java:623-631 | the start of the trailing run of entries for one bin |
| Rehash.PlaceRun | concurrent-hashmap/ConcurrentHashMap.java:617-632 | puts the run, uncloned, into its bin |
| Rehash.CloneAll | concurrent-hashmap/ConcurrentHashMap.java:635-639 | clones the entries before the run in front of it, writing only the new table |
| Rehash.MoveBin | concurrent-hashmap/ConcurrentHashMap.java:613-641 | one bin becomes its two new bins |
| Rehash.MoveAll | concurrent-hashmap/ConcurrentHashMap.java:608-642 | all bins become what `Rehashed` says, with their runs shared |
| Rehash.RehashKeepsMap | concurrent-hashmap/ConcurrentHashMap.java:579-645 | the doubled table holds exactly the old pairs, each once, each in the bin of its hash |
| Rehash.SegmentsKept | concurrent-hashmap/ConcurrentHashMap.java:579-645 | every segment has as many entries as before |
| EntryChains.RunIsMaximal | concurrent-hashmap/ConcurrentHashMap.java:623-631 | the run is for one bin and the entry before it is not |
| EntryChains.RehashedExactly | concurrent-hashmap/ConcurrentHashMap.java:594-640 | a new bin gets exactly the entries that belong there, one for each key |
| EntryChains.RehashedSizes | concurrent-hashmap/ConcurrentHashMap.java:594-640 | the two new bins share the entries between them |
| PowersOfTwo.DoubledBin | concurrent-hashmap/ConcurrentHashMap.java:594-598 | in a doubled table an entry stays at index i or moves to i + oldCapacity, also for negative hash codes |
| PowersOfTwo.LowBits | concurrent-hashmap/ConcurrentHashMap.java:103-108 | the same segment controls the same keys before and after resizing |
| Tables.Invalidate | concurrent-hashmap/ConcurrentHashMap.java:706-710 | all other entries hold the map without the key |
| Tables.CloneBefore | concurrent-hashmap/ConcurrentHashMap.java:712-714 | the rebuilt chain has all entries but one, with what follows it shared |
| Tables.RemovedShape | concurrent-hashmap/ConcurrentHashMap.java:712-715 | a bin without one entry has the others, once each, in the right bin |
| Tables.OneEntry | concurrent-hashmap/ConcurrentHashMap.java:517-532 | a key has one entry in the whole table |
| HashIterators.HashIterator.constructor | concurrent-hashmap/ConcurrentHashMap.java:1086-1091 | starts at the top of the table there is |
| HashIterators.HashIterator.HasNext | concurrent-hashmap/ConcurrentHashMap.java:1096-1125 | true exactly when it has found a live entry; false only when the walk is over |
| HashIterators.HashIterator.Next | concurrent-hashmap/ConcurrentHashMap.java:1129-1138 | returns a key not returned before with a value the map gave it at some moment since the iterator was made, or nothing once every key that was there throughout has been returned |
| HashIterators.AllPairs | concurrent-hashmap/ConcurrentHashMap.java:1078-1147 | over a map left alone: exactly its keys, each once, with their values |
| HashIterators.Interleave | concurrent-hashmap/ConcurrentHashMap.java:1078-1147 | while operations, resizes and removals through the iterator come between: no key is returned twice; every pair returned was in the map at some moment between the start of the iteration and its return; and when the iteration ends every key that was there throughout has been returned |
| HashIterators.RemoveReturned | concurrent-hashmap/ConcurrentHashMap.java:1140-1145 | removes the key last returned from the map |
| HashIterators.PerformDuring | concurrent-hashmap/ConcurrentHashMap.java:1078-1147 | an operation of the map leaves an iterator its table in shape, the values ahead of it ones that the map had, and the keys that stay ahead of it |
| JavaMapTheorems.GetReturns | concurrent-hashmap/ConcurrentHashMap.java:436-469 | every run of any number of threads: a get that returned, with or without the lock, gives what the map had for its key at some moment of its call, however many puts, removes, clears and rehashes raced with it |
| JavaMapTheorems.NullUnderLock | concurrent-hashmap/ConcurrentHashMap.java:454-468 | a get decides that there is no value only under the lock of the key's segment, when the map has no such key |
| JavaMapTheorems.PutReturns | concurrent-hashmap/ConcurrentHashMap.java:507-551 | a put that returned took effect at one moment of its call: it answers what the map then had and gave the key the new value |
| JavaMapTheorems.RemoveReturns | concurrent-hashmap/ConcurrentHashMap.java:678-719 | a remove that returned took the key out at one moment of its call and answers its value, or found nothing to take out |
| JavaMapTheorems.StepMap | concurrent-hashmap/ConcurrentHashMap.java:436-827 | only a put's store, the mark on a removed node and each mark of clear change the map; publishing a rebuilt bin or a doubled table never does |
| JavaMapTheorems.RunOnce | concurrent-hashmap/ConcurrentHashMap.java:507-719 | in every run a put changes the map exactly once in its call, a remove just when it answers a value, a get never |
| JavaMapTheorems.RunHolds | concurrent-hashmap/ConcurrentHashMap.java:74-96 | in every run the current table has for each key what the map has; a marked node stays in it only while its thread holds the segment's lock |
| JavaMapTheorems.ClearsSegment | concurrent-hashmap/ConcurrentHashMap.java:812-827 | when clear has done a segment and still holds its lock, the map has no key of it |
| JavaMapTheorems.StepFreezes | concurrent-hashmap/ConcurrentHashMap.java:606-644 | no step writes a table that was replaced, or the key or link of any node |
| JavaMapTheorems.RunFreezes | concurrent-hashmap/ConcurrentHashMap.java:606-644 | so a reader or an iterator can go on in an old table over any run |
| JavaMapTheorems.OneInside | concurrent-hashmap/ConcurrentHashMap.java:86-96 | at most one thread is between lock and unlock of a segment, and nobody is while a rehash runs |
| JavaMapTheorems.SomeoneMoves | concurrent-hashmap/ConcurrentHashMap.java:562-573 | no deadlock, in any run: while an operation is unfinished some thread can move, although a resize gathers all the locks |
| JavaMapTheorems.Fill | concurrent-hashmap/ConcurrentHashMap.java:579-715 | the chains that publishing a rehash or a rebuilt bin asks for exist for every map |
| JavaMapProofs.StepInv | concurrent-hashmap/ConcurrentHashMap.java:436-827 | the invariant of table, map, locks and readers is kept by every step of every thread |
| JavaMapProofs.ReadOn | concurrent-hashmap/ConcurrentHashMap.java:440-453 | a walk without a lock stays right whatever step another thread takes: what it would return the map had at some moment of its call |

## Left out

- Weak memory orders, the injected weakenings and the CDSSpec annotations: a run is an interleaving.
- Test drivers, makefiles, backoff and `thrd_yield`.
- `ticket-lock`, `read-copy-update`, `seqlock` and `linuxrwlocks`: each needs one small invariant.
- `simulateRecycledNodeUpdate` of ms-queue/queue.c: the queue operations do not call it.
- `create` of the deque (deque.c:25-51): the class constructor is `create_size` with any size; the preallocated array is not modelled.
- ConcurrentMap.ConcurrentHashMap.Get: the method on heap objects runs alone, as do the other methods of that class; their races are those of `JavaMapModel`, on nodes named by index.
- What a thread of `JavaMapModel` does under a segment's lock between two stores that readers can see is one step, since nobody else writes there. The count of a segment, `size` and the votes are not in it: a resize may be called at any time.
- Memory reuse in the Java map: nodes are never freed while a reader can reach them.
- The Java map's `NullPointerException`, `IllegalArgumentException` and `NoSuchElementException`: keys and values are never null, the load factor is a function of the capacity, and an exhausted iterator returns no entry.
- Overflow of a segment's count past 2^31 entries.
- `containsValue`, `isEmpty`, `putAll` and its pre-sizing loop, the views, serialization, `hashCode` and the mixing of hash codes in `hash`.
- Progress is "some step is enabled and changes the state", not that a spin loop ends.
