# Models of MoonGen, libmoon and RUDE

MoonGen generates and measures network traffic; libmoon is its packet library, with
lock-free queues, a hash library and a profiler among its dependencies; RUDE is a
real-time UDP traffic generator shipped beside it.  This project models the parts of
that code whose correctness is hardest to see and proves what they are for.

`dafny verify dfyconfig.toml` checks everything.

| file | models |
|---|---|
| `FreeList.dfy` | the lock-free free list of the MPMC queue: reference counts with a re-add flag |
| `Tickets.dfy` | the optimistic ticket protocol of its dequeues, single and bulk |
| `BlockIndex.dfy`, `IndexRuns.dfy` | where an implicit producer keeps its elements: blocks and a growing circular index, and that index under concurrent lookups |
| `ProducerHash.dfy` | the table from thread ids to producers |
| `Spsc.dfy`, `SpscRuns.dfy`, `RoundUp.dfy` | the single-producer single-consumer queue: one access at a time, whole runs, and its rounding to powers of two |
| `ThreadPool.dfy`, `ThreadPoolRuns.dfy` | the fork-join pool of the hash library, and the runs that show where its guarantees end |
| `Rude.dfy`, `FlowControl.dfy`, `CleanUp.dfy`, `RudeResults.dfy` | RUDE's flow scheduler: lists, transmission, clean-up |
| `Parser.dfy`, `ReadConfig.dfy`, `RudeClock.dfy` | its configuration parser, and what the rates it accepts do to the clock |
| `Sockets.dfy`, `RudeMain.dfy` | its sockets, and a whole run |
| `Highway.dfy`, `HighwayBytes.dfy`, `HighwayPortable.dfy`, `HighwayCat.dfy` | HighwayHash: rounds, messages, the portable C++ form, the C and C++ appenders |
| `RateLimiter.dfy` | rate control by frames with a bad checksum |
| `Profiler.dfy`, `ProfilerTimes.dfy` | the zone profiler |
| `Checksum.dfy` | one's complement sums and the IPv4 pseudo header |
| `Common.dfy` | what several of them share |

The concurrent parts are state machines whose steps are single accesses to shared
memory; their results hold for every interleaving of any number of threads.  The
sequential parts that update memory in place are classes and methods with loops,
each proved against a specification, and what the code promises is proved about the
specification.  Pointers between RUDE's blocks are indices into a sequence of blocks,
so that a dangling or repeated use can be stated.

Outside influences are parameters: clock readings, the outcome of `sendto`, `socket`,
`bind`, `fcntl` and memory allocation, and the lines of a configuration file split into fields.

Some things one might expect do not hold of the code; the models keep the code and
state exactly when they do:

- the thread pool forms its sums in 32-bit ints: if the end of the range and the largest shares of
  all workers but one reach 2^31, there are runs that perform a task below the range
  (`ThreadPoolRuns.ExactlyOnce`, `ThreadPoolRuns.WrongTask`, `ThreadPoolRuns.LargestRangeFails`);
- its reservation counter passes the number of tasks by as much as the largest share for each
  worker but one, and one (`ThreadPool.OvershootBound`, `ThreadPoolRuns.OvershootIsReached`), and so not always
  by less than half the tasks or the number of workers (`ThreadPoolRuns.StrictBoundHolds`);
- RUDE reads a rate as a long and stores it in an int: rates whose low 32 bits are a small negative
  number take tv_usec below zero, and multiples of 2^32 stop a flow (`RudeClock.RateKeepsTheClock`,
  `RudeClock.NegativeRate`, `RudeClock.ZeroRate`);
- it never closes a socket that got descriptor 0 (`Sockets.ClosedIffNoZero`, `Sockets.DescriptorZero`);
- the IPv4 pseudo-header sum is off by one for protocol numbers from 128 on when the
  three 32-bit lanes produce a carry, because the shifted protocol is sign-extended, and
  its length field is wrong for packets shorter than their header (`Checksum.PseudoHeaderSum`, `Checksum.AllOnes`);
- the rate limiter loses the carried bytes on every gap that, with the carry, reaches
  1538 bytes (`RateLimiter.Balance`, `RateLimiter.LossIsTheCarry`), and sends fillers below
  the minimum size once that exceeds 769 (`RateLimiter.FillerSizes`, `RateLimiter.ShortFiller`);
- the profiler's list overlooks a first zone whose biased offset is zero
  (`Profiler.Results.UpdateOrAdd`), and `AnalyzeRemainingPackets` does not empty the
  buffer, so a second call analyzes its packets again unless nothing was ever written
  (`ProfilerTimes.ThreadSpecific.AnalyzeTwice`, `ProfilerTimes.OnePacketTwice`, `ProfilerTimes.OneExitTwice`);
- the rounding to a power of two gives 0 above 2^63 (`RoundUp.CeilToPow2`), and the queue's constructor
  then makes a block without slots (`SpscRuns.Construct`);
- the block index divides a negative difference of indices as an unsigned number, although the
  comment beside it means the sign to be kept; the slot found is right all the same
  (`BlockIndex.SlotIsBack`);
- wrapped indices half a turn apart or more are not ordered by the queue's comparison
  (`Tickets.CircularOrderIsExact`).

## Model

| member | source | states |
|---|---|---|
| `FreeList.Preserved` | MoonGen/libmoon/lib/concurrentqueue/concurrentqueue.h:1364-1443 | every single atomic access of `add` or `try_get` by any thread keeps the invariant: one home for every node, an acyclic list, and reference words that count exactly the list's reference, the references in flight and the re-add flag |
| `FreeList.NextFrozen` | MoonGen/libmoon/lib/concurrentqueue/concurrentqueue.h:1385-1405 | the `next` a thread has read from a referenced head node cannot be changed by any other thread until its reference is given back (no ABA) |
| `FreeList.EveryNodeHasOneHome` | MoonGen/libmoon/lib/concurrentqueue/concurrentqueue.h:1364-1443 | in every state of every interleaving each node is with the client, on the list, with exactly one thread, or flagged for re-adding, and its 32-bit word says which |
| `FreeList.TakenNodeIsNotFlagged` | MoonGen/libmoon/lib/concurrentqueue/concurrentqueue.h:1395-1403 | the assertion after a successful pop never fires |
| `FreeList.NoDoubleHandOut` | MoonGen/libmoon/lib/concurrentqueue/concurrentqueue.h:1378-1416 | `try_get` never returns a node that the client or another thread has |
| `FreeList.QuiescentListIsComplete` | MoonGen/libmoon/lib/concurrentqueue/concurrentqueue.h:1364-1443 | when no call is in progress every node not with the client is on the list once, with reference word 1 |
| `FreeList.NullOnlyWhenEmpty` | MoonGen/libmoon/lib/concurrentqueue/concurrentqueue.h:1378-1416 | `try_get` returns null only if the list was empty at some moment of that call |
| `Tickets.Preserved` | MoonGen/libmoon/lib/concurrentqueue/concurrentqueue.h:2462-2532 | every access of the optimistic dequeue protocol keeps the account of every ticket drawn: won, lost or open, and by whom |
| `Tickets.DecisionFits` | MoonGen/libmoon/lib/concurrentqueue/concurrentqueue.h:2696-2707 | the number of tickets a consumer keeps after re-reading the tail fits below that tail, whatever the other consumers decide |
| `Tickets.WinsBound` | MoonGen/libmoon/lib/concurrentqueue/concurrentqueue.h:2470-2475 | tickets that fit one by one below the tail are together no more than the elements published |
| `Tickets.ClaimsStayBelowTail` | MoonGen/libmoon/lib/concurrentqueue/concurrentqueue.h:2462-2476 | in every run each claim, single or bulk, starts where the last one ended and ends at or below the published tail: no index is claimed twice, skipped or claimed early |
| `Tickets.OvercommitBelowTicket` | MoonGen/libmoon/lib/concurrentqueue/concurrentqueue.h:2466-2472 | the overcommit a consumer subtracts never exceeds its ticket |
| `Tickets.QuiescentCountersAgree` | MoonGen/libmoon/lib/concurrentqueue/concurrentqueue.h:2462-2532 | with no dequeue in progress the optimistic count less the overcommit is the head index |
| `Tickets.LoneDequeue` | MoonGen/libmoon/lib/concurrentqueue/concurrentqueue.h:2684-2785 | from a state with no dequeue in progress, a dequeue that meets only the producer, which may publish between any two of its accesses, fails exactly when the queue was empty at its first look at the tail, and otherwise takes the lesser of its limit and what it saw |
| `Tickets.CircularOrderIsExact` | MoonGen/libmoon/lib/concurrentqueue/concurrentqueue.h:398-409 | the unsigned comparison orders two wrapped 64-bit indices correctly if and only if they are less than half a turn apart (or exactly half, with the first ahead) |
| `RoundUp.CeilToPow2` | MoonGen/libmoon/lib/spsc-queue/readerwriterqueue.h:519-531 | the loop that smears the bits of a 64-bit word gives the least power of two at or above the argument if and only if that is a word, that is from 1 to 2^63; otherwise the sum wraps to 0 |
| `RoundUp.ValueOfBits` | MoonGen/libmoon/lib/spsc-queue/readerwriterqueue.h:519-531 | the bits worked on are those of the number |
| `RoundUp.TopBit` | MoonGen/libmoon/lib/spsc-queue/readerwriterqueue.h:522-529 | the highest bit of a number from 2^e up to 2^(e+1) is bit e |
| `SpscRuns.InitialIsRoomy` | MoonGen/libmoon/lib/spsc-queue/readerwriterqueue.h:80-88 | the initial blocks have room for maxSize elements wherever the consumer stands |
| `SpscRuns.Construct` | MoonGen/libmoon/lib/spsc-queue/readerwriterqueue.h:68-117 | the constructor's loop builds the circular list of blocks from which every run starts, for fewer than 2^63 elements; from 2^63 on it makes one block without slots |
| `Spsc.Preserved` | MoonGen/libmoon/lib/spsc-queue/readerwriterqueue.h:186-508 | every single access of the producer or the consumer keeps the ring invariant, and its effect on the ring is the effect of its event on an abstract FIFO queue |
| `SpscRuns.QueueIsElements` | MoonGen/libmoon/lib/spsc-queue/readerwriterqueue.h:186-322 | the abstract queue is what one reads walking the block ring from the front block to the tail block |
| `SpscRuns.Fifo` | MoonGen/libmoon/lib/spsc-queue/readerwriterqueue.h:151-277 | at every moment of every interleaving the elements enqueued so far are, in order, those dequeued so far followed by those in the queue |
| `SpscRuns.EventsAreTrue` | MoonGen/libmoon/lib/spsc-queue/readerwriterqueue.h:280-322 | an enqueue appends, a dequeue removes the oldest, a peek shows the oldest and every other access leaves the queue alone |
| `SpscRuns.AssertionsNeverFire` | MoonGen/libmoon/lib/spsc-queue/readerwriterqueue.h:245-253 | the block the consumer moves to is not empty and the block the producer moves to is |
| `SpscRuns.EmptyMeansEmpty` | MoonGen/libmoon/lib/spsc-queue/readerwriterqueue.h:182-277 | a dequeue or peek that reports emptiness found the queue empty at some moment of that call |
| `SpscRuns.FullMeansFull` | MoonGen/libmoon/lib/spsc-queue/readerwriterqueue.h:413-508 | `try_enqueue` fails only if the queue held the promised maxSize elements at some moment of that call, also after it has grown |
| `BlockIndex.SlotIsBack` | MoonGen/libmoon/lib/concurrentqueue/concurrentqueue.h:2846-2862 | the unsigned division of a negative, wrapped difference of indices finds the slot of the block an index lies in, because the capacity divides the index space |
| `BlockIndex.InsertPublish` | MoonGen/libmoon/lib/concurrentqueue/concurrentqueue.h:2807-2831 | entering the next block in a vacant slot keeps the index right for all live blocks |
| `BlockIndex.InsertRewind` | MoonGen/libmoon/lib/concurrentqueue/concurrentqueue.h:2419-2425 | entering a base and rewinding, for want of a block, leaves the index right |
| `BlockIndex.FreeSlot` | MoonGen/libmoon/lib/concurrentqueue/concurrentqueue.h:2511-2520 | emptying the slot of a block that is done leaves the index right for the others |
| `BlockIndex.Doubled` | MoonGen/libmoon/lib/concurrentqueue/concurrentqueue.h:2864-2906 | doubling the index keeps every live block where the arithmetic will look for it |
| `BlockIndex.CopyEntries` | MoonGen/libmoon/lib/concurrentqueue/concurrentqueue.h:2880-2894 | the copy loop lays the old entries out oldest first and fills the rest with the invalid base |
| `BlockIndex.DoneWhenFull` | MoonGen/libmoon/lib/concurrentqueue/concurrentqueue.h:2511-2520 | a block's counter reaches the block size exactly when all its indices have been consumed |
| `BlockIndex.StoreConsume` | MoonGen/libmoon/lib/concurrentqueue/concurrentqueue.h:2487-2524 | counting one more element of a block keeps counters and contents in step with the indices consumed |
| `BlockIndex.StoreAppend` | MoonGen/libmoon/lib/concurrentqueue/concurrentqueue.h:2441-2459 | writing the next slot of the tail block keeps all stored elements and adds the new one |
| `BlockIndex.StoreNewBlock` | MoonGen/libmoon/lib/concurrentqueue/concurrentqueue.h:2418-2457 | so does a fresh block at a boundary |
| `BlockIndex.ImplicitProducer.Claim` | MoonGen/libmoon/lib/concurrentqueue/concurrentqueue.h:2475-2479 | at any claim of any run of the ticket protocol, every index claimed holds a published element that is not consumed and lies in a block that is still in the index |
| `BlockIndex.ImplicitProducer.NewBlockIndex` | MoonGen/libmoon/lib/concurrentqueue/concurrentqueue.h:2864-2906 | the index doubles and nothing else changes |
| `BlockIndex.ImplicitProducer.Lookup` | MoonGen/libmoon/lib/concurrentqueue/concurrentqueue.h:2839-2862 | the slot found holds the base and the block of the given index |
| `BlockIndex.ImplicitProducer.Consume` | MoonGen/libmoon/lib/concurrentqueue/concurrentqueue.h:2477-2524 | consuming claimed indices in any order yields the element enqueued under each, and returns a block exactly when the last of its elements goes, so once |
| `BlockIndex.ImplicitProducer.InsertAndRewind` | MoonGen/libmoon/lib/concurrentqueue/concurrentqueue.h:2413-2425 | a missing block leaves contents and live blocks as they were |
| `BlockIndex.ImplicitProducer.InsertAndPublish` | MoonGen/libmoon/lib/concurrentqueue/concurrentqueue.h:2425-2457 | a new block becomes live under the next base with the element as its first |
| `BlockIndex.RefusalIsExact` | MoonGen/libmoon/lib/concurrentqueue/concurrentqueue.h:2404-2410 | a new block is refused exactly when filling it would pass MAX_SUBQUEUE_SIZE or half the range of indices |
| `BlockIndex.ImplicitProducer.Enqueue` | MoonGen/libmoon/lib/concurrentqueue/concurrentqueue.h:2398-2460 | succeeds exactly when no new block is needed, or the size limits allow one and both a slot and a block can be had; appends the element; never reuses a live block |
| `IndexRuns.Preserved` | MoonGen/libmoon/lib/concurrentqueue/concurrentqueue.h:2807-2906 | every access of the producer and of any number of consumers to the shared index, its headers and its entries keeps the invariant: insertion, tail, value, rewinding, doubling, the four loads of a lookup, and the freeing of a block |
| `IndexRuns.ProducerMoves` | MoonGen/libmoon/lib/concurrentqueue/concurrentqueue.h:2807-2837 | whatever the producer does between two loads of a lookup, what the consumer has read still leads to its block |
| `IndexRuns.ThroughKept` | MoonGen/libmoon/lib/concurrentqueue/concurrentqueue.h:2876-2902 | a replaced header, whose tail is no longer advanced, shares the entries of the current one and still leads to every live block it knew |
| `IndexRuns.OldestIsGone` | MoonGen/libmoon/lib/concurrentqueue/concurrentqueue.h:2812-2819 | the entry an insertion takes over is never that of a live block |
| `IndexRuns.LookRelies` | MoonGen/libmoon/lib/concurrentqueue/concurrentqueue.h:2846-2862 | each of the four loads of a lookup leaves the consumer with what the next one needs |
| `IndexRuns.LookupsFind` | MoonGen/libmoon/lib/concurrentqueue/concurrentqueue.h:2839-2862 | in every run a lookup ends at an entry with the base of its block and the block itself, through whichever header it went, and the entry stays so until the consumer lets go: the assertion at the end of the lookup never fires |
| `IndexRuns.TailHasKey` | MoonGen/libmoon/lib/concurrentqueue/concurrentqueue.h:2851-2855 | nor does the one that the tail has a key |
| `IndexRuns.GrowMakesRoom` | MoonGen/libmoon/lib/concurrentqueue/concurrentqueue.h:2821-2830 | nor does the one that a new header has an unused entry behind its tail |
| `ProducerHash.StopsInTime` | MoonGen/libmoon/lib/concurrentqueue/concurrentqueue.h:3304-3342 | a probe sequence meets a free slot before it has gone round the table |
| `ProducerHash.NotBehindFree` | MoonGen/libmoon/lib/concurrentqueue/concurrentqueue.h:3338-3340 | a free slot on the probe sequence means that the id is not in the table |
| `ProducerHash.Placed` | MoonGen/libmoon/lib/concurrentqueue/concurrentqueue.h:3404-3422 | claiming the first free slot keeps every key reachable from its home without a gap |
| `ProducerHash.RoomForAll` | MoonGen/libmoon/lib/concurrentqueue/concurrentqueue.h:3310-3315 | a table larger than the number of known ids has a free slot, so lazy copies always find room |
| `ProducerHash.Producers.Search` | MoonGen/libmoon/lib/concurrentqueue/concurrentqueue.h:3303-3342 | finds the id if and only if it is in the table, with its producer, and terminates |
| `ProducerHash.Producers.FindFree` | MoonGen/libmoon/lib/concurrentqueue/concurrentqueue.h:3404-3422 | terminates at the first free slot of the probe sequence |
| `ProducerHash.Producers.Find` | MoonGen/libmoon/lib/concurrentqueue/concurrentqueue.h:3301-3343 | the walk over all tables finds an id if and only if it is known |
| `ProducerHash.Producers.Enough` | MoonGen/libmoon/lib/concurrentqueue/concurrentqueue.h:3357-3360 | doubling ends with more than twice the count |
| `ProducerHash.Producers.Claim` | MoonGen/libmoon/lib/concurrentqueue/concurrentqueue.h:3316-3334 | an id is entered in the current table without losing any other |
| `ProducerHash.Producers.Insert` | MoonGen/libmoon/lib/concurrentqueue/concurrentqueue.h:3345-3423 | a new id gets the new producer after the table has grown enough, or nothing changes but the tables if memory is short |
| `ProducerHash.Producers.GetOrAdd` | MoonGen/libmoon/lib/concurrentqueue/concurrentqueue.h:3282-3430 | a known id gets its first producer, a new one gets a new producer, across resizes and lazy copies |
| `ProducerHash.Serve` | MoonGen/libmoon/lib/concurrentqueue/concurrentqueue.h:3282-3430 | over any sequence of calls two successful calls return the same producer if and only if they came from the same thread id |
| `ThreadPool.CommandRoundTrip` | MoonGen/libmoon/deps/highwayhash/highwayhash/data_parallel.h:104-107 | a packed command gives back its range and is never one of the reserved commands |
| `ThreadPool.Preserved` | MoonGen/libmoon/deps/highwayhash/highwayhash/data_parallel.h:162-230 | as long as the end of the range and the overshoot are at most 2^31, every step of the main thread or a worker, with its sums and counter in 32-bit ints, keeps the account of tasks performed, held and still to be reserved |
| `ThreadPool.StepIsIdeal` | MoonGen/libmoon/deps/highwayhash/highwayhash/data_parallel.h:191-197 | under that condition the wrapped counter takes every worker to the range the unbounded counter would, and if the sum is below 2^31 no int leaves its range |
| `ThreadPool.RunPerformsEachTaskOnce` | MoonGen/libmoon/deps/highwayhash/highwayhash/data_parallel.h:99-116 | when Run returns, every task of the range has been performed exactly once, nothing else has, and every worker waits again |
| `ThreadPool.NeverTwice` | MoonGen/libmoon/deps/highwayhash/highwayhash/data_parallel.h:180-206 | no task is performed twice or outside the range even halfway through |
| `ThreadPool.OvershootBound` | MoonGen/libmoon/deps/highwayhash/highwayhash/data_parallel.h:193-197 | the reservation counter passes the number of tasks by at most the largest share for each worker but one, and one |
| `ThreadPoolRuns.IntRangeIsKept` | MoonGen/libmoon/deps/highwayhash/highwayhash/data_parallel.h:191-197 | no run leaves the int range if and only if the end of the range and that overshoot are together below 2^31 |
| `ThreadPoolRuns.ExactlyOnce` | MoonGen/libmoon/deps/highwayhash/highwayhash/data_parallel.h:99-206 | every run that ends has performed each task of the range exactly once and no other, and none twice on the way, if and only if the end and the largest shares of all workers but one are together below 2^31 |
| `ThreadPoolRuns.OvershootIsReached` | MoonGen/libmoon/deps/highwayhash/highwayhash/data_parallel.h:193-197 | for every range that fits and every number of workers there is a run that attains the bound on the overshoot |
| `ThreadPoolRuns.StrictBoundHolds` | MoonGen/libmoon/deps/highwayhash/highwayhash/data_parallel.h:193-197 | the overshoot stays below half the tasks or the number of workers, whichever is more, if and only if half the tasks are more than the workers |
| `ThreadPoolRuns.WrongTask` | MoonGen/libmoon/deps/highwayhash/highwayhash/data_parallel.h:191-204 | for every range beyond the condition there is a run in which a worker performs a task below the range |
| `ThreadPoolRuns.LargestRangeFails` | MoonGen/libmoon/deps/highwayhash/highwayhash/data_parallel.h:191-204 | two workers and Run(0, 2147483647): task -2147483648 is performed |
| `FlowControl.Scheduler.RemoveFlow` | rude/rude/flow_cntl.c:46-85 | a block in the active list moves to the done list and hands place, socket and sequence number to the next slot of its flow, or its socket is closed; any other block changes nothing and is reported; all list and account invariants are kept |
| `FlowControl.Scheduler.Find` | rude/rude/flow_cntl.c:48-60 | the walk finds the block and the one before it, or shows that no flow has it in front |
| `FlowControl.Scheduler.Unlink` | rude/rude/flow_cntl.c:63-82 | the links after removal are those of the specification, block by block |
| `FlowControl.Scheduler.Drop` | rude/rude/flow_cntl.c:109-115 | after a removal the walk goes on at the right block, and fewer blocks remain |
| `FlowControl.Scheduler.FindNext` | rude/rude/flow_cntl.c:94-126 | terminates; every flow settles on its first block that is not expired; the result is the first block with the least transmission time among those, or none |
| `FlowControl.Scheduler.SendCbr` | rude/rude/flow_txmit.c:69-106 | one packet with the next sequence number; the outcome goes to one counter; the next packet is due 1000000.0/rate microseconds later, truncated, where the rate is the 32-bit int that was stored |
| `RudeClock.RateKeepsTheClock` | rude/rude/parse.c:317-326 | tv_usec stays a fraction of a second at every transmission of a flow if and only if the rate on its line, modulo 2^32, is below 2^32 - 1000000 |
| `RudeClock.NegativeRate` | rude/rude/parse.c:317-326 | a line with rate 4294967295 is accepted and stored as -1, and the first transmission takes a second off tv_usec |
| `RudeClock.ZeroRate` | rude/rude/parse.c:652-664 | exactly the multiples of 2^32 become the rate of a stopped flow |
| `RudeClock.NextUsecTruncates` | rude/rude/flow_txmit.c:99-103 | the sum stored in tv_usec is the exact sum truncated towards zero |
| `FlowControl.Scheduler.SendTrace` | rude/rude/flow_txmit.c:112-149 | the same with the pause the trace gives, whose place advances and wraps round |
| `FlowControl.TargetIsLive` | rude/rude/flow_cntl.c:103-124 | what find_next returns is not expired and does not have rate zero, so the division in send_cbr is safe |
| `FlowControl.Scheduler.Turn` | rude/rude/main.c:225-227 | one turn sends exactly one packet, of a block that is not past its end and is due no later than that of any other flow, or finds that no flow has a block left |
| `FlowControl.Scheduler.Run` | rude/rude/main.c:225-227 | for any clock readings and any outcome of sendto the invariants hold throughout; the loop ends only when no flow has a block left, and a reading past every stop time ends it |
| `RudeResults.BlocksAreConserved` | rude/rude/flow_cntl.c:46-85 | read off the pointers: every block is in exactly one of the done list, the active list, or the modification list of one active block, and no list meets a block twice |
| `RudeResults.AllBlocksEnd` | rude/rude/flow_cntl.c:94-126 | when find_next finds nothing the done list holds every block once |
| `RudeResults.NumbersHaveNoGaps` | rude/rude/flow_txmit.c:78-103 | the packets of a flow carry 0, 1, 2, ... in the order sent, across all its time slots, and a block that is over records how many there had been |
| `CleanUp.FreeHead` | rude/rude/flow_cntl.c:141-163 | the first active block is freed for the first time, its socket is closed if it has one, and the rest of the list stays in order |
| `CleanUp.ClearActive` | rude/rude/flow_cntl.c:141-163 | the first loop frees exactly the blocks that are not on the done list and closes every socket whose number is positive |
| `CleanUp.ClearDone` | rude/rude/flow_cntl.c:168-181 | the second loop frees the done list in order, none of it twice |
| `CleanUp.CleanUp` | rude/rude/flow_cntl.c:134-188 | from any state of the scheduler every block is freed exactly once, and the sockets closed in all are those closed by open_sockets and those with a positive number, each once |
| `Parser.AddParsed` | rude/rude/parse.c:351-357 | linking a new flow behind the last keeps the list, the chains and the uniqueness of ids |
| `Parser.StopParsed` | rude/rude/parse.c:380-390 | setting the stop time of a last slot keeps them |
| `Parser.ExtendParsed` | rude/rude/parse.c:457-464 | hanging a new slot behind the last one of a flow keeps them |
| `Parser.ConfigurationIsSound` | rude/rude/parse.c:546-641 | whatever lines are read, ids are unique, no slot ends before it starts and each slot starts when the one before it ends |
| `Parser.NoneOpen` | rude/rude/parse.c:644-649 | no missing stop time is counted exactly when every slot has one |
| `Parser.OneSlotAtATime` | rude/rude/parse.c:400-477 | in a file without errors every moment from a flow's first start to its last stop lies in exactly one of its slots |
| `ReadConfig.FindFlowId` | rude/rude/parse.c:80-94 | finds the entry of an id if there is one |
| `ReadConfig.LastBlock` | rude/rude/parse.c:372-372 | the walk along the modifications ends at the last slot of the flow |
| `ReadConfig.LastEntry` | rude/rude/parse.c:354-355 | the walk along the list ends at its last entry |
| `ReadConfig.Append` | rude/rude/parse.c:351-357 | the new block is linked behind that entry, or heads the list |
| `ReadConfig.FlowOn` | rude/rude/parse.c:270-360 | the lists afterwards hold the configuration with the new flow, or the same configuration when the line is refused |
| `ReadConfig.FlowOff` | rude/rude/parse.c:366-394 | the last slot of the flow gets its end; a second end is refused; an end before the start is replaced by the start and reported |
| `ReadConfig.FlowModify` | rude/rude/parse.c:400-477 | ends the last slot and adds the next, or leaves exactly what the original leaves on each error path |
| `ReadConfig.Command` | rude/rude/parse.c:607-634 | ON, OFF and MODIFY act on the configuration as specified, with their error cases |
| `ReadConfig.ReadLines` | rude/rude/parse.c:546-641 | the loop over the file computes the specified configuration, error count and command count |
| `ReadConfig.CheckStops` | rude/rude/parse.c:643-680 | the walk visits every block once, counts exactly those without a stop time and puts rate-zero blocks off until after their end |
| `ReadConfig.ReadCfg` | rude/rude/parse.c:533-687 | the result is the number of commands or minus the number of errors, and memory holds the configuration, ready to run in either case |
| `ReadConfig.ReadyIsValid` | rude/rude/parse.c:643-680 | what the parser leaves behind satisfies all invariants of the scheduler |
| `Sockets.OpenSocket` | rude/rude/main.c:437-466 | what is left in send_sock, what was opened and what was closed again, for every answer of socket, bind and fcntl |
| `Sockets.OpenSockets` | rude/rude/main.c:424-478 | the log of what socket() returned and the log of what was closed after a failed bind are complete, every flow keeps its own socket, and the result is 0 exactly when everything succeeded |
| `Sockets.Account` | rude/rude/main.c:437-452 | what socket() returned is what was closed after a failed bind, what the closing code sees, and the bound sockets with descriptor 0 |
| `Sockets.ClosedIffNoZero` | rude/rude/flow_cntl.c:68-71 | after clean-up each socket has been closed as often as it was opened if and only if no bound flow got descriptor 0; the sockets left over are exactly those |
| `Sockets.DescriptorZero` | rude/rude/flow_cntl.c:143-146 | one flow whose socket() returns 0 is bound and may transmit, and its socket is never closed |
| `RudeMain.Run` | rude/rude/main.c:163-279 | a whole run, for any file, clock and network: blocks freed once; sockets closed as often as opened if and only if no bound flow got descriptor 0; packets of every configured id numbered without gaps |
| `Highway.UpdateIsABijection` | MoonGen/libmoon/deps/highwayhash/c/highwayhash.c:35-59 | for fixed lanes Update is a bijection of the 1024-bit state, with its inverse given |
| `Highway.LanesAreDetermined` | MoonGen/libmoon/deps/highwayhash/c/highwayhash.c:47-59 | two packets of lanes that take a state to the same state are equal |
| `Highway.PacketIsDetermined` | MoonGen/libmoon/deps/highwayhash/c/highwayhash.c:61-75 | the same for packets of bytes |
| `Highway.RoundIsABijection` | MoonGen/libmoon/deps/highwayhash/c/highwayhash.c:114-125 | a finalization round is a bijection too, although its lanes come from the state |
| `Highway.PortableZipIsZip` | MoonGen/libmoon/deps/highwayhash/highwayhash/hh_portable.h:189-199 | the sums of the C++ zipper merge equal the unions of the C one |
| `Highway.PortableUpdateIsUpdate` | MoonGen/libmoon/deps/highwayhash/highwayhash/hh_portable.h:204-223 | the portable C++ Update equals the C Update |
| `HighwayBytes.PadIsInjective` | MoonGen/libmoon/deps/highwayhash/c/highwayhash.c:87-112 | the padding of a remainder loses no byte, for equal lengths |
| `HighwayBytes.PrepareIsInjective` | MoonGen/libmoon/deps/highwayhash/c/highwayhash.c:77-97 | length injection and lane rotation lose nothing of the state |
| `HighwayBytes.Fits` | MoonGen/libmoon/deps/highwayhash/c/highwayhash.c:216-224 | bytes that do not fill the buffer only lengthen what is pending |
| `HighwayBytes.Fills` | MoonGen/libmoon/deps/highwayhash/c/highwayhash.c:224-228 | bytes that fill it make exactly one update with the full packet |
| `HighwayBytes.ProcessIsInjective` | MoonGen/libmoon/deps/highwayhash/c/highwayhash.c:172-180 | for a fixed message the whole absorption is injective in the state |
| `HighwayBytes.OnePacketMatters` | MoonGen/libmoon/deps/highwayhash/c/highwayhash.c:172-180 | messages that differ in exactly one packet end in different states, whatever follows it |
| `HighwayBytes.RemainderMatters` | MoonGen/libmoon/deps/highwayhash/c/highwayhash.c:87-112 | messages of equal length that differ only after the last full packet end in different states |
| `HighwayBytes.RoundsIsInjective` | MoonGen/libmoon/deps/highwayhash/c/highwayhash.c:134-168 | no number of finalization rounds merges two states |
| `HighwayCat.PadPacket` | MoonGen/libmoon/deps/highwayhash/c/highwayhash.c:87-111 | the packet built in place is the specified padding, and only bytes of the remainder are read |
| `HighwayCat.Remainder` | MoonGen/libmoon/deps/highwayhash/c/highwayhash.c:87-112 | the remainder step is the specified one |
| `HighwayCat.ProcessAll` | MoonGen/libmoon/deps/highwayhash/c/highwayhash.c:172-180 | the loop over full packets and the remainder computes the specified absorption |
| `HighwayCat.Cat.Append` | MoonGen/libmoon/deps/highwayhash/c/highwayhash.c:212-237 | appending bytes brings the appender to the state of the concatenation |
| `HighwayCat.Cat.Finish` | MoonGen/libmoon/deps/highwayhash/c/highwayhash.c:240-243 | the pending bytes are absorbed on a copy, which is then the state of the whole message |
| `HighwayCat.Cat.Finish64` | MoonGen/libmoon/deps/highwayhash/c/highwayhash.c:239-245 | the 64-bit hash of everything appended |
| `HighwayCat.Cat.Finish128` | MoonGen/libmoon/deps/highwayhash/c/highwayhash.c:247-253 | the 128-bit hash of everything appended |
| `HighwayCat.Cat.Finish256` | MoonGen/libmoon/deps/highwayhash/c/highwayhash.c:255-261 | the 256-bit hash of everything appended |
| `HighwayPortable.LoadedBefore` | MoonGen/libmoon/deps/highwayhash/highwayhash/load3.h:52-65 | the load of four bytes that may reach back before the remainder, copied to memory, gives those bytes |
| `HighwayPortable.LoadedUnordered` | MoonGen/libmoon/deps/highwayhash/highwayhash/load3.h:80-100 | the load of one to three bytes in the order 0, n/2, n-1 gives them and five zeros |
| `HighwayPortable.PortablePad` | MoonGen/libmoon/deps/highwayhash/highwayhash/hh_portable.h:73-92 | the packet built with these loads is the one the C form builds byte by byte |
| `HighwayPortable.PortableRemainder` | MoonGen/libmoon/deps/highwayhash/highwayhash/hh_portable.h:64-96 | the C++ remainder step is the C one |
| `HighwayPortable.PortableRoundsAreRounds` | MoonGen/libmoon/deps/highwayhash/highwayhash/hh_portable.h:250-254 | so are the finalization rounds |
| `HighwayPortable.PortableReduceIsReduce` | MoonGen/libmoon/deps/highwayhash/highwayhash/hh_portable.h:261-288 | and the modular reduction by two 128-bit shifts |
| `HighwayPortable.PortableFinalize256` | MoonGen/libmoon/deps/highwayhash/highwayhash/hh_portable.h:115-124 | and the 256-bit result made of two reductions |
| `HighwayCat.CatT.Append` | MoonGen/libmoon/deps/highwayhash/highwayhash/highwayhash.h:137-182 | the same for the C++ appender with the portable C++ update, which leaves its buffer unwritten when it flushes it |
| `HighwayCat.CatT.Absorbed` | MoonGen/libmoon/deps/highwayhash/highwayhash/highwayhash.h:187-193 | the same for the C++ appender and its own remainder step |
| `HighwayCat.CatT.Hash64` | MoonGen/libmoon/deps/highwayhash/highwayhash/highwayhash.h:187-196 | the 64-bit hash of everything appended, by the C++ finalization, is that of the C form |
| `HighwayCat.CatT.Hash128` | MoonGen/libmoon/deps/highwayhash/highwayhash/highwayhash.h:187-196 | the 128-bit hash of everything appended, by the C++ finalization, is that of the C form |
| `HighwayCat.CatT.Hash256` | MoonGen/libmoon/deps/highwayhash/highwayhash/highwayhash.h:187-196 | the 256-bit hash of everything appended, by the C++ finalization, is that of the C form |
| `HighwayCat.AllAgree` | MoonGen/libmoon/deps/highwayhash/highwayhash/highwayhash.h:97-196 | however a message is cut, the C and the C++ appender, each with its own code, end in the state of the one-shot form |
| `RateLimiter.FillIsExact` | MoonGen/src/crc-rate-limiter.c:83-127 | without a carry, filler bytes and the new carry are exactly the gap |
| `RateLimiter.Balance` | MoonGen/src/crc-rate-limiter.c:83-127 | filler bytes and new carry never exceed gap and old carry; the difference is at most the old carry, and nothing below 1538 |
| `RateLimiter.LossIsTheCarry` | MoonGen/src/crc-rate-limiter.c:90-119 | exactly the carry is lost on every gap that is cut if and only if the minimum size is at most 464 |
| `RateLimiter.FillerSizes` | MoonGen/src/crc-rate-limiter.c:104-114 | no filler exceeds 1538 bytes on the wire; none is below both the minimum and 769 |
| `RateLimiter.ShortFiller` | MoonGen/src/crc-rate-limiter.c:111-114 | for every minimum above 769 there are gaps whose first filler is shorter than the minimum |
| `RateLimiter.LoadKeepsItsOrder` | MoonGen/src/crc-rate-limiter.c:131-171 | for every minimum size the load goes out complete and in order |
| `RateLimiter.GapsAreKept` | MoonGen/src/crc-rate-limiter.c:131-171 | over a whole call the fillers never take more than was asked for, and fall short by less than the minimum size for each gap that was cut and by nothing for the others |
| `RateLimiter.Limiter.GetDelayPkt` | MoonGen/src/crc-rate-limiter.c:83-127 | one filler, or none and the gap is carried; the rest of the gap gets smaller |
| `RateLimiter.Limiter.Put` | MoonGen/src/crc-rate-limiter.c:154-160 | the 128-slot buffer never overflows and the frames keep their order |
| `RateLimiter.Limiter.FillGap` | MoonGen/src/crc-rate-limiter.c:145-161 | the fillers of one gap, with the 32-bit counters |
| `RateLimiter.Limiter.SendAll` | MoonGen/src/crc-rate-limiter.c:131-177 | everything is sent in order, nothing stays in the buffer, and the statistics count what was sent |
| `Profiler.PacketRoundTrip` | MoonGen/libmoon/deps/highwayhash/highwayhash/profiler.h:172-183 | offset and masked time stamp come back out of the packed word |
| `Profiler.Swapped` | MoonGen/libmoon/deps/highwayhash/highwayhash/profiler.h:406-419 | bringing an entry up to date and swapping it with its predecessor keeps one entry for each zone and the totals of a plain map |
| `Profiler.Appended` | MoonGen/libmoon/deps/highwayhash/highwayhash/profiler.h:421-427 | so does adding an entry for a new zone |
| `Profiler.Results.UpdateOrAdd` | MoonGen/libmoon/deps/highwayhash/highwayhash/profiler.h:352-428 | the self-organizing list agrees with a plain map of totals, except that a first zone with biased offset zero is not counted |
| `Profiler.Results.IndexOf` | MoonGen/libmoon/deps/highwayhash/highwayhash/profiler.h:407-408 | the search finds the entry of a zone behind the first, or shows that there is none |
| `Profiler.Results.Analyze` | MoonGen/libmoon/deps/highwayhash/highwayhash/profiler.h:268-296 | one packet changes stack and totals as specified |
| `Profiler.Results.AnalyzePackets` | MoonGen/libmoon/deps/highwayhash/highwayhash/profiler.h:265-298 | the loop computes the specified stack and totals |
| `ProfilerTimes.MatchesExit` | MoonGen/libmoon/deps/highwayhash/highwayhash/profiler.h:279-294 | with well-nested zones the masked time difference is the true duration and the self time is not clamped |
| `ProfilerTimes.SelfTimesAddUp` | MoonGen/libmoon/deps/highwayhash/highwayhash/profiler.h:265-298 | without overhead the self times of all zones add up to exactly the time spent in outermost zones |
| `ProfilerTimes.ThreadSpecific.Write` | MoonGen/libmoon/deps/highwayhash/highwayhash/profiler.h:532-558 | packets pass through buffer and storage in order, and neither overflows |
| `ProfilerTimes.ThreadSpecific.Flush` | MoonGen/libmoon/deps/highwayhash/highwayhash/profiler.h:537-540 | emptying the storage analyzes exactly what was in it |
| `ProfilerTimes.ThreadSpecific.AnalyzeRemaining` | MoonGen/libmoon/deps/highwayhash/highwayhash/profiler.h:510-527 | what is in the storage and then in the buffer is analyzed, in order; the storage is empty afterwards and the buffer as before; on the first call every packet written has then been analyzed once |
| `ProfilerTimes.ThreadSpecific.AnalyzeTwice` | MoonGen/libmoon/deps/highwayhash/highwayhash/profiler.h:510-527 | a second call leaves the results of the written packets followed by the buffered ones once more, which are those of the first if and only if nothing was ever written |
| `ProfilerTimes.PacketsLeaveTraces` | MoonGen/libmoon/deps/highwayhash/highwayhash/profiler.h:265-298 | analyzing packets changes stack or totals, unless there are none |
| `ProfilerTimes.OnePacketTwice` | MoonGen/libmoon/deps/highwayhash/highwayhash/profiler.h:510-527 | with one entry in the buffer the zone seems to be open twice after the second call |
| `ProfilerTimes.OneExitTwice` | MoonGen/libmoon/deps/highwayhash/highwayhash/profiler.h:279-283 | with one exit in the buffer that closed the outermost zone, the second call leaves the bounds of the stack |
| `Checksum.Sum16` | MoonGen/libmoon/src/util.c:68-87 | the result is the one's complement sum: congruent to the sum of the words modulo 65535, and zero only for all zeros; a last odd byte is padded |
| `Checksum.OneRepresentative` | MoonGen/libmoon/src/util.c:68-87 | there is only one such value |
| `Checksum.ByteOrderDoesNotMatter` | MoonGen/libmoon/src/util.c:68-87 | summing little-endian words gives the byte-swapped network-order sum (section 2 (B) of RFC 1071) |
| `Checksum.PsdLengthIsRight` | MoonGen/libmoon/src/util.c:31-42 | the length field is right if and only if the packet is at least as long as its header |
| `Checksum.PsdSumIsRight` | MoonGen/libmoon/src/util.c:43-53 | the sum folded from 32-bit lanes is the one's complement sum of the words put in if and only if the protocol is below 128 or the lanes add up without a carry, and one less otherwise |
| `Checksum.PseudoHeaderWords` | MoonGen/libmoon/src/util.c:30-53 | the words put in for a right length are those of the twelve bytes of the pseudo header |
| `Checksum.PseudoHeaderSum` | MoonGen/libmoon/src/util.c:30-53 | the result is the one's complement sum of the twelve bytes of the pseudo header if and only if the packet is at least as long as its header and the protocol is below 128 or the lanes add up without a carry |
| `Checksum.AllOnes` | MoonGen/libmoon/src/util.c:30-53 | protocol 255 between two addresses of all ones gives 0xfeff instead of 0xff00 |

## Left out

- Memory orders and fences: all shared accesses are sequentially consistent; what a weaker memory would add is not modelled.
- The explicit (token) producers, bulk enqueue and the exception paths of the MPMC queue.
- The sequential and the concurrent side of the block index are two models: `BlockIndex` has the elements and whole enqueues, `IndexRuns` the shared index, one access at a time, without the elements.
- BlockIndex.ImplicitProducer.Lookup: speaks of states between whole enqueues, because the states within one are those of IndexRuns.LookupsFind.
- BlockIndex.ImplicitProducer.NewBlockIndex: copies the entries, because that the headers share them is the business of IndexRuns.ThroughKept.
- Concurrency inside get_or_add_implicit_producer: each call is one atomic step, and thread-exit recycling is compiled out as it is without C++11 thread_local.
- Masking with a power of two less one, which is written as a remainder.
- A MAX_BLOCK_SIZE of 2^62 or more, for which the constructor's count of blocks could wrap.
- Element construction and destruction, alignment and allocation failure in the queue constructors.
- RunRanges, RunTasks, the destructor and spurious wake-ups of the thread pool, and pools of 2^30 threads or more; a sum that leaves the int range is taken to wrap around.
- The text of configuration lines: scanning into fields, host names, trace files, and the TOS value a flow gets; TOS lines are modelled only as far as they can fail.
- Floating point: the double arithmetic in send_cbr is modelled by exact arithmetic and a truncation.
- RUDE's sleeping and busy waiting before a transmission, signal handling and process priorities.
- HighwayHash's vector implementations, and machines that are not little-endian.
- Wrap-around of 64-bit durations, the sorting, merging and printing of profiler results, and the measurement of its overhead.
- The variant of the rate limiter that drops packets at random; it differs only in that choice and in its byte counter.
- The IPv6 pseudo header, which is one more call of the 16-bit sum.
- MoonGen's and libmoon's Lua code, the device drivers and DPDK.
