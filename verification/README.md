# np_alloc, verified

A Dafny model of the thread-caching allocator `np_alloc`, in the layers the
program has, and proofs that the layers hold together: from the tagged
lock-free stack, through the chunk manager and the per-thread pools, to the
statements about the whole allocator that no two blocks in use ever overlap, and
that what a client stores in its block is what it reads back.
`dafny verify dfyconfig.toml` checks everything.

## What is modelled

**The tagged stack** (`LfStack`, `LfStackTheorems`, `LfStackProgress`;
src/np_lf_stack.h). A transition system over any number of threads, each with a
program point and its private copies `curr` and `next`. One step is one access
to shared memory. The word `next` of a node is a word of memory which whoever
holds the node may overwrite with anything; `pop` may read it while somebody
else owns it. The main result is a forward simulation onto an atomic stack, from which ABA
freedom, the meaning of the tag and the snapshot taken by `for_each` follow.
A thread left alone in the middle of an operation completes it in a few accesses.
The stack's own code, run by one thread, is the class `SerialStack.LfStack`.

**The chunk manager** (`Mmap`, `MmapCounters`, `MmapTheorems`, `MmapTally`,
`MmapProgress`; src/np_mmap.h, src/np_mmap.cpp). The bump pointer with its
untagged CAS and the free stack under one machine, its step relation built from
the stack's. Results: every chunk is in exactly one place, the k-th bump yields
chunk k - 1, each statistics counter counts over every run just what its name
says. `SerialMmap.ChunkManager` is the class.

**Pools and blocks** (`Pool`, `Blocks`, `SizeClasses`, `SerialPool`;
src/np_alloc.cpp). What each operation of `tls_ps_pool` does to the pool's
fields and to memory; where slots lie; the header and fence bytes of a block;
the generated list of sizes and the lookup table. Memory is a function from
addresses to bytes, words are little-endian. `SerialPool.TlsPsPool` is the class
with the source's methods, proved against those functions.

**The whole allocator** (`Allocator` and the modules named after it). Any number
of threads run np_alloc and np_free over one byte memory, clients write into
their blocks, threads print the free stack, leave, walk their free lists and
hand their chunks back. Every link, every `pool_curr`, every header and every
fence is bytes of that one memory. A thread's work on its own pools is one step;
every access to the shared chunk manager is a step of its own. The grouping
loses nothing: no other thread touches a pool's fields, its free blocks, its
chunks' `pool_curr` or the block being handed over, and the one word at work
that another thread may read meanwhile, the first of a held chunk (a stale pop
does), is written at most once in each grouped step. `AllocatorInv` has the
invariant, `AllocatorAlloc`, `AllocatorCarve`, `AllocatorInstall`,
`AllocatorReturn`, `AllocatorSteps` and `AllocatorTally` show that each step
keeps it, `AllocatorRun` puts the steps together, and the conclusions for every
reachable state and every run are in `AllocatorTheorems`, `AllocatorBytes`
(nobody else writes a block in use; what is stored is read back),
`AllocatorBlocks` (routes, frames, damage), `AllocatorCounts`, `AllocatorPeak`,
`AllocatorChunks` (the manager's counters), `AllocatorStack` and
`AllocatorPrint` (np_debug_print), `AllocatorFaults`, `AllocatorProgress`,
`AllocatorLive`, `AllocatorLeave`, `AllocatorDrain`, `AllocatorGuard` and
`SerialSteps`. The state carries history that no step of the program reads:
`log`, which says of each carved block whether it is in use (and for which
request: its size, and the line, thread and file it came with) or who freed it
last, and each pool's `net` and `peak`, its counter without wrap-around and the
most it has been.

**The bit sets** (`Words`, `Bits`, `Bitset`; src/np_bitset.h). 64-bit words as
bit-vectors, proved to be sets of numbers; the two-level set of 4096 numbers
with its summary word; both iterators.

`Runs` has runs, reachability and simulation for any transition system. Where a
theorem is about the program's own numbers (offsets in a block, the fence bytes,
the chunk size, the route limit) it states them as numbers, not by the model's
names for them.

## Hypotheses

- Memory is sequentially consistent; a weak CAS may fail spuriously at any time.
- The stack's tag and the manager's statistics counters do not wrap (they are
  natural numbers). A pool's `allocated_` does wrap, at 2^64.
- Asserts are active. A failed assert, and the use of a null chunk, stop the
  thread (`Aborted`, `Crashed`); `AllocatorFaults.NeverFaults` says when that
  happens.
- `reserve` returns the base of a reservation of the full default size, or null.
  `MmapTheorems.InsideIffFullyReserved` shows that the smaller reservations of
  src/global_pool.h:20-27 are not enough: the bump path never looks at `size_`.
- Committing pages succeeds.
- LP64 layout: the block header is 24 bytes, 32 with alignment; a chunk's pool
  header is 16 bytes. In the whole allocator no request is so large that
  `bytes + 64` wraps; `Blocks.HoldsUnlessWrapped` says what happens otherwise.
- Clients free only blocks in use and write only the bytes they asked for.
- A thread leaves only when no block ever carved from its chunks is in use, or
  on a free list that another thread may still walk (`Allocator.MayExit`;
  `AllocatorProgress.GuardOnCalls` says the same of who freed what). The source
  does not check this. `AllocatorGuard.GuardIsExact` shows that the guard asks
  for no more than it must.
- Shifts in the size generator do not overflow `int`; with the shipped constants
  they stay far below.

## Model

| member | source | states |
|---|---|---|
| LfStack.Linearizable | src/np_lf_stack.h:47-86 | every run of any threads, with holders overwriting `next` at will, has the calls and returns of a run of an atomic stack in which each push, pop and take-all acts in one instant; a null pop acts on an empty stack |
| LfStack.StepSim | src/np_lf_stack.h:47-86 | each access to shared memory is no step or exactly one step of the atomic stack, and keeps the relation between them: the chain in memory is the stack, every node is in one place, an equal tag means an unchanged head and successor |
| LfStackTheorems.AbaFree | src/np_lf_stack.h:48-55 | whenever a pop's CAS can succeed, its possibly stale `next.ptr` is the successor of the head at that instant |
| LfStackTheorems.TagIsNeeded | src/np_lf_stack.h:51-52 | a concrete run after which the head again holds the pointer that a pop is about to compare, while the `next` it read is a node another caller holds: comparing pointers alone would put that node in the stack |
| LfStackTheorems.PopReadsANode | src/np_lf_stack.h:53 | the node whose `next` a pop reads exists, though another thread may own it |
| LfStackTheorems.PushWritesItsOwnNode | src/np_lf_stack.h:62 | a push stores into a node that exists and that no caller holds |
| LfStackTheorems.TagCountsSuccesses | src/np_lf_stack.h:47-86 | over every run the tag has grown by the number of CASes that succeeded |
| LfStackTheorems.FailureMeansProgress | src/np_lf_stack.h:55-65 | a CAS fails other than spuriously only if another CAS succeeded since this thread's load |
| LfStackTheorems.ForEachVisitsASnapshot | src/np_lf_stack.h:68-86 | under any interference, for_each visits each node of the stack as it was at one instant of the call, once and in order |
| LfStackTheorems.NothingLost | src/np_lf_stack.h:47-86 | when all threads are idle and hold nothing, the stack holds every node ever introduced exactly once |
| LfStackProgress.PopAlone | src/np_lf_stack.h:47-58 | from every reachable state a thread inside pop, whatever stale copies it has, gets the top of the stack as it is now in at most four accesses of its own; and null exactly if it is empty |
| LfStackProgress.PushAlone | src/np_lf_stack.h:59-66 | likewise a thread inside push has its node on top in at most four accesses, with one link written and the tag up by one |
| LfStackProgress.WalkAlone | src/np_lf_stack.h:74-85 | a walk of for_each ends in at most five accesses for each node still to visit |
| LfStackProgress.CompletesAlone | src/np_lf_stack.h:47-86 | from every reachable state any thread inside any operation completes it by its own accesses, whatever the others are in the middle of: the retry loops reload what they compare |
| SerialStack.LfStack.Pop | src/np_lf_stack.h:47-58 | the CAS loop returns the first item and leaves the rest, or null on an empty stack; the tag grows by one if anything was taken, however often the weak CAS failed |
| SerialStack.LfStack.Push | src/np_lf_stack.h:59-66 | the CAS loop puts the node first, writes only its link, and adds one to the tag |
| SerialStack.LfStack.ForEach | src/np_lf_stack.h:68-86 | without interference every node is visited once in order and the stack ends up exactly reversed; only links of its nodes are written |
| SerialStack.LfStack.CountFreeList | src/np_lf_stack.h:88-94 | the count is the length |
| SerialStack.ReversedTwice | src/np_lf_stack.h:79-85 | two walks restore the order |
| MmapCounters.InvStep | src/np_mmap.h:49-75 | every step of every thread keeps the manager's invariant: stack relation, chunks introduced are those below the bump pointer, holders, counters |
| MmapTheorems.Partition | src/np_mmap.h:49-75 | every chunk below the bump pointer is free, held by one caller, or in one thread's operation (a detached for_each chain included), and in just one of these |
| MmapTheorems.OnlyChunks | src/np_mmap.cpp:140-162 | whatever is free, held or in transit is a chunk below the bump pointer, inside the reservation |
| MmapTheorems.KthBump | src/np_mmap.cpp:142-151 | the k-th successful bump of any run, k at most 4096, takes the chunk at base + (k - 1) * 1 MiB, whose index is k - 1 |
| MmapTheorems.NoChunkBumpedTwice | src/np_mmap.cpp:142-151 | no two successful bumps of a run take the same chunk |
| MmapTheorems.HeadCountsBumps | src/np_mmap.cpp:142-151 | over every run `head_` is the base plus 1 MiB for each bump: it only grows, so the untagged CAS has no ABA |
| MmapTheorems.BumpIsNew | src/np_mmap.cpp:142-151 | a bump that can succeed brings a chunk never seen before |
| MmapTheorems.FreeMayPush | src/np_mmap.h:66-68 | a held chunk may always be pushed by its holder |
| MmapTheorems.IndexRoundTrip | src/np_mmap.h:77-98 | get_chunk_index and get_chunk_ptr are inverses on the reservation, in 64-bit arithmetic; of all 64-bit addresses exactly those off the chunk grid of the base have index -1, and exactly the chunks of the reservation and its end have an index that passes the assert |
| MmapTally.CountersCount | src/np_mmap.h:49-75 | over every run: perf_alloc_from_free is the pops that took a chunk, perf_dealloc the pushes that took effect, perf_alloc the bumps, each less the threads that have done it and not yet counted it; and the chunks got and frees finished are what has been counted less what has not yet returned |
| MmapTally.CountersBalance | src/np_mmap.h:49-75 | when no call is under way each counter is to the unit what its name says, perf_dealloc also the free_chunk calls that returned and perf_alloc + perf_alloc_from_free the chunks returned; perf_alloc is the chunks reserved, the free stack's length is perf_dealloc - perf_alloc_from_free, and the rest are held |
| MmapProgress.CallsComplete | src/np_mmap.h:49-75 | from every reachable state any thread inside alloc_chunk, free_chunk or count_free_list completes it by its own steps, the bump loop included |
| MmapProgress.AllocAlone | src/np_mmap.cpp:140-162 | alloc_chunk ends in at most eight steps of its own: a chunk, null, or the failed assert |
| MmapTheorems.InsideIffFullyReserved | src/np_mmap.h:83-97 | all chunks ever handed out stay inside a reservation of `size` bytes, in every run, if and only if the full default size, 4 GiB, was reserved |
| SerialMmap.ChunkManager.AllocChunk | src/np_mmap.h:49-62 | the last chunk freed if any, else the next unused one; null exactly without a reservation, assert failure exactly at its end; perf_alloc_from_free goes up by one exactly for a chunk off the free stack, perf_alloc for a new one, perf_dealloc never; the two-way split of the chunks is kept |
| SerialMmap.ChunkManager.AllocChunkFromNew | src/np_mmap.cpp:140-162 | the CAS loop returns the old bump pointer, advances it by one chunk and counts one in perf_alloc, or fails as above and counts nothing |
| SerialMmap.ChunkManager.FreeChunk | src/np_mmap.h:66-75 | the chunk becomes the first free one, perf_dealloc goes up by one and no other counter changes; only its link is written |
| Memory.WriteSpec | src/np_alloc.cpp:274-292 | a number stored little-endian is read back and no other byte changes |
| Memory.EightBytes | src/np_alloc.cpp:274-292 | a word is its eight bytes, the lowest first, each with its weight |
| Memory.HalfWordSpec | src/np_alloc.cpp:276-281 | of a number stored in a uint16_t the low 16 bits are read back, and no other byte changes |
| SizeClasses.GetAllocSizeList | src/np_alloc.cpp:364-382 | for every limit the nested unbounded loop ends, with the list of the closed form up to the first size that reaches the limit |
| SizeClasses.GeneratedSizes | src/np_alloc.cpp:364-382 | for every limit the list is strictly increasing and all sizes are multiples of 64 |
| SizeClasses.WasteBound | src/np_alloc.cpp:370-378 | a covered size n above 256 gets a class c with 4 * (c - n) < n |
| SizeClasses.ShippedList | src/np_alloc.cpp:364-382 | with the shipped constants there are 25 classes, at most the asserted 32, the last 8256 |
| SizeClasses.BuildTable | src/np_alloc.cpp:335-358 | for every strictly increasing list the double loop ends, fills max + 1 entries, and entry n is the least class that fits n |
| SizeClasses.InitTable | src/np_alloc.cpp:335-358 | with the shipped list the table gives for each size up to 8256 the class that the model uses |
| SizeClasses.TableGivesClass | src/np_alloc.cpp:266-267 | the least index that fits names the class of the model |
| SizeClasses.AlignedIsLeastMultiple | src/np_alloc.cpp:228-230 | for every size and every alignment above 0, calc_aligned_size is the least multiple of the alignment that fits (the sum taken not to wrap) |
| SizeClasses.HeaderIsAligned | src/np_alloc.cpp:220-230 | the 24-byte header takes 32 bytes |
| Blocks.StampIsAs | src/np_alloc.cpp:274-292 | after the stores of alloc into the block at a: size at a, the low 16 bits of the line at a + 8 and of the thread's hash at a + 10, file at a + 16, the sixteen fence bytes at a + 32 and at a + 48 + size; every other byte of memory, padding and the caller's own included, is as before |
| Blocks.FencesAreBytes | src/np_alloc.cpp:232-237 | the four asserts of dealloc hold exactly if the sixteen literal bytes stand at a + 32 and again at a + 48 + size |
| Blocks.DamageShows | src/np_alloc.cpp:302-316 | with the size still in the header, the asserts of dealloc hold if and only if all 32 bytes around the caller's own are as alloc left them, whatever else has changed |
| Blocks.FrameKept | src/np_alloc.cpp:302-316 | a block's header and fences depend only on the bytes before and after the caller's own |
| Blocks.RouteOfRequest | src/np_alloc.cpp:257-272 | for every request with bytes + 64 below 2^64 the way taken is the pool of the least of the shipped classes that is at least bytes + 64 if bytes is at most 8192, else malloc of bytes + 64; this way and no other |
| Blocks.RoutingRoundTrip | src/np_alloc.cpp:257-323 | for every such request dealloc finds the same block, 48 bytes before the pointer, and that same way back; the block has room for the request |
| Blocks.HoldsUnlessWrapped | src/np_alloc.cpp:257-272 | of all 64-bit request sizes, the block chosen by the wrapping sum holds the request if and only if the sum does not wrap; if it does, the block is of class 64 |
| SizeClasses.ClassIsLeast | src/np_alloc.cpp:266-267 | the class of a size is the least of the shipped classes that fits it, and no other |
| Pool.FreeCountIs | src/np_alloc.cpp:157-163 | with pool_curr at slot k, get_free_count is the number of slots left |
| Pool.RoomIffNextFits | src/np_alloc.cpp:157-171 | get_free_count is zero just when the next slot would pass the end of the chunk |
| Pool.SlotInside | src/np_alloc.cpp:147-177 | a slot below the capacity lies in its chunk, past the pool header |
| Pool.SlotNumbers | src/np_alloc.cpp:147-177 | the i-th block of the chunk at p is at p + 16 + i * class, there are (1 MiB - 16) / class of them, and a block ends inside the chunk exactly if it is one of these |
| SerialPool.TlsPsPool.GetFreeCount | src/np_alloc.cpp:157-163 | with pool_curr at slot k, returns the number of slots left, Cap - k; for any memory, the model's count with the pointer difference signed |
| SerialPool.TlsPsPool.Alloc | src/np_alloc.cpp:115-132 | serves from the free list, else the current chunk, else a new one; fails exactly when all three have nothing, changing nothing; else new fields, memory, both lists and held chunks are those of the model's functions |
| SerialPool.TlsPsPool.AllocFromLocalPool | src/np_alloc.cpp:165-171 | carves at pool_curr, after getting a chunk if there is no room; fails exactly when there is neither room nor a chunk |
| SerialPool.TlsPsPool.AllocFromGlobal | src/np_alloc.cpp:173-180 | the new chunk, nobody's before, heads the chunk list, with pool_curr after its header; fails exactly when the manager is exhausted, changing nothing |
| SerialPool.TlsPsPool.Dealloc | src/np_alloc.cpp:134-145 | the block heads the free list, the counter goes down, only the block's first word is written |
| SerialPool.TlsPsPool.Deinit | src/np_alloc.cpp:182-207 | counts the free list, then hands each chunk back exactly once, reading each link before the push overwrites it; the manager's free stack gains exactly those chunks |
| SerialPool.StampBlock | src/np_alloc.cpp:274-294 | the stores leave each byte of the frame as `StampIsAs` says, at its offset, and every other byte of memory as before; the pointer returned is b + 48 |
| SerialPool.InspectBlock | src/np_alloc.cpp:297-323 | for every memory and pointer u: the block is at u - 48, the fences are found whole exactly if the sixteen fence bytes stand at u - 16 and at u + size, and the route is the least class that fits, or malloc above 8192 bytes; of a framed block all is as alloc had it |
| SerialPool.RoundTrip | src/np_alloc.cpp:257-323 | the two together, for every request whose sum does not wrap: whole fences, the route of its size both ways, room for the request |
| SerialSteps.AllocLocalIsSerial | src/np_alloc.cpp:115-132 | an alloc step of the machine is one run of the pool's alloc followed by the stamping |
| SerialSteps.AllocNewIsSerial | src/np_alloc.cpp:165-180 | so is an alloc that waited for a chunk, whatever other threads did meanwhile |
| AllocatorAlloc.TakeFreeLocal | src/np_alloc.cpp:117-121 | taking a block from the free list and stamping it keeps the pools' part of the invariant; no word at the start of any chunk changes |
| AllocatorAlloc.GiveBackLocal | src/np_alloc.cpp:134-145 | so does giving a block in use back, whichever thread allocated it |
| AllocatorCarve.CarveLocal | src/np_alloc.cpp:165-171 | so does carving the next slot; the slot is new, and no chunk's link changes |
| AllocatorInstall.InstallLocal | src/np_alloc.cpp:173-180 | so does installing a chunk nobody held; afterwards its first slot can be carved |
| AllocatorReturn.ReturnLocal | src/np_alloc.cpp:202-206 | so does handing back the head chunk of a leaving thread's pool: no list still in use has a block in it |
| AllocatorRun.EveryLabelKeeps | src/np_alloc.cpp:115-324 | every step of every kind keeps the invariant of the whole allocator |
| AllocatorTheorems.NoOverlap | src/np_alloc.cpp:115-180 | over every run of all threads and classes, with cross-thread frees, two blocks in use never overlap |
| AllocatorTheorems.InsideOneChunk | src/np_alloc.cpp:165-180 | every block in use lies in one held chunk, past its 16-byte header, inside the reservation |
| AllocatorTheorems.DisjointFromLinks | src/np_alloc.cpp:134-145 | no block in use overlaps the link of a freed block |
| AllocatorTheorems.DisjointFromHeaders | src/np_alloc.cpp:147-180 | nor the header of any chunk, held, free or in transit |
| AllocatorTheorems.UserPointersAligned | src/np_alloc.cpp:257-294 | if the base is 64-aligned every pointer ever given out is |
| AllocatorTheorems.PoolCurrStaysInside | src/np_alloc.cpp:147-180 | every held chunk is on a list of its holder, and its pool_curr is header + k * class, at most the chunk's end |
| AllocatorTheorems.FramesHold | src/np_alloc.cpp:274-316 | in every reachable state every block in use has at its offsets the size, line, thread and file of the request it answers, and the sixteen fence bytes on each side of the caller's own |
| AllocatorBytes.NobodyElseWrites | src/np_alloc.cpp:115-324 | in every reachable state no step of any thread changes any byte of a block in use, from its header to its far fence, or ends its use, except a client's write into it and its own free |
| AllocatorBytes.ReadsBack | src/np_alloc.cpp:257-324 | over every run of all threads, what a client stores in a byte of its block is what is there until the next store into that byte or the free of the block |
| AllocatorBytes.ClientsWrite | src/np_alloc.cpp:257-294 | every idle thread may write each byte asked for, the i-th at b + 48 + i, and that write changes no other byte |
| AllocatorBlocks.LocalRoute | src/np_alloc.cpp:115-132 | a request served at once changes one pool only, the caller's of the least class that fits bytes + 64, whose counter goes up by one; the block it hands out was not in use and is framed for the request |
| AllocatorBlocks.FetchRoute | src/np_alloc.cpp:165-171 | a request that waits for a chunk waits for that class, with all it asked for |
| AllocatorBlocks.ArrivalRoute | src/np_alloc.cpp:165-180 | and when the chunk arrives it is served likewise |
| AllocatorBlocks.FreeRoute | src/np_alloc.cpp:297-324 | a free by any thread changes one pool only, the freeing thread's of the least class that fits what was asked for; the block 48 bytes before the pointer becomes the first of its list, linked to the former first, and its counter goes down by one |
| AllocatorBlocks.DamageIsCaught | src/np_alloc.cpp:302-316 | from every reachable state, whatever memory has become except the size in the header: a free of a block in use can run, and it ends in the failed assert, changing nothing, if and only if one of the 32 fence bytes differs from what it was |
| AllocatorTheorems.FreeNeverFails | src/np_alloc.cpp:297-323 | a free by any thread passes all asserts and puts the block on that thread's free list of the class it was allocated for |
| AllocatorTheorems.GlobalPartition | src/np_alloc.cpp:173-207 | every chunk below the bump pointer is in exactly one place: free stack, one pool's chunk list, or one thread's operation |
| AllocatorChunks.GlobalCountersCount | src/np_mmap.h:49-75 | over every run of the whole allocator the manager's three counters are the pops, pushes and bumps that took effect, less those not yet counted, and the chunks got and returned |
| AllocatorChunks.GlobalCountersBalance | src/np_mmap.h:49-75 | with no thread inside the manager each counter is to the unit what has happened in the run; perf_alloc is the chunks reserved, the free stack's length is perf_dealloc - perf_alloc_from_free, and the rest are exactly the chunks on the pools' lists |
| AllocatorStack.PrintedIsALength | src/np_mmap.h:114-116 | in every run of the whole allocator, the count that np_debug_print reports is the length that the free stack in memory had at one instant between that thread's call and its return |
| AllocatorStack.PrintedAlone | src/np_mmap.h:114-116 | if no other thread moves meanwhile, it is the length when it was called, whatever the others are in the middle of |
| AllocatorPrint.PrintServed | src/np_lf_stack.h:68-94 | from every reachable state an idle thread's own steps complete a print: every chunk of the free stack is visited in order and counted, the stack is left reversed, its links the only bytes that changed, and nothing else is different |
| AllocatorTheorems.ExitedHoldsNothing | src/np_alloc.cpp:182-207 | a thread that has left holds no chunk |
| AllocatorTheorems.FreedOnOneList | src/np_alloc.cpp:134-145 | a freed block is on the free list of the thread that freed it last, of the class whose chunk it lies in, and on no other list that any thread may still walk |
| AllocatorTheorems.LiveIsNotListed | src/np_alloc.cpp:115-145 | no block in use is on a free list that any thread, running or leaving, may still walk |
| AllocatorCounts.CountersCountLiveBlocks | src/np_alloc.cpp:115-145 | the counters `allocated_` of a class, summed over all threads, are the class's blocks in use modulo 2^64, whoever frees what |
| AllocatorPeak.HighWaterMark | src/np_alloc.cpp:115-180 | a running pool has carved exactly as many blocks as its counter ever reached, holds ceil(peak / capacity) chunks, and carved = counter + length of a free list without duplicates |
| AllocatorPeak.PeakIsMaximum | src/np_alloc.cpp:115-145 | over every run `peak` is the maximum of the pool's unwrapped counter |
| AllocatorFaults.NeverFaults | src/np_mmap.h:77-98 | with a reservation no thread crashes, and the index asserts fail only when all 4096 chunks have been handed out |
| AllocatorProgress.RequestServed | src/np_alloc.cpp:257-294 | from every reachable state a request of a pool size by an idle thread can be answered by the steps of that request, with a new block of the requested size, if and only if its pool has a block to give or the manager a chunk; otherwise it runs into the null chunk or the failing assert, and no way through it hands out a block |
| AllocatorProgress.FreeServed | src/np_alloc.cpp:297-324 | in every reachable state any idle thread can free any block in use |
| AllocatorProgress.GuardOnCalls | src/np_alloc.cpp:182-207 | the clients' guard for leaving, which speaks of the lists in memory, holds exactly when each slot carved from the thread's chunks was freed, last by itself or by a thread past its list of that class |
| AllocatorProgress.WalkEnds | src/np_alloc.cpp:190-195 | when a leaving thread walks a free list to count it, the list ends, repeats nothing, and holds exactly the blocks of the class that the thread freed last, wherever they lie; the count it comes to is their number |
| AllocatorProgress.ReturnsItsOwn | src/np_alloc.cpp:202-206 | what deinit hands to free_chunk is a chunk its thread holds |
| AllocatorLive.NeverBlocked | src/np_alloc.cpp:115-324 | in every reachable state every thread inside the allocator that has not failed an assert can take its next step, whatever the others do: the list walks end, and what a push stores is what it reads back |
| AllocatorLeave.DepartureServed | src/np_alloc.cpp:182-207 | from every reachable state an idle thread that may leave does so by its own steps, whatever the others are in the middle of: it ends gone, the chunks it held are on the free stack, each once, above what was there, and no other pool, thread or block changed |
| AllocatorDrain.CountersOf | src/np_alloc.cpp:115-171 | a running pool's history tells its lists: the free list is empty exactly when the counter is at its peak, the current chunk has room exactly when the peak is no multiple of the capacity |
| AllocatorDrain.Drains | src/np_alloc.cpp:115-171 | from every reachable state an idle thread can take all blocks its pools have, until each would need a chunk, and nobody else's change |
| AllocatorGuard.OnceUnderGuard | src/np_alloc.cpp:115-207 | under the guard, over every run of every machine, a block has been handed out exactly once since its last free if it is in use, and not at all if it is not; each hand-out is counted, whatever the history says |
| AllocatorGuard.LeavesInUse | src/np_alloc.cpp:182-207 | from every reachable state: if an idle thread leaves while one of its chunks has a block in use, or on the list of another idle thread, some run that keeps all other rules hands that block out twice with no free in between |
| AllocatorGuard.GuardIsExact | src/np_alloc.cpp:182-207 | with every thread outside the allocator or gone, and one other idle, leaving is allowed by the guard if and only if no later run hands any block out twice with no free in between |
| AllocatorGuard.GuardIsNeeded | src/np_alloc.cpp:182-207 | without the guard, from every initial state with a reservation and two threads, some run hands a block out twice with no free in between |
| AllocatorGuard.AMachine | src/np_mmap.h:126-135 | there is an initial state for every set of threads and every base that fits |
| Words.SetBit | src/np_bitset.h:50 | or-ing with 1 << (63 - pos) adds one position |
| Words.ClearBit | src/np_bitset.h:51 | and-ing with its complement removes it |
| Words.CutBits | src/np_bitset.h:68 | shifting left and back cuts off the positions before |
| Bits.ClzIsFirst | src/np_common.h:65 | clz is the least position, or 64 |
| Bits.PopcntCounts | src/np_common.h:68 | popcnt is the number of positions |
| Bitset.Bitset64.GetFirst | src/np_bitset.h:48 | the least member, or 64 |
| Bitset.Bitset64.Get | src/np_bitset.h:49 | membership |
| Bitset.Bitset64.Set | src/np_bitset.h:50 | adds one member |
| Bitset.Bitset64.Clear | src/np_bitset.h:51 | removes one member; true exactly if the set is then empty |
| Bitset.Bitset64.Count | src/np_bitset.h:53 | the number of members |
| Bitset.Iterator64.Next | src/np_bitset.h:65-71 | moves to the least member above the position, or to the end |
| Bitset.Bitset4096.GetFirst | src/np_bitset.h:127-132 | the least member of the two-level set, or 4096 |
| Bitset.Bitset4096.Get | src/np_bitset.h:133-136 | membership |
| Bitset.Bitset4096.Set | src/np_bitset.h:137-141 | adds one member and keeps: summary bit i is set just when word i is not zero |
| Bitset.Bitset4096.Clear | src/np_bitset.h:142-147 | removes one member, keeps the summary; true exactly if the whole set is then empty |
| Bitset.Bitset4096.Count | src/np_bitset.h:149-155 | the loop adds up to the number of members |
| Bitset.Bitset4096.SetAll | src/np_bitset.h:156-161 | all 4096 numbers, with the summary |
| Bitset.Bitset4096.ClearAll | src/np_bitset.h:162-167 | the empty set, with the summary |
| Bitset.Iterator4096.Next | src/np_bitset.h:180-190 | scans to the least member above the position, or to the end |
| Bitset.Sweep64 | src/np_bitset.h:58-91 | from begin to end, `*it` is true at each member once, in increasing order, count() times |
| Bitset.Sweep4096 | src/np_bitset.h:171-204 | the same for the two-level set |

## Left out

- C++ memory orders and hardware 128-bit CAS: every access is sequentially consistent and atomic.
- System calls, page commit failures and the hint addresses of `reserve`.
- `malloc` and `free` for requests above 8256 bytes in total, beyond the choice to use them.
- Bit sets of sizes other than 64 and 4096; `bitset<4096>::get`, `set` and `clear` at position 4096, which pass the assert of src/np_bitset.h:119-125 but lie outside the array; iterators moved past their end.
- `debug_free_list`, console output, `debug_as_string`, `validate_ptr`, how a thread's id is hashed (the hash is a parameter) and singleton publication in `get_global_pool`.
- src/np_thread.cpp and process shutdown: a thread leaves by a step of its own, and the global pool outlives all threads.
- SerialPool.TlsPsPool.Dealloc: asks that the block lies in a held chunk and overlaps no listed block; that callers meet this is what AllocatorTheorems.FreedOnOneList and AllocatorTheorems.LiveIsNotListed show over all runs.
- The vendored test framework, benchmarks and platform shims.
