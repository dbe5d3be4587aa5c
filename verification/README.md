# RenderX: allocators, protocols and state machines, verified

RenderX is an explicit multi-queue GPU abstraction. This project models the parts of its Vulkan
backend, its validation layer and its logger that have an invariant of their own, and proves what
they promise over every input, every run and every interleaving. Vulkan appears as a small abstract
device: timeline counters, byte memory, descriptor memory and fresh buffer handles.

| file | component |
|---|---|
| `TimelineQueue.dfy` | command queues, timeline semaphores, host and GPU as interleaved steps |
| `TimelineWaits.dfy` | what a submission waits for, in terms of the request |
| `TimelineStall.dfy` | when the GPU comes to rest with work left |
| `CircularQueue.dfy` | the logger's ring buffer |
| `BlockingQueue.dfy` | the blocking queue: lock, sleep, change, unlock and notify as separate steps |
| `QueueAccounts.dfy` | what becomes of every item given to the queue |
| `ThreadPool.dfy` | the worker pool over that queue, its shutdown included |
| `PoolAccounts.dfy` | what becomes of every message posted to the pool |
| `StagingAllocator.dfy` | staging chunks and their life cycle against submission ids |
| `LoadUploader.dfy` | the batched upload |
| `ResourcePool.dfy`, `Words.dfy` | generational handles and their keyed encoding; bit operations on words |
| `DescriptorArena.dfy` | LINEAR and POOL sub-allocation of descriptor sets |
| `DescriptorWrites.dfy` | batched descriptor writes |
| `CommandValidator.dfy` | the validation layer: registration, categories, command lists |
| `CommandTraces.dfy` | what a legal trace of calls is, and when the layer's verdict agrees |
| `CommandReports.dfy`, `CommandWarnings.dfy` | every message the layer gives, in terms of the calls made |
| `CommandSwitching.dfy` | switching categories in the middle of a run |
| `RateLimitedSink.dfy` | the rate-limited log sink |
| `BufferViewCache.dfy` | the buffer-view cache and its hash |
| `Common.dfy` | alignment, remainders, counting in finite sets |

The form is the same throughout. A function says what one call does to a value that holds the whole
state; a class with the fields of the C++ class has one method for each C++ method, and each method's
postcondition ties its new state to that function; lemmas then prove what holds over runs. Conditions
that RenderX asserts are preconditions. 32-bit and 64-bit wrap-around is written out wherever a value
can reach it.

`dafny verify dfyconfig.toml` checks everything.

## What the code does that its documentation does not say

The model follows the code in each of these places, and a lemma states the consequence.

- `Poll` compares strictly, so it misses the value the counter stands at: `TimelineQueue.PollIsRightExcept`
  gives the exact condition, and the newest submission of a queue is never reported.
- Nothing keeps a caller from waiting for a value not submitted yet, or from dependencies in a circle:
  `TimelineStall.StallsExactly` says that these are exactly the ways for the GPU to stop with work left, and
  `TimelineStall.CircleStalls` and `TimelineStall.UnsubmittedStalls` are a run for each.
- With the overrun policy a client can overrun a terminate message, and the destructor then waits for ever; so it
  does when the queue has no room at all. `ThreadPool.LosesExactly` and `ThreadPool.ReturnsExactly` say for which
  policies and sizes this can happen, whatever the number of workers. RenderX uses the block policy:
  `ThreadPool.ReachedByBlocking`.
- `retire` resets a copy of the chunk. A recycled chunk goes on where it stopped and can be handed out
  with no room left: `StagingAllocator.WhenInBounds` says exactly when a range is inside its buffer.
- A chunk that an allocation replaces before any `submit` is in no list, and its memory is never handed out
  again; no other step loses one: `StagingAllocator.LostMeansReplaced`, `StagingAllocator.LostForever`.
- A freed handle stays alive, and finds an empty resource, until its slot is reused, so it can be freed again.
  `ResourcePool.FreeIsCleanExactly` says which frees do no harm, and `ResourcePool.UncleanFreeKills` what comes
  of the others; slot 0 answers to a handle never issued: `ResourcePool.SlotZeroIsNeverVisited`.
- Resetting a LINEAR descriptor pool stores the absolute base offset in a pointer that is relative to it:
  `DescriptorArena.ResetReplaysExactly` says for which bases the offsets repeat, and
  `DescriptorArena.CapacityAfterReset` how many sets still fit.
- The batch ignores sampler writes, which the single-write routine performs:
  `DescriptorWrites.BatchAgreesExactly`.
- The validator looks up handles in tables that other categories fill. With handle checks on and resource
  checks off it reports legal calls: `CommandTraces.AlarmsExactly`. Categories switched in the middle of a run can
  do so too: `CommandSwitching.SwitchingExactly` says which ones.
- The view cache compares hashes only, and every buffer has pairs of views with one hash, accepted once the buffer
  is some 16 GB larger than the first: `BufferViewCache.EveryBufferCollides`, `BufferViewCache.CollisionIsAccepted`.
  It stores offset and range in 32 bits: `BufferViewCache.FoundViewIsRequested`.
- Destroying a view leaves its cache entry, and the same description goes on getting the old handle:
  `BufferViewCache.FindsOwnViewExactly` says when a request finds its view. A caller that then destroys what it was
  given frees a slot twice: `BufferViewCache.SecondDestroyBreaksThePool`.

## Model

| member | source | states |
|---|---|---|
| TimelineQueue.CommandQueue.AddWait2 | src/Vulkan/VK_Queue.cpp:140-149 | appends one wait to the shared array and leaves the earlier ones alone |
| TimelineQueue.CommandQueue.AddSignal2 | src/Vulkan/VK_Queue.cpp:151-161 | appends one signal |
| TimelineQueue.CommandQueue.Submit | src/Vulkan/VK_Queue.cpp:37-88 | takes the next value, waits for the dependencies in order and then for the swapchain image, signals its own value first, and enqueues exactly that submission; the cached completed value is untouched; the queue and device then show the state after the submit step of the interleaved model |
| TimelineQueue.CommandQueue.SubmitList | src/Vulkan/VK_Queue.cpp:107-129 | takes the next value and enqueues a submission that waits for nothing, which is that same step with no dependencies |
| TimelineQueue.CommandQueue.Poll | src/Vulkan/VK_Queue.cpp:181-187 | false for 0 and for values not submitted, with the cache untouched; otherwise caches the counter; the answer is true if and only if the value is done and is not the one the counter stands at |
| TimelineQueue.CommandQueue.Completed | src/Vulkan/VK_Queue.cpp:189-192 | caches and returns the counter; exactly the values from 1 to the one returned are done |
| TimelineQueue.CommandQueue.Wait | src/Vulkan/VK_Queue.cpp:163-170 | success if and only if a wait can return in the interleaved model, that is, the value is 0 or its submission has finished |
| TimelineQueue.FinishCountsByOne | src/Vulkan/VK_Queue.cpp:59-64 | each queue's counter takes 1, 2, 3, ... in order, whatever VkQueues are shared |
| TimelineQueue.RunKeepsInv | src/Vulkan/VK_Queue.cpp:37-192 | in every state of every interleaving: values are numbered in submission order, completed <= counter <= submitted, a counter stands exactly at its newest finished submission, and nothing starts before its waits |
| TimelineQueue.TransitiveCompletion | src/Vulkan/VK_Queue.cpp:43-64 | when a submission has finished, so has everything on any chain of dependencies from it |
| TimelineQueue.ReportedMeansComplete | src/Vulkan/VK_Queue.cpp:163-192 | whatever `Wait`, `WaitIdle`, `Poll` or `Completed` reports after any run is a real submission that has finished, with all earlier ones and everything they transitively wait for |
| TimelineQueue.DoneUpToCounter | src/Vulkan/VK_Queue.cpp:163-192 | a value is done if and only if it lies between 1 and the counter |
| TimelineQueue.PollIsRightExcept | src/Vulkan/VK_Queue.cpp:181-187 | `Poll` tells the truth if and only if the value is 0 or is not the one the counter stands at |
| TimelineQueue.PollNeverReportsNewest | src/Vulkan/VK_Queue.cpp:186 | the newest submission is never reported as done |
| TimelineQueue.PollMissesFinishedSubmission | src/Vulkan/VK_Queue.cpp:186 | a run from the initial state after which value 1 is done and `Poll` denies it |
| TimelineQueue.UnfinishedWorkCanMove | src/Vulkan/VK_Device.cpp:328-332 | with dependencies on handed-out values only, any unfinished work means an enabled GPU step, even when command queues alias one VkQueue |
| TimelineQueue.GpuWorkIsConserved | src/Vulkan/VK_Queue.cpp:37-129 | each submission costs the GPU exactly two steps, done or left, in every run |
| TimelineQueue.EverySubmissionFinishes | src/Vulkan/VK_Queue.cpp:37-129 | a run takes at most two GPU steps per submission, and one that cannot be extended has finished everything, so every counter equals what was submitted |
| TimelineQueue.SelfWaitNeverStarts | src/Vulkan/VK_Queue.cpp:43-64 | a submission that waits for its own value or a later one of its queue never starts |
| TimelineWaits.WaitsAsAsked | src/Vulkan/VK_Queue.cpp:43-70 | one wait per dependency of the request, in its order, for its queue and value and at all stages; one for the swapchain image, at colour output and last, if and only if the swapchain is written |
| TimelineWaits.FourWaits | src/Vulkan/VK_Common.h:1127 | a request is possible if and only if its dependencies, and the swapchain image if it is written, are at most four |
| TimelineWaits.StartsExactly | src/Vulkan/VK_Queue.cpp:37-88 | after any run, a submission, and any further run: the new submission has started only if every dependency of the request has been reached, and it can start if and only if they all have and the earlier work of its VkQueue has started |
| TimelineWaits.IdleExactly | src/Vulkan/VK_Queue.cpp:172-179 | `WaitIdle` can return if and only if everything its queue was given has finished |
| TimelineStall.StallsExactly | src/Vulkan/VK_Queue.cpp:43-64 | after any run at whose end the GPU can take no step, whatever the dependencies: everything has finished if and only if every wait names a value that was handed out and no submissions wait for each other in a circle |
| TimelineStall.CycleTogether | src/Vulkan/VK_Queue.cpp:43-64 | submissions that wait for each other in a circle finish all or none |
| TimelineStall.CircleStalls | src/Vulkan/VK_Queue.cpp:43-64 | a run from the initial state that comes to rest with both submissions left, each waiting for the other's value, whatever VkQueues are shared |
| TimelineStall.UnsubmittedStalls | src/Vulkan/VK_Queue.cpp:43-64 | a run that comes to rest waiting for a value never handed out, with no circle |
| CircularQueue.CircularQ.PushBack | External/spdlog/include/spdlog/details/circular_q.h:46-57 | appends, dropping the oldest item and counting one overrun when full; the disabled ring ignores it |
| CircularQueue.CircularQ.PopFront | External/spdlog/include/spdlog/details/circular_q.h:83 | removes the oldest item |
| CircularQueue.CircularQ.Front | External/spdlog/include/spdlog/details/circular_q.h:61-61 | returns the oldest item |
| CircularQueue.CircularQ.Size | External/spdlog/include/spdlog/details/circular_q.h:66-72 | is the length of the sequence stored |
| CircularQueue.CircularQ.At | External/spdlog/include/spdlog/details/circular_q.h:76-79 | is the item at that position of the sequence |
| CircularQueue.CircularQ.Empty | External/spdlog/include/spdlog/details/circular_q.h:85 | holds if and only if the sequence is empty |
| CircularQueue.CircularQ.Full | External/spdlog/include/spdlog/details/circular_q.h:87-93 | holds if and only if the sequence has reached the capacity |
| CircularQueue.CircularQ.ResetOverrunCounter | External/spdlog/include/spdlog/details/circular_q.h:97 | zeroes the counter and nothing else |
| CircularQueue.CircularQ.MoveFrom | External/spdlog/include/spdlog/details/circular_q.h:101-113 | takes over contents, capacity and counter, and leaves the other ring disabled |
| CircularQueue.AppendSlot | External/spdlog/include/spdlog/details/circular_q.h:46-57 | writing the marker slot and advancing the tail appends to what the ring shows |
| CircularQueue.OverrunSlot | External/spdlog/include/spdlog/details/circular_q.h:51-55 | when the tail meets the head, advancing both drops exactly the oldest item |
| CircularQueue.ConservesItems | External/spdlog/include/spdlog/details/circular_q.h:46-93 | over every run, what was pushed is what left, in order, followed by what is stored, and pushed = popped + stored + overrun |
| CircularQueue.KeepsTheNewest | External/spdlog/include/spdlog/details/circular_q.h:46-57 | pushing alone keeps exactly the newest `capacity` items |
| BlockingQueue.MpmcBlockingQueue.TestWait | External/spdlog/include/spdlog/details/mpmc_blocking_q.h:34 | the wait predicates read the ring as the state machine says |
| BlockingQueue.MpmcBlockingQueue.Put | External/spdlog/include/spdlog/details/mpmc_blocking_q.h:31-65 | the enqueue family's critical sections do to the real ring what the state machine does to its sequence, overrun counter included |
| BlockingQueue.MpmcBlockingQueue.Take | External/spdlog/include/spdlog/details/mpmc_blocking_q.h:68-90 | the same for the dequeue family, timeout included |
| BlockingQueue.MpmcBlockingQueue.CountDiscard | External/spdlog/include/spdlog/details/mpmc_blocking_q.h:59-63 | a refused item is counted as discarded, nothing else is |
| BlockingQueue.StepKeepsInv | External/spdlog/include/spdlog/details/mpmc_blocking_q.h:31-90 | every step keeps mutual exclusion, the ring's history and the covering of sleepers |
| BlockingQueue.NoWakeupIsEverLost | External/spdlog/include/spdlog/details/mpmc_blocking_q.h:31-90 | in every interleaving, a sleeping consumer implies queue length <= pending push notifications + woken consumers, a sleeping producer implies free slots <= pending pop notifications + woken producers, and items left and stored are exactly those pushed, in order |
| BlockingQueue.BusyQueueMoves | External/spdlog/include/spdlog/details/mpmc_blocking_q.h:31-90 | while some thread is awake inside a call, some thread can move by itself |
| BlockingQueue.QuietQueueIsSettled | External/spdlog/include/spdlog/details/mpmc_blocking_q.h:31-90 | when nobody is awake inside a call, consumers sleep only over an empty ring and producers only over a full one |
| BlockingQueue.RunsAreBounded | External/spdlog/include/spdlog/details/mpmc_blocking_q.h:31-90 | each call costs at most six steps and each spurious or timed-out wake-up two more |
| QueueAccounts.NothingIsDropped | External/spdlog/include/spdlog/details/mpmc_blocking_q.h:31-90 | over any run, each item given to the queue as often as it was: pushed, on its way into the ring, or refused by an enqueue-if-room that found the ring full |
| QueueAccounts.DiscardsAreCounted | External/spdlog/include/spdlog/details/mpmc_blocking_q.h:59-63 | the discard counter is the number of refusals whose call has released the mutex |
| QueueAccounts.WaitsExactly | External/spdlog/include/spdlog/details/mpmc_blocking_q.h:31-90 | a thread with the mutex goes to sleep if and only if it enqueues with waiting into a full ring, or dequeues from an empty one and has no timeout that is up |
| QueueAccounts.ResultsAreTaken | External/spdlog/include/spdlog/details/mpmc_blocking_q.h:68-90 | over any run, what a dequeue returns is what its thread took out of the ring, and a dequeue without a timeout returns something |
| QueueAccounts.EmptyHandedExactly | External/spdlog/include/spdlog/details/mpmc_blocking_q.h:68-90 | a dequeue comes back with nothing if and only if the ring is empty |
| ThreadPool.ConstructInv | External/spdlog/include/spdlog/details/thread_pool-inl.h:16-36 | a pool of 1 to 1000 workers starts in the invariant |
| ThreadPool.RunKeepsPoolInv | External/spdlog/include/spdlog/details/thread_pool-inl.h:79-122 | in every interleaving of workers, clients and destructor, whatever the clients' policies: every message taken from the queue was handled or is in a worker's hands, terminate messages posted = queued + on their way + overrun, and only a worker holding one exits |
| ThreadPool.ShutdownNeverDeadlocks | External/spdlog/include/spdlog/details/thread_pool-inl.h:44-55 | for capacity >= 1, until the destructor has joined every worker some worker or the destructor can move, unless a terminate message was overrun |
| ThreadPool.PoolStepsAreBounded | External/spdlog/include/spdlog/details/thread_pool-inl.h:44-122 | the steps of any run, whatever the clients' policies, are bounded by the work at its start plus a fixed amount per client post and per chance wake-up |
| ThreadPool.ShutdownDrains | External/spdlog/include/spdlog/details/thread_pool-inl.h:44-55 | once the last worker has exited, each consumed exactly one terminate message and none was overrun; everything pushed before the last of them has left the queue in push order; what was dequeued was handled exactly once, in that order when there is one worker, and is all that left unless a client overran something |
| ThreadPool.ShutdownCompletes | External/spdlog/include/spdlog/details/thread_pool-inl.h:44-55 | from any reachable state of a pool being destroyed, the remaining run is bounded, and when it can go no further every worker has exited and been joined if and only if no terminate message was overrun |
| ThreadPool.ReachedByBlocking | src/RenderX/Log.cpp:118-148 | in any run of a new pool whose clients use the block policy nothing is ever overrun |
| PoolAccounts.PostsAreAccounted | External/spdlog/include/spdlog/details/thread_pool-inl.h:79-93 | in every run of a new pool, each message as often as clients post it: pushed, on its way into the ring, or refused because the ring was full; without the discard policy nothing is refused or counted as discarded, without the overrun policy nothing is overrun, without the block policy no client sleeps |
| PoolAccounts.BlockingLosesNothing | src/RenderX/Log.cpp:118-148 | with blocking clients, at any time of any run: each message as often as it was posted is on its way, in the ring, in a worker's hands or processed |
| ThreadPool.OverrunCanLoseTerminate | External/spdlog/include/spdlog/details/thread_pool-inl.h:44-122 | for every ring with room, every number of workers and at least one client, a run whose clients use the overrun policy and which overruns a terminate message |
| ThreadPool.LosesExactly | External/spdlog/include/spdlog/details/thread_pool-inl.h:44-122 | for any set of policies, any ring and any pool: no run whose clients use these policies loses a terminate message if and only if the overrun policy is not among them, or there is no client, or the ring has no room |
| ThreadPool.ReturnsExactly | External/spdlog/include/spdlog/details/thread_pool-inl.h:44-122 | for any set of policies, any ring and any pool: every shutdown that can go no further has joined every worker if and only if the ring has room and the overrun policy is not among them (or there is no client); the discard policy is harmless |
| ThreadPool.LostIsForever | External/spdlog/include/spdlog/details/thread_pool-inl.h:44-55 | after that no run, of whatever length, gets every worker joined |
| StagingAllocator.VulkanStagingAllocator.Allocate | src/Vulkan/VK_Staging.cpp:15-31 | state and result of `allocate`, failure to get a chunk included |
| StagingAllocator.VulkanStagingAllocator.GetOrCreateChunk | src/Vulkan/VK_Staging.cpp:67-97 | which chunk becomes current: the twin of the last free copy when it is large enough, otherwise a new one |
| StagingAllocator.VulkanStagingAllocator.Submit | src/Vulkan/VK_Staging.cpp:33-46 | stamps the current chunk, parks a copy of it and leaves no chunk current |
| StagingAllocator.VulkanStagingAllocator.Retire | src/Vulkan/VK_Staging.cpp:48-65 | moves the completed prefix of the in-flight copies, reset, to the free list |
| StagingAllocator.DoKeepsInv | src/Vulkan/VK_Staging.cpp:33-97 | each chunk buffer stays in at most one of current, in-flight and free |
| StagingAllocator.RangesNeverOverlap | src/Vulkan/VK_Staging.cpp:15-97 | absent 32-bit wrap, no two ranges ever handed out overlap, across submit, retire and reuse |
| StagingAllocator.WhenInBounds | src/Vulkan/VK_Common.h:818-838 | a range is aligned, and is inside its chunk if and only if `canAllocate` held just before; always so on the current-chunk path and on new chunks |
| StagingAllocator.AllocatesFromCurrent | src/Vulkan/VK_Staging.cpp:15-21 | while the current chunk has room the range is the next aligned one in it, and nothing else changes |
| StagingAllocator.TakesLastFree | src/Vulkan/VK_Staging.cpp:67-83 | without room, the last free chunk is taken if it is at least as large as the request: it leaves the free list, no chunk is added, and the range is the next one in it |
| StagingAllocator.MakesChunk | src/Vulkan/VK_Staging.cpp:80-97 | otherwise the free list stays as it is and a chunk of exactly the larger of chunk size and request is made, of which the range is the first; when none can be made there is no range |
| StagingAllocator.RangesFitTheirChunks | src/Vulkan/VK_Staging.cpp:15-97 | absent wrap, every range ever handed out is at most as large as its chunk |
| StagingAllocator.RecycledChunkGoesOn | src/Vulkan/VK_Staging.cpp:60-62 | a recycled chunk is the element of the chunk list, with the offset it had |
| StagingAllocator.RecycledChunkCanOverrun | src/Vulkan/VK_Staging.cpp:67-97 | four calls after which a range lies outside its buffer: the concrete case |
| StagingAllocator.SubmitParks | src/Vulkan/VK_Staging.cpp:33-46 | a submitted chunk is parked under the id it was submitted with |
| StagingAllocator.ReuseGate | src/Vulkan/VK_Staging.cpp:33-97 | after `submit(id)` no allocation comes from that chunk until a `retire(c)` with c >= id |
| StagingAllocator.RetireIsExact | src/Vulkan/VK_Staging.cpp:48-65 | with non-decreasing ids, `retire(c)` frees exactly the in-flight chunks with an id up to c, in order, as copies with offset and id reset |
| StagingAllocator.LostExactly | src/Vulkan/VK_Staging.cpp:23-30 | one call puts a chunk in none of current, in-flight and free if and only if it is an allocation that replaces that current chunk for want of room |
| StagingAllocator.LostMeansReplaced | src/Vulkan/VK_Staging.cpp:15-97 | over any run of a new allocator a chunk is lost if and only if some allocation replaced it |
| StagingAllocator.TwoAllocationsLoseAChunk | src/Vulkan/VK_Staging.cpp:15-31 | two allocations after which a chunk is lost: the concrete case |
| StagingAllocator.LostForever | src/Vulkan/VK_Staging.cpp:15-97 | the memory of such a chunk is never handed out again, in any run |
| LoadUploader.VulkanLoadTimeStagingUploader.PushData | src/Vulkan/VK_Staging.cpp:773-779 | places the data at the next 256-byte boundary behind what is packed |
| LoadUploader.VulkanLoadTimeStagingUploader.UploadBuffer | src/Vulkan/VK_Staging.cpp:603-612 | packs the data and records one copy to its destination |
| LoadUploader.VulkanLoadTimeStagingUploader.Flush | src/Vulkan/VK_Staging.cpp:625-771 | runs every recorded copy once, in the order the GPU chooses, and empties the uploader; nothing happens when nothing was packed |
| LoadUploader.PackedHolds | src/Vulkan/VK_Staging.cpp:773-779 | every upload is found unchanged at its own aligned offset behind the one before; packed size lies between the sum of sizes and that sum + 255*(n-1) |
| LoadUploader.FitsWhenSmall | src/Vulkan/VK_Staging.cpp:773-779 | sum of sizes + 255 per upload below 2^32 is enough for no offset to wrap |
| LoadUploader.OrderDoesNotMatter | src/Vulkan/VK_Staging.cpp:694-700 | writes that agree wherever they overlap have the same effect in every order |
| LoadUploader.OrderMattersExactly | src/Vulkan/VK_Staging.cpp:694-700 | any number of writes leave the same memory in every order if and only if each two of them agree wherever they overlap |
| LoadUploader.FlushEqualsDirectWrites | src/Vulkan/VK_Staging.cpp:603-779 | a flush leaves device memory as if each upload had been written directly, for every order of the copies, when the uploads agree wherever they overlap |
| LoadUploader.DisjointFlush | src/Vulkan/VK_Staging.cpp:603-779 | the same for uploads to pairwise disjoint destinations, whatever their contents |
| Words.RotateBack | src/Vulkan/VK_Common.h:600-601 | rotating right undoes rotating left on 64-bit words |
| Words.MultiplyInjective | src/Vulkan/VK_Buffer.cpp:17-23 | multiplying by a constant with an inverse loses nothing modulo 2^64 |
| Words.SharedHigh | src/Vulkan/VK_Buffer.cpp:13-26 | words that agree from bit n on differ by an exclusive or below 2^n |
| Words.MaskRoundsDown | src/Vulkan/VK_Common.h:819 | `x & ~(a - 1)` on 32-bit words rounds down to a multiple of `a`, for every power of two `a` |
| Words.MaskIsAlignUp | src/Vulkan/VK_Common.h:819 | `(x + a - 1) & ~(a - 1)` is the next multiple of `a`, cut to 32 bits |
| ResourcePool.OpenSealed | src/Vulkan/VK_Common.h:603-613 | index and generation can be read back from a handle, for every key |
| ResourcePool.SealOpened | src/Vulkan/VK_Common.h:603-613 | every 64-bit word is the handle of exactly one index and generation |
| ResourcePool.InvalidTicket | src/Vulkan/VK_Common.h:603-618 | under each key exactly one index and generation has the invalid handle |
| ResourcePool.SealedWord | src/Vulkan/VK_Common.h:600-607 | a handle is generation and index side by side, xored with the key and rotated left by 17 bits |
| ResourcePool.ResourcePool.Allocate | src/Vulkan/VK_Common.h:501-520 | reuses the last freed slot with the next generation, or appends one with generation 1 |
| ResourcePool.ResourcePool.Free | src/Vulkan/VK_Common.h:522-535 | empties the slot, lists it as free, leaves its generation, and clears the caller's handle |
| ResourcePool.ResourcePool.Get | src/Vulkan/VK_Common.h:537-553 | finds the slot's resource if and only if the handle is alive |
| ResourcePool.ResourcePool.IsAlive | src/Vulkan/VK_Common.h:580-589 | valid, in range, and of the slot's current generation |
| ResourcePool.ResourcePool.ForEachAlive | src/Vulkan/VK_Common.h:563-578 | visits the slots that are not free, in order, each with its handle |
| ResourcePool.ResourcePool.Clear | src/Vulkan/VK_Common.h:591-597 | back to the state of a new pool with the same key |
| ResourcePool.AllocateReturnsNext | src/Vulkan/VK_Common.h:501-520 | the handle returned is that of the slot taken and its next generation |
| ResourcePool.DoKeepsInv | src/Vulkan/VK_Common.h:501-535 | every clean call keeps slots, free list and handles issued consistent with the partial map of live handles |
| ResourcePool.PoolRefinesMap | src/Vulkan/VK_Common.h:501-553 | after any clean run all handles issued are valid and distinct, and a live handle gets what was stored under it |
| ResourcePool.AliveMeansNewest | src/Vulkan/VK_Common.h:580-589 | an issued handle is alive if and only if it is the newest of its slot |
| ResourcePool.DiesWhenSlotIsReused | src/Vulkan/VK_Common.h:505-514 | one call ends an issued handle's life if and only if it reallocates its slot, and nothing revives it |
| ResourcePool.FreedHandleFindsEmpty | src/Vulkan/VK_Common.h:532-534 | a freed handle is still alive and finds the empty resource until then |
| ResourcePool.GetFindsExactly | src/Vulkan/VK_Common.h:537-553 | `get` finds nothing under the invalid handle and, slot 0 apart, something if and only if the handle is the latest issued for its slot: what is stored, or the empty resource once it is freed |
| ResourcePool.FreedSlotIsReusedFirst | src/Vulkan/VK_Common.h:501-535 | the slot freed last is reused first, under the next generation |
| ResourcePool.NewSlotIsAppended | src/Vulkan/VK_Common.h:501-520 | with no slot free one is added, under generation 1 |
| ResourcePool.FreedTwiceIsShared | src/Vulkan/VK_Common.h:522-535 | after two frees of a handle in a row, the first of the next two allocations is dead as soon as the second is made |
| ResourcePool.FreeIsCleanExactly | src/Vulkan/VK_Common.h:522-535 | a free that the assertions let through keeps the free list without repetitions and slot 0 out of it if and only if the handle was issued and not freed since |
| ResourcePool.UncleanFreeKills | src/Vulkan/VK_Common.h:501-535 | after any other free of a slot but 0, at any time, the handle that the next allocation returns dies, without being freed, within as many further allocations as there were free slots |
| ResourcePool.SlotZeroIsNeverVisited | src/Vulkan/VK_Common.h:501-578 | the handle of slot 0, never issued, can be freed; the next handle issued is then one `ForEachAlive` never visits |
| ResourcePool.ForEachAliveVisitsLiveOnce | src/Vulkan/VK_Common.h:563-578 | visits each live handle exactly once, with the very handle returned and what is stored, and nothing else |
| DescriptorArena.ComputeStride | src/Vulkan/VK_Resource_Bindings.cpp:169-177 | the stride of a layout: the sum of its bindings' sizes, rounded up to 256 |
| DescriptorArena.StrideExactly | src/Vulkan/VK_Resource_Bindings.cpp:169-177 | for counts that do not wrap, the stride is the least multiple of 256 that holds all descriptors of the layout at 64 bytes each |
| DescriptorArena.FindBindingOffset | src/Vulkan/VK_Resource_Bindings.cpp:572-580 | the sizes of the bindings before the first one with that slot |
| DescriptorArena.OffsetExactly | src/Vulkan/VK_Resource_Bindings.cpp:558-582 | for distinct slots and counts that do not wrap, a slot lies right behind the descriptors of the bindings before it |
| DescriptorArena.SlotStaysInside | src/Vulkan/VK_Resource_Bindings.cpp:558-582 | for distinct slots and counts that do not wrap, each slot's bytes lie inside the set's stride, for 64- and 32-byte heaps and layouts of any length |
| DescriptorArena.SlotsStayInsideTheSet | src/Vulkan/VK_Resource_Bindings.cpp:558-582 | for distinct slots and counts that do not wrap, two slots' bytes lie apart, in layout order, for 64- and 32-byte heaps |
| DescriptorArena.UnknownSlotIsPastTheEnd | src/Vulkan/VK_Resource_Bindings.cpp:572-580 | a slot the layout does not have gets the offset just past its last binding |
| DescriptorArena.VulkanDescriptorPool.constructor | src/Vulkan/VK_Resource_Bindings.cpp:153-188 | the stride, and for POOL every slot free |
| DescriptorArena.VulkanDescriptorPool.AllocateSet | src/Vulkan/VK_Resource_Bindings.cpp:249-285 | LINEAR bumps the aligned write pointer, POOL takes the last free slot, MANUAL gives 0 |
| DescriptorArena.VulkanDescriptorPool.FreeSet | src/Vulkan/VK_Resource_Bindings.cpp:334-359 | puts back the slot the offset divides to |
| DescriptorArena.VulkanDescriptorPool.Reset | src/Vulkan/VK_Resource_Bindings.cpp:205-223 | stores the base offset in the write pointer |
| DescriptorArena.LinearExactCapacity | src/Vulkan/VK_Resource_Bindings.cpp:257-269 | exactly `capacity` sets fit when the base is a multiple of 256, and exactly one less otherwise |
| DescriptorArena.LinearSetsDisjoint | src/Vulkan/VK_Resource_Bindings.cpp:257-269 | the sets are 256-aligned, strictly increasing, disjoint and inside the arena |
| DescriptorArena.ResetReplaysExactly | src/Vulkan/VK_Resource_Bindings.cpp:219-222 | reset replays the same offsets if and only if the base offset is at most 128 |
| DescriptorArena.CapacityAfterReset | src/Vulkan/VK_Resource_Bindings.cpp:205-269 | exactly how many sets fit after a reset, for every base offset: the gap between base and twice the base, rounded up, is lost |
| DescriptorArena.PoolConserves | src/Vulkan/VK_Resource_Bindings.cpp:181-355 | after any clean run free and live slots partition the arena with no slot free twice, live byte ranges are disjoint and inside it, and the division recovers the slot of every live set |
| DescriptorArena.FreedSetIsReusedFirst | src/Vulkan/VK_Resource_Bindings.cpp:271-359 | the set freed last is handed out first |
| DescriptorArena.NewArenaGoesDown | src/Vulkan/VK_Resource_Bindings.cpp:181-285 | a new arena hands its slots out from the last to the first |
| DescriptorWrites.Device.UpdateDescriptorSets | src/Vulkan/VK_Resource_Bindings.cpp:678-679 | updates take effect in array order (section 14.2 of the Vulkan 1.3 specification), each reading the info it refers to |
| DescriptorWrites.WriteDescriptorSingle | src/Vulkan/VK_Resource_Bindings.cpp:361-460 | one binding gets a descriptor of the type the write asks for, of exactly the view, texture or sampler its live handle stands for, in the layout for reading or the general one; nothing else changes |
| DescriptorWrites.Batch.Consider | src/Vulkan/VK_Resource_Bindings.cpp:622-671 | one round of the inner loop: a write with a live handle adds one header and one info, any other adds nothing |
| DescriptorWrites.OwnedCounts | src/Vulkan/VK_Resource_Bindings.cpp:597-681 | buffer infos + image infos = writes, and every reference is in range |
| DescriptorWrites.NeverAliased | src/Vulkan/VK_Resource_Bindings.cpp:645-664 | no two writes refer to the same info |
| DescriptorWrites.BatchMeansSingles | src/Vulkan/VK_Resource_Bindings.cpp:597-681 | the gathered arrays, applied at once, mean the single writes of the batched types in order |
| DescriptorWrites.WriteSets | src/Vulkan/VK_Resource_Bindings.cpp:597-681 | over any sets and writes, each binding ends with what the last write to it with a live handle and a batched type asks for, and untouched ones stay; memory is as the single writes of the batched types would leave it; missing sets and sets of the other kind are skipped |
| DescriptorWrites.DenotedIsAsAsked | src/Vulkan/VK_Resource_Bindings.cpp:376-455 | a write has a descriptor if and only if its handle is alive with all it refers to: of the Vulkan type for its kind; for buffers of exactly the bytes of the view, to the end of the buffer when its range is 0; for SRV and UAV of exactly the texture's view, in the layout for reading and the general one |
| DescriptorWrites.SinglesAsAsked | src/Vulkan/VK_Resource_Bindings.cpp:597-681 | each binding holds what the last write that hits it asks for, and what it held before if none does |
| DescriptorWrites.BatchTypesAgree | src/Vulkan/VK_Resource_Bindings.cpp:361-681 | for buffer, SRV and UAV writes the batch is the single writes, with no info aliased |
| DescriptorWrites.BatchAgreesExactly | src/Vulkan/VK_Resource_Bindings.cpp:634-669 | the batch agrees with the single writes on every memory if and only if no binding is last written by a live handle of a type it ignores |
| CommandValidator.ValidationLayer.Initialize | src/RenderX/RX_Validation.cpp:15-33 | takes the categories and zeroes the counters, the first time only |
| CommandValidator.ValidationLayer.EnableCategory | src/RenderX/RX_Validation.cpp:80-83 | adds one category |
| CommandValidator.ValidationLayer.DisableCategory | src/RenderX/RX_Validation.cpp:85-88 | removes one category; the tables stay |
| CommandValidator.ValidationLayer.RegisterBuffer | src/RenderX/RX_Validation.cpp:140-157 | records the buffer, unmapped, if resource checks are on |
| CommandValidator.ValidationLayer.UnregisterBuffer | src/RenderX/RX_Validation.cpp:159-180 | forgets it; an unknown or still mapped buffer is an error |
| CommandValidator.ValidationLayer.OnBufferMap | src/RenderX/RX_Validation.cpp:252-281 | marks a known buffer as mapped; an unknown, mapped or GPU-only one is an error |
| CommandValidator.ValidationLayer.OnBufferUnmap | src/RenderX/RX_Validation.cpp:283-304 | the opposite; a buffer not mapped is a warning |
| CommandValidator.ValidationLayer.RegisterPipeline | src/RenderX/RX_Validation.cpp:476-493 | records the pipeline if pipeline checks are on |
| CommandValidator.ValidationLayer.UnregisterPipeline | src/RenderX/RX_Validation.cpp:495-510 | forgets it; an unknown one is an error |
| CommandValidator.ValidationLayer.RegisterCommandList | src/RenderX/RX_Validation.cpp:566-577 | records a list in its initial state if command lists are tracked |
| CommandValidator.ValidationLayer.UnregisterCommandList | src/RenderX/RX_Validation.cpp:579-596 | forgets it; an unknown list or an open bracket is an error |
| CommandValidator.ValidationLayer.Report | src/RenderX/RX_Validation.cpp:99-126 | records and counts a message if the layer is initialised and the category is on |
| CommandValidator.ValidationLayer.GetCommandListInfo | src/RenderX/RX_Validation.cpp:1173-1180 | an unregistered list is an error |
| CommandValidator.ValidationLayer.ValidateBuffer | src/RenderX/RX_Validation.cpp:182-212 | with handle checks on, a buffer handle must be valid and registered |
| CommandValidator.ValidationLayer.ValidatePipeline | src/RenderX/RX_Validation.cpp:512-535 | the same for pipelines |
| CommandValidator.ValidationLayer.OnCommandListBegin | src/RenderX/RX_Validation.cpp:598-627 | messages and new flags of a begin |
| CommandValidator.ValidationLayer.OnCommandListEnd | src/RenderX/RX_Validation.cpp:629-655 | messages and new flags of an end; ending inside a bracket is reported but ends the recording |
| CommandValidator.ValidationLayer.OnCommandListSubmit | src/RenderX/RX_Validation.cpp:657-675 | messages and new state of a submit |
| CommandValidator.ValidationLayer.OnCommandListReset | src/RenderX/RX_Validation.cpp:677-693 | a reset clears the list's flags |
| CommandValidator.ValidationLayer.ValidateDrawCall | src/RenderX/RX_Validation.cpp:696-732 | every check of a draw, errors and warnings in order |
| CommandValidator.ValidationLayer.ValidateDrawIndexed | src/RenderX/RX_Validation.cpp:734-770 | the same with an index buffer |
| CommandValidator.ValidationLayer.ValidateBeginRenderPass | src/RenderX/RX_Validation.cpp:772-807 | opens the bracket unless refused |
| CommandValidator.ValidationLayer.ValidateEndRenderPass | src/RenderX/RX_Validation.cpp:809-832 | closes it unless refused |
| CommandValidator.ValidationLayer.ValidateBeginRendering | src/RenderX/RX_Validation.cpp:834-866 | opens the rendering block unless refused; no attachments is a warning |
| CommandValidator.ValidationLayer.ValidateEndRendering | src/RenderX/RX_Validation.cpp:868-890 | closes it unless refused |
| CommandValidator.ValidationLayer.ValidateSetPipeline | src/RenderX/RX_Validation.cpp:892-912 | binds the pipeline of a recording list |
| CommandValidator.ValidationLayer.ValidateSetVertexBuffer | src/RenderX/RX_Validation.cpp:914-944 | binds the buffer; wrong usage is reported but bound |
| CommandValidator.ValidationLayer.ValidateSetIndexBuffer | src/RenderX/RX_Validation.cpp:946-975 | the same for the index buffer |
| CommandTraces.SoundAndComplete | src/RenderX/RX_Validation.cpp:15-975 | with every category on, a run from `Initialize` reports no error if and only if every registration, mapping, destruction and command in it is legal under a specification over the calls made so far |
| CommandTraces.LegalListByList | src/RenderX/RX_Validation.cpp:598-975 | a run is legal if and only if, for each list, the calls on it and on what lists share are |
| CommandTraces.InterleavingIsIrrelevant | src/RenderX/RX_Validation.cpp:598-975 | the verdict does not depend on how calls on different lists are interleaved |
| CommandTraces.NoFalseAlarms | src/RenderX/RX_Validation.cpp:15-975 | for fixed categories, a legal run from `Initialize` is reported free of errors, provided that resource checks are on, or handle checks are off, or state and memory checks are off; what is legal is read off the calls, not off the layer's tables |
| CommandTraces.FalseAlarm | src/RenderX/RX_Validation.cpp:140-285 | for every other choice of categories a legal run from `Initialize` that is reported, because the buffer it uses was never recorded |
| CommandTraces.AlarmsExactly | src/RenderX/RX_Validation.cpp:15-975 | for fixed categories: no legal run is ever reported if and only if handle checks together with state or memory checks come only with resource checks |
| CommandTraces.ExactOnlyWithAll | src/RenderX/RX_Validation.cpp:15-975 | the verdict is right on every run if and only if all the categories used are on |
| CommandSwitching.SwitchingExactly | src/RenderX/RX_Validation.cpp:80-975 | starting with every category on, with some categories that may be switched off in the run and some that may be switched on: no legal run is ever reported if and only if only handle, state and pipeline checks may be switched off, and of what is switched off only handle checks on again |
| CommandSwitching.RunFollows | src/RenderX/RX_Validation.cpp:80-975 | under such switches the layer's tables stay in step with any legal run, and nothing is reported |
| CommandSwitching.SomeAlarm | src/RenderX/RX_Validation.cpp:80-975 | for any other choice a legal run that is reported |
| CommandTraces.RunCounts | src/RenderX/RX_Validation.cpp:99-126 | error and warning counters are the numbers of messages modulo 2^32, over any run |
| CommandReports.SaysExactly | src/RenderX/RX_Validation.cpp:140-975 | after any legal run with every category on, and then with any categories: about the next event, legal or not, the layer gives exactly the messages the calls made so far call for, with these severities and categories and in this order |
| CommandReports.ReportedCallChangesNothing | src/RenderX/RX_Validation.cpp:598-975 | a call reported as an error leaves all lists alone, except that ending inside a bracket ends the recording and a buffer of the wrong usage is bound |
| CommandWarnings.WarnsExactly | src/RenderX/RX_Validation.cpp:696-890 | a legal run is warned exactly once for each draw on a list without a vertex buffer set since its begin, each draw of nothing, each rendering without attachments and each unmapping of a buffer not mapped |
| RateLimitedSink.RateLimitedSink.SinkIt | src/RenderX/Log.cpp:22-52 | what is written, remembered and counted for one message |
| RateLimitedSink.RateLimitedSink.SetRateLimitInterval | src/RenderX/Log.cpp:16-19 | changes the interval and nothing else |
| RateLimitedSink.NothingIsLost | src/RenderX/Log.cpp:22-52 | per text, received = written + reported as suppressed + pending: exactly for fewer than 2^32 messages, modulo 2^32 always, whatever the clock and the interval do |
| RateLimitedSink.LinesCarryTheirMessages | src/RenderX/Log.cpp:22-52 | each line is written by one call, in the order of the calls, and carries that message's text, level and time |
| RateLimitedSink.SuppressedExactly | src/RenderX/Log.cpp:35-51 | with a clock that never goes back, a non-error message is suppressed if and only if a line with its text was written less than the current interval ago |
| RateLimitedSink.RateIsBounded | src/RenderX/Log.cpp:35-51 | with a fixed interval > 0, any window of length L holds at most floor(L/interval) + 1 non-error lines with one text |
| RateLimitedSink.ErrorsAreNeverSuppressed | src/RenderX/Log.cpp:28-33 | errors are all written, as they came |
| BufferViewCache.ComputeBufferViewHash | src/Vulkan/VK_Buffer.cpp:13-26 | the three-step hash, a 64-bit word |
| BufferViewCache.MixInjective | src/Vulkan/VK_Buffer.cpp:16-23 | each step is injective in the hash so far and in the word mixed in |
| BufferViewCache.OneFieldNeverCollides | src/Vulkan/VK_Buffer.cpp:13-26 | descriptions that differ in exactly one of buffer, offset and range never collide |
| BufferViewCache.TwoFieldsCollideOnce | src/Vulkan/VK_Buffer.cpp:13-26 | for any description and any other offset exactly one range collides with it |
| BufferViewCache.BufferViews.CreateBufferView | src/Vulkan/VK_Buffer.cpp:122-163 | the checks in order, then the cached handle or a new one |
| BufferViewCache.ReachedSettled | src/Vulkan/VK_Buffer.cpp:122-167 | after any run of creations and destructions each cached handle is one the pool issued, different hashes have different ones, it is live if and only if nobody destroyed it, and until then stores the view first made under its hash |
| BufferViewCache.RejectedReturnsInvalid | src/Vulkan/VK_Buffer.cpp:122-145 | over any run of creations and destructions, a call returns a valid handle if and only if it is a request that passes every check |
| BufferViewCache.ValidExactly | src/Vulkan/VK_Buffer.cpp:122-145 | over any run, a call returns a valid handle if and only if its buffer handle is valid and alive, its Vulkan buffer is not null, and offset + range is at most the buffer's size, or the 64-bit sum wraps around to something that is |
| BufferViewCache.ViewsLieInside | src/Vulkan/VK_Buffer.cpp:139-145 | so without wrap every view made lies inside its buffer |
| BufferViewCache.SameHandleSameHash | src/Vulkan/VK_Buffer.cpp:147-167 | over any run of creations and destructions, two accepted requests get the same handle if and only if their descriptions have the same hash |
| BufferViewCache.CacheIsMemoTable | src/Vulkan/VK_Buffer.cpp:147-167 | over any run in which descriptions hash apart, destructions included: equal ones get the same handle, unequal ones different handles, and a handle finds its own view if and only if nobody destroyed it |
| BufferViewCache.FoundViewIsRequested | src/Vulkan/VK_Buffer.cpp:147-167 | over any such run, the view a returned handle finds covers the range asked for if and only if the handle was not destroyed and offset and range fit in 32 bits |
| BufferViewCache.EveryBufferCollides | src/Vulkan/VK_Buffer.cpp:13-26 | for every buffer handle and every range there are two views of it with the same hash, at different offsets of at most 3 * 2^24, the second less than 2^34 bytes longer |
| BufferViewCache.CollisionIsAccepted | src/Vulkan/VK_Buffer.cpp:122-163 | for every live buffer 0x403000000 bytes larger than `range`, in any run: two requests for different views of it are accepted and get the same valid handle |
| BufferViewCache.CollisionCanFollow | src/Vulkan/VK_Buffer.cpp:122-163 | such a pair of requests can follow any run after which the pool has room for a view |
| BufferViewCache.BufferViews.DestroyBufferView | src/Vulkan/VK_Buffer.cpp:165-167 | frees the view's slot and leaves the cache as it is |
| BufferViewCache.FindsOwnViewExactly | src/Vulkan/VK_Buffer.cpp:122-167 | at the end of any run of creations and destructions, what an accepted request returned finds its own view if and only if nobody destroyed that handle and the hash was first used for the same stored view; a destroyed handle finds the empty view or none |
| BufferViewCache.SecondDestroyBreaksThePool | src/Vulkan/VK_Buffer.cpp:122-167 | a destroyed view that is asked for again can be destroyed again until its slot is reused, and its slot is then free twice |

## Left out

- Blocking calls: a method cannot stop half-way in Dafny, so `enqueue`, `dequeue` and the pool's threads are
  interleaved steps on values; the critical sections themselves are methods on the real ring.
- ThreadPool.ConstructInv: thread start and stop hooks, and exceptions from thread creation, are not modelled.
- The MinGW variant of the blocking queue, which notifies before it unlocks.
- Exceptions thrown by sinks inside a worker.
- TimelineQueue.CommandQueue.Submit: at most four waits, the size of the array; an acquired swapchain image counts
  as signalled; the 64-bit counter is not wrapped.
- TimelineQueue.CommandQueue.Wait: time itself is not modelled, only the answer the call gives when it is over.
- StagingAllocator.RangesFitTheirChunks: runs without 32-bit wrap-around in the current chunk and the chunk used.
- StagingAllocator.RangesNeverOverlap: alignments are powers of two, as the masking needs; `cleanup`, which
  destroys every buffer and empties the lists, is not modelled.
- LoadUploader.VulkanLoadTimeStagingUploader.Flush: buffer copies only; image uploads, their barriers and layouts are
  not modelled.
- LoadUploader.FlushEqualsDirectWrites: the same.
- The immediate and the deferred uploader, whose copies are partly commented out.
- DescriptorArena.PoolConserves: a pool with a stride of 0 (an empty layout), for which freeing divides by zero;
  64-bit heap offsets are taken far below 2^64.
- DescriptorArena.SlotStaysInside: the descriptor bytes themselves, which `VKWriteSet` does not write yet.
- DescriptorWrites.WriteSets: fewer than 2^32 writes in one call, as the 32-bit total needs.
- The single-set `VKWriteSet` on the descriptor-set path, with its limit of 32 writes.
- CommandTraces.SoundAndComplete: the mutex, message texts, frame numbers, `Shutdown` and `SetConfig`; textures and
  views, which are registered the same way but used by no command.
- CommandTraces.InterleavingIsIrrelevant: registrations and mappings of buffers and pipelines, which lists share, keep
  their order with the calls on every list.
- The validator's checks of descriptions, copies and queue submissions: independent one-step checks.
- BufferViewCache.FindsOwnViewExactly: runs in which no handle is destroyed twice, and the pool runs out of neither
  indices nor generations nor meets its one invalid handle; `ResourcePool.UncleanFreeKills` says what a second
  destruction leads to.
- BufferViewCache.CacheIsMemoTable: the same runs.
- RateLimitedSink.RateIsBounded: one clock reading per message, taken as an integer parameter.
- The Vulkan, memory-allocator and window-system calls, and the OpenGL backend.
- Enum and format conversion tables, and barrier tracking, which nothing updates yet.
