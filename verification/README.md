# A verified model of the Qwen inference server's scheduling core

The server accepts chat requests over HTTP, queues them, and lets one decode thread prefill, decode
and finish them. Each request holds a KV cache from an allocator and a share of per-device GPU
budgets; its tokens go to the client through a bounded queue. This project models that core, and the
text transformations in front of it, and proves what they keep.

`dafny verify dfyconfig.toml` checks everything.

## How the model is built

**Step system.** `System` describes the scheduler as steps: what one thread does under one lock.
`submit` is five steps (queue check, GPU check, KV check, registration, push), because its lock is
released between check and push. The decode thread takes one step per pop, per stage of
`run_prefill`, per snapshot entry, and per stage of `complete_request` and `fail_request`, which are
one skeleton with two outcomes. A sequence of steps is an interleaving. Clock readings, device and
runtime results, sampled tokens and their text are inputs of the steps, so every failure branch is
an interleaving too. `Lifecycle` holds the bookkeeping of requests, `Resources` their memory,
`Generation` and `Talks` their output and stream; `Safety` couples them in one invariant that every
step keeps, and `Guarantees`, `Bookkeeping`, `Delivery`, `Endings`, `Drain`, `Locality` and `QueueBound` draw the
consequences for all reachable states: any limits, any set of distinct devices, with or without a
router, either allocator (so also the server's default, a pool under a router with two devices).
`SplitPool` and `Vetting` settle when budgets return to zero, `DeviceMemory` when device memory does,
`Overrun` when budgets stay within their totals, and `Starvation` what an overdrawn budget does to later
requests; `SoloRuns` has the runs of single requests that they use. `Sessions` projects every
interleaving onto what one streaming client (`Client`) sees, and `LateClient` is one such run.

**Objects.** Code that updates fields is also written as classes with the same loops:
`Scheduler.Scheduler`, `GpuRouter.Router`, `ContiguousAllocator.Allocator`,
`PooledAllocator.Allocator`, `TokenQueue.Queue`, `Cancellation.CancellationToken`,
`Tokenizer.Tokenizer`. Their methods are proved against the functions that the step system uses. The
scheduler class carries a state of the step system along, and its `Valid()` says that its fields
agree with that state and that the state is reachable; `SchedulerSteps` has the runs that its methods
take.

**Proofs.** A step that is not enabled changes nothing, so that specifications can mention the state after
a step freely. Proofs withhold the definitions that they do not use (`hide`), which keeps what the solver
reads small.

**Numbers.** Budgets and byte counters are 64-bit words and wrap around (`Words.Wrap`); the budget
theorems hold modulo the word size, as the counters do. A granted allocation is never a null pointer,
which assumes that there are at most as many devices as KV heads: with more, a split cache has zero
bytes per device.

Fields marked as history (`place`, `order`, `pushed`, `taken`, `finished`, `owner`, `obtained`,
`released`, `phase`, `pieces`, `accepted`, `popped`, `attempts`, `leaked`, `granted`) are never read by the
modelled code.

## What does not hold, and exactly when it does

- Budgets do not always return to zero. The pooled allocator leaves a multi-device handle valid when
  it frees it, so a failed prefill of a split request releases its budget twice
  (`SplitPool.FailedPrefillOverdraws`). `Guarantees.BudgetsExact` carries the amount.
  `Vetting.BudgetsReturnIff`: the budgets return to zero in every run if and only if it is not the case
  that a router splits over a pool on two or more devices, or the limits let nothing through, or every
  prompt that is split and admitted when everything is free has a share of zero modulo the word size.
- After one such failure the server may refuse everything for ever (`Starvation.OverdraftStarves`).
- Device memory is not always given back. The pooled allocator frees the two pointers of a handle, and a
  split handle has those of its first device only, so K and V on every other device are stranded by every
  split request, however it ends (`DeviceMemory.FinishedSplitStrands`). `DeviceMemory.MemoryExact` carries
  the amount, and `DeviceMemory.MemoryReturnsIff` has the same form as for budgets, for prompts that need
  memory on each device.
- A failed multi-device allocation of the contiguous allocator leaves bytes counted.
  `Contiguous.FailureLeaksIff` says exactly when, and `Guarantees.BytesExact` carries the amount.
- If nothing is reserved in between, admission of split requests is sound if and only if the device count
  divides the KV heads (`Routing.SplitAdmissionSoundIff`). But the scheduler reserves later than it
  admits: two requests accepted together overrun a budget if and only if, with one of them charged, there
  is no room for the other (`Overrun.AcceptedTogether`). With one active request at a time, and budgets
  that return, every budget stays within its total if and only if the shares of all admitted split
  requests do (`Overrun.BudgetsWithinIff`).
- The byte-pair encoding is local for tables without equal ranks, such as every loaded table
  (`Bpe.EncodingIsLocal`, `Bpe.LoadMerges`), and not in general (`Bpe.EqualRanksNotLocal`).
- The queue may exceed its limit by one less than the number of submitting threads
  (`QueueBound.QueueBoundAttained`). It never exceeds it if and only if at most one thread submits, or the
  limit is zero, or no length is ever admitted (`QueueBound.QueueStaysIff`).
- A client may leave without the last events (`Client.LateTokenMissed`, and `LateClient.LateTokenMissed`
  as a run of the scheduler). When the end of the request has been announced, a client that left has read
  everything if and only if at its last poll the end had been announced already and nothing stayed
  queued (`Client.LeavesWithEverythingIff`). In terms of what it can see: if and only if it left on the
  terminal event, or that event was dropped from a full queue and nothing is left in the queue
  (`Client.ReadsAllVisibly`, and `Sessions.ClientReadsAllIff` over every interleaving of the scheduler).
- A request that is cancelled between the check of the decode loop and its decode step is reported as
  completed without a reason (`Endings.LateCancel`).
- The parser reads a prompt back if and only if no turn contains the end marker
  (`PromptTemplate.ReadBackIff`). Whatever the parser, two turn lists format alike if and only if they
  agree after cutting their contents at every end marker that a newline and the header of a turn follow
  (`Ambiguity.FormatAlikeIff`); `PromptTemplate.EndMarkerForgesTurn` shows the forgery.
- `can_allocate` answers exactly whether a single-device allocation succeeds
  (`Allocator.CanAllocateMeans`). It promises nothing for a split request: `Allocator.SplitMeans` says
  when that one succeeds.

The design document draws a `Cancelled` state; the code never sets it, and the model follows the
code: a cancelled request that is being decoded ends as completed or errored.

## Model

| member | source | states |
|---|---|---|
| `Safety.StepKeeps` | src/scheduler/scheduler.cpp:60-602 | every step of every thread, with every outcome of clock, device, runtime and sampler, keeps the joint invariant of bookkeeping, memory, output and stream |
| `Safety.RunKeeps` | src/scheduler/scheduler.cpp:60-602 | so does every interleaving |
| `Guarantees.BudgetsExact` | src/scheduler/scheduler.cpp:175-252 | whenever the decode thread is between requests, whatever failed before, nothing is reserved and each device has used the sum of the active requests' shares, less what failed prefills of split requests released twice |
| `Guarantees.ReservedExact` | src/scheduler/scheduler.cpp:182-219 | at every moment, also in the middle of a prefill, what a device has reserved is the share of the request in hand, from its placement until it is charged or given up |
| `Guarantees.BudgetsReturnUnsplit` | src/scheduler/scheduler.cpp:591-602 | with the contiguous allocator, without a router or with fewer than two devices, budgets are zero whenever nothing is active |
| `Guarantees.OverdrawnIsSplit` | src/kvcache/kv_allocator.cpp:497-529 | only a request split by the router over a pool is ever released twice |
| `Guarantees.BytesExact` | src/kvcache/kv_allocator.cpp:61-222 | with the contiguous allocator used + free = total on every device, and used is the bytes of the active requests' handles plus what failed multi-device allocations left behind |
| `Guarantees.PoolBytesExact` | src/kvcache/kv_allocator.cpp:426-529 | with the pool used + free = total on every device, and used is the slots of the active requests |
| `Guarantees.ActiveSlotsApart` | src/kvcache/kv_allocator.cpp:426-469 | two active requests never share a pool slot: their K and V ranges are disjoint and long enough |
| `Guarantees.HandlesFreedOnce` | src/scheduler/scheduler.cpp:591-602 | no allocation id, of either allocator, is freed twice, and all are freed when nothing is active, although two functions call `free_resources`; what memory a free gives back is stated by `DeviceMemory` |
| `DeviceMemory.MemoryExact` | src/kvcache/kv_allocator.cpp:485-529 | in every reachable state, what a device has handed out outside its pool and not got back is what the live handles name there, plus what freed split handles stranded |
| `DeviceMemory.FinishedSplitStrands` | src/kvcache/kv_allocator.cpp:718-774 | every finished split request of the pool, completed or failed, has stranded its bytes per device on every device but the first |
| `DeviceMemory.FailedPrefillStrands` | src/kvcache/kv_allocator.cpp:497-529 | for every setup with a pool, a router and two or more devices and every admitted split prompt, some run ends idle with that memory gone |
| `DeviceMemory.MemoryReturnsIff` | src/kvcache/kv_allocator.cpp:497-529 | the devices get everything back in every run if and only if the router does not split over a pool, or the limits let nothing through, or no admitted split prompt needs memory on each device |
| `Guarantees.CacheNeverOverruns` | src/scheduler/scheduler.cpp:182-238 | as long as an active request holds its cache, also while its end is announced, the KV length is prompt plus output, at most the length it was allocated for, which is within the context limit; between steps at least one token may still come |
| `SplitPool.FailedPrefillOverdraws` | src/kvcache/kv_allocator.cpp:497-529 | for every setup with a pool, a router and two or more devices, and every prompt that is split and admitted: some run ends idle with each budget wrapped around to minus one share |
| `Starvation.OverdraftStarves` | src/gpu/gpu_router.cpp:81-111 | if the totals plus that share are at most the word size, then in every continuation no request is queued, active or finished ever again |
| `Vetting.BudgetsReturnIff` | src/scheduler/scheduler.cpp:225-231 | the budgets return to zero in every run if and only if the router does not split over a pool, or the limits let nothing through, or no split prompt that is admitted in the idle state has a share that shows in a counter |
| `Bookkeeping.EveryRequestInOnePlace` | src/scheduler/scheduler.cpp:402-589 | a request that is not rejected is in exactly one of: being submitted, queued, in hand, active, finished; a rejected one in none |
| `Bookkeeping.RegistryExact` | src/scheduler/request_registry.cpp:9-29 | the registry is exactly the accepted, unfinished requests |
| `Bookkeeping.QueueAndLimits` | src/scheduler/scheduler.cpp:145-152 | requests leave the queue in push order, the active list respects its limit, and queue plus submitting threads never exceed the limit plus threads minus one |
| `QueueBound.QueueBoundAttained` | src/scheduler/scheduler.cpp:65-100 | for every limit, every number of threads and every length that is admitted when everything is free, some interleaving reaches that bound |
| `QueueBound.QueueStaysIff` | src/scheduler/scheduler.cpp:65-100 | the queue stays within its limit in every run if and only if at most one thread submits, or the limit is zero, or no length is ever admitted |
| `Bookkeeping.CountersExact` | src/scheduler/scheduler.cpp:506-589 | each counter counts the requests with its final status, each once, and together they count the finished requests |
| `Locality.FinishedForever` | src/scheduler/scheduler.cpp:506-589 | a finished request is never touched again: status, output, memory and accepted events stay, over every continuation |
| `Locality.StepLocal` | src/scheduler/scheduler.cpp:402-504 | a step leaves every request but the one it works on as it is |
| `Drain.StepLowers` | src/scheduler/scheduler.cpp:402-504 | every step but a new request keeps a measure of the remaining work or lowers it, and lowers it if it does work |
| `Drain.DrainsInBoundedWork` | src/scheduler/scheduler.cpp:402-504 | an interleaving without new requests contains at most that many steps that do work |
| `Drain.DecodeThreadNeverStuck` | src/scheduler/scheduler.cpp:402-504 | in every reachable state the decode thread can take a step |
| `Drain.DrainsToIdle` | src/scheduler/scheduler.cpp:402-504 | from every reachable state the decode thread alone reaches a state with nothing left to do |
| `Drain.DrainedIsClean` | src/scheduler/scheduler.cpp:506-602 | then every request ever made has its final status, the registry is empty and no allocation id is live |
| `Drain.DrainedBudgets` | src/scheduler/scheduler.cpp:591-602 | and no budget is reserved or charged, but for what failed prefills of split requests released twice from a pool |
| `Delivery.StreamContract` | src/scheduler/scheduler.cpp:352-376 | the stream is first in first out and bounded, counts its drops, carries at most one terminal event, at the end; without drops it begins with every token of the output, with its id and text, in order; a closed stream belongs to a request with its final status |
| `Delivery.StopsOnTime` | src/scheduler/scheduler.cpp:378-400 | generation ends at the first token boundary where the length is reached, the token is one of the two stop tokens or the text ends with a stop sequence of the request, never later; the reason is Length exactly at the limit, otherwise Stop; the kept text is what the tokens spell, without the first matching stop sequence when only that one ended it |
| `Endings.LastWord` | src/scheduler/scheduler.cpp:506-589 | in every reachable state an accepted event that is not a token is the completion with the finish reason of a completed request, or the failure with the recorded error of a failed one; an error is recorded exactly for a failed request; without drops a closed stream has that event right after all the tokens |
| `Endings.LateCancel` | src/scheduler/scheduler.cpp:254-257 | a cancellation between the check of the decode loop and the decode step ends the request without a token, as completed for no reason |
| `System.ClampMeaning` | src/api/routes.cpp:174-208 | a request passes exactly when there is room for one token, and gets the smaller of what it asked for and the room |
| `Scheduler.Scheduler.constructor` | src/scheduler/scheduler.cpp:20-42 | a new scheduler over any unused budgets and allocator is in a reachable state |
| `Scheduler.StartsClean` | src/kvcache/kv_allocator.cpp:392-424 | for all limits, distinct devices and sizes there is an initial state with the contiguous allocator and one with a carved pool |
| `Scheduler.Scheduler.Submit` | src/scheduler/scheduler.cpp:60-112 | accepted exactly when the prompt leaves room in the context, the queue is not full, and router and allocator have room for prompt and output; then queued last and registered, else rejected for want of resources with queue and registry unchanged; what it asked for is on record and nothing produced yet; refused as invalid, and nothing recorded, when the prompt leaves no room |
| `Scheduler.Scheduler.Cancel` | src/scheduler/request_registry.cpp:57-66 | a registered request is marked cancelled; an unknown one changes nothing |
| `Scheduler.Scheduler.Prefill` | src/scheduler/scheduler.cpp:175-252 | the request is ready to decode with a cache as long as its prompt; or it is about to fail, exactly with the allocator's error or else the one of reading the prompt; the round-robin counter moves exactly for a routed unsplit request |
| `Scheduler.Scheduler.FreeResources` | src/scheduler/scheduler.cpp:591-602 | if the handle is valid the budget of its devices is released and the cache given back, otherwise nothing changes; no other request changes |
| `Scheduler.Scheduler.Finish` | src/scheduler/scheduler.cpp:506-589 | a finished request is Completed with its reason and the event Complete of that reason, a failed one Errored with the event Failed of its error, which is recorded; then the stream is closed; memory as released, out of the active list and the registry, one counter up by one, all other requests unchanged |
| `Scheduler.Scheduler.Admit` | src/scheduler/scheduler.cpp:453-504 | the front of the queue becomes active, or it fails and is counted; it fails exactly if a deadline has passed, the allocator refuses or the prompt cannot be read, and that error is recorded |
| `Scheduler.Scheduler.ProcessQueue` | src/scheduler/scheduler.cpp:453-504 | takes requests from the front until the queue is empty or the active list is full |
| `Scheduler.Scheduler.Advance` | src/scheduler/scheduler.cpp:424-449 | decided in this order: a cancelled request completes with Stop, a late one fails with Timeout, a faulty step with its error; otherwise exactly the sampled token and its text are recorded and pushed, one cache position is used, and the request completes exactly if it has to stop there, with Length at the limit and Stop otherwise; no other request changes |
| `Scheduler.Scheduler.Sweep` | src/scheduler/scheduler.cpp:407-449 | every request that was active gets exactly one such turn, and no other request any |
| `Scheduler.Scheduler.Pass` | src/scheduler/scheduler.cpp:402-451 | a pass that finds something to do leaves less to do, one that finds nothing changes nothing |
| `Scheduler.Scheduler.DecodeLoop` | src/scheduler/scheduler.cpp:402-451 | after more passes than the measure, queue and active list are empty and no budget is charged, but for what was released twice |
| `Routing.RouteShares` | src/gpu/gpu_router.cpp:27-79 | a request is split exactly when it is long and there are two devices; pipeline is never chosen; the share by decision equals the share by device list |
| `Routing.ReservationsUndone` | src/gpu/gpu_router.cpp:113-177 | for every decision of `route`, unreserve undoes reserve, and free undoes reserve and commit, in every budget state |
| `Routing.BestIsLargest` | src/gpu/gpu_router.cpp:43-56 | the first of the devices with most available memory; the fallback only when none has any |
| `Routing.RoutePicks` | src/gpu/gpu_router.cpp:27-79 | an unsplit request goes to the first device with most available memory, or to the next one in turn if none has any |
| `Routing.CanPlaceMeaning` | src/gpu/gpu_router.cpp:81-111 | an unsplit request is accepted exactly if some device has room for it, a split one exactly if every device has room for the share the allocator asks for, or for an equal share if it asks for nothing |
| `Routing.PlacedOnOneIff` | src/gpu/gpu_router.cpp:43-111 | with one budget per device, an unsplit request is accepted if and only if the device that `route` then picks has room, and so, for sizes that do not wrap a counter, if and only if the reservation there keeps every budget within its total |
| `Routing.PlacedOnAllIff` | src/gpu/gpu_router.cpp:81-111 | and a split one, for shares that do not wrap a counter, if and only if reserving the share the allocator asks for on every device keeps every budget within its total |
| `Routing.PlacedOnOneFits` | src/gpu/gpu_router.cpp:81-111 | if `can_place` accepts an unsplit request and nothing is reserved in between, routing and reserving it keeps every budget within its total |
| `Routing.SplitShare` | include/kvcache/kv_allocator.hpp:71-91 | the router's share of a split request is at least the allocator's bytes per device, equal exactly when the device count divides the KV heads |
| `Routing.ModelBytes` | include/scheduler/scheduler.hpp:24 | on a single device the router's estimate is the allocator's size, 256 KiB a token |
| `Routing.SplitAdmissionSoundIff` | src/gpu/gpu_router.cpp:81-127 | accepting a split request implies that its reservation fits if nothing is reserved in between, in every budget state, if and only if the device count divides the KV heads |
| `Overrun.AcceptedTogether` | src/scheduler/scheduler.cpp:159-193 | two requests of one length accepted before either is prefilled: the second reservation overruns a budget if and only if with one charged there is no room for the other; for a split length, if and only if twice its share exceeds some total |
| `Overrun.BudgetsWithinIff` | src/scheduler/scheduler.cpp:159-193 | with one active request at a time and budgets that return, every budget is within its total in every reachable state if and only if the shares of all admitted split lengths are within the totals |
| `Overrun.DividingSharesFit` | src/gpu/gpu_router.cpp:81-127 | which they are when the device count divides the KV heads |
| `GpuRouter.Router.constructor` | src/gpu/gpu_router.cpp:8-25 | one empty budget for each device |
| `GpuRouter.Router.Route` | src/gpu/gpu_router.cpp:27-79 | the loop computes the decision, and the round-robin counter moves exactly for unsplit requests |
| `GpuRouter.Router.CanPlace` | src/gpu/gpu_router.cpp:81-111 | the loops answer whether all devices fit the share of a split request, or some device fits an unsplit one |
| `GpuRouter.Router.Reserve` | src/gpu/gpu_router.cpp:113-127 | each listed device reserves the share, all others stay |
| `GpuRouter.Router.Commit` | src/gpu/gpu_router.cpp:129-145 | each listed device moves the share from reserved to used |
| `GpuRouter.Router.Unreserve` | src/gpu/gpu_router.cpp:147-161 | each listed device gives back the reserved share |
| `GpuRouter.Router.Free` | src/gpu/gpu_router.cpp:163-177 | each listed device gives back the used share |
| `Contiguous.AllocationAccount` | src/kvcache/kv_allocator.cpp:66-169 | an allocation counts exactly the bytes its handle owns on each device; a failed one exactly what it leaves behind; used + free = total |
| `Contiguous.SingleOutcome` | src/kvcache/kv_allocator.cpp:296-367 | an allocation on the configured device succeeds exactly if the device is managed, has the bytes free and grants them; it is refused for want of resources exactly if they are not free; the handle is the one the device granted |
| `Contiguous.SplitOutcome` | src/kvcache/kv_allocator.cpp:66-169 | one over several devices is refused for the first that is not managed or lacks the bytes, or else for the first that grants nothing; otherwise its handle has what each device granted |
| `Contiguous.FailureLeaksIff` | src/kvcache/kv_allocator.cpp:105-151 | a failed multi-device allocation changes a counter exactly when the check passed, some but not all devices granted memory, and there was anything to count |
| `Contiguous.FreeAccount` | src/kvcache/kv_allocator.cpp:171-222 | freeing gives back exactly the bytes the handle owns and clears the handle |
| `ContiguousAllocator.Allocator.constructor` | src/kvcache/kv_allocator.cpp:19-59 | every managed device is all free |
| `ContiguousAllocator.Allocator.Allocate` | src/kvcache/kv_allocator.cpp:296-367 | new state and result of a single-device allocation, with every error branch |
| `ContiguousAllocator.Allocator.AllocateTensorParallel` | src/kvcache/kv_allocator.cpp:66-169 | the check loop and the allocation loop, up to a device that refuses |
| `ContiguousAllocator.Allocator.Free` | src/kvcache/kv_allocator.cpp:171-222 | new state and cleared handle |
| `ContiguousAllocator.Allocator.CanAllocate` | src/kvcache/kv_allocator.cpp:224-231 | answers whether a single-device allocation would succeed when the device grants memory |
| `ContiguousAllocator.Allocator.Reset` | src/kvcache/kv_allocator.cpp:281-293 | all free again, whatever the order in which the map lists its devices |
| `Pool.AllocateSound` | src/kvcache/kv_allocator.cpp:426-495 | allocation keeps the pool invariant, issues a fresh id and a handle with its slot's addresses, and moves no slot and no other allocation |
| `Pool.AllocateFromPool` | src/kvcache/kv_allocator.cpp:426-469 | whatever the device grants: if the length fits a slot and one is free, the allocation is from the pool, takes the slot on top of the stack, counts one slot more on that device and takes no device memory |
| `Pool.AllocateBesidePool` | src/kvcache/kv_allocator.cpp:471-483 | otherwise no slot is taken; it takes its bytes from the configured device if that is allowed and granted, and the error says which was not |
| `Pool.AllocateAcross` | src/kvcache/kv_allocator.cpp:485-495 | an allocation over several devices never takes a slot; it succeeds exactly if every device grants memory, and its handle has what each granted |
| `Pool.AllocateUndone` | src/kvcache/kv_allocator.cpp:426-529 | freeing an allocation at once restores the stacks, the slots, the counters and the live allocations, and for a single device the memory taken |
| `Pool.FreeSound` | src/kvcache/kv_allocator.cpp:497-529 | freeing keeps it and removes that id only; an unknown id changes nothing; only a split handle stays valid |
| `Pool.FreeReturnsSlot` | src/kvcache/kv_allocator.cpp:497-529 | the slot of a freed allocation goes back on top of its stack, and no other pool changes |
| `Pool.AllocateCounts` | src/kvcache/kv_allocator.cpp:426-495 | the used bytes of a pool grow by one slot for an allocation from it, and by nothing otherwise |
| `Pool.FreeMemory` | src/kvcache/kv_allocator.cpp:497-529 | freeing an overflow or split allocation gives back the memory of its first device's pointers, and the handle still names the rest |
| `Pool.FreeCounts` | src/kvcache/kv_allocator.cpp:497-529 | they fall by one slot exactly when a live slot of that pool is freed |
| `Pool.ResetSound` | src/kvcache/kv_allocator.cpp:582-599 | so does reset, and ids are not reused |
| `Pool.CarveSound` | src/kvcache/kv_allocator.cpp:616-657 | a carved pool satisfies the invariant with every slot free; slot i is the i-th piece of each half, and the last slot is on top |
| `Pool.LiveRangesDisjoint` | src/kvcache/kv_allocator.cpp:426-469 | in every run two live pool allocations of a device own disjoint K and V ranges, inside the granted halves and long enough for their handles |
| `Pool.StaleFreeIsHarmless` | src/kvcache/kv_allocator.cpp:497-529 | freeing a copy of a handle that was freed, or that outlived a reset, changes nothing at any later time |
| `PooledAllocator.Allocator.Carve` | src/kvcache/kv_allocator.cpp:616-657 | the loop that divides the two halves into slots |
| `PooledAllocator.Allocator.Initialize` | src/kvcache/kv_allocator.cpp:392-424 | a sound pool of free slots on every device, carved from what that device granted, or no pool at all when a device refuses |
| `PooledAllocator.Allocator.Allocate` | src/kvcache/kv_allocator.cpp:426-483 | top of the free stack whenever there is a free slot of the length asked for, and then no device memory; otherwise memory outside the pool, or an error |
| `PooledAllocator.Allocator.AllocateTensorParallel` | src/kvcache/kv_allocator.cpp:485-495 | several devices always bypass the pool |
| `PooledAllocator.Allocator.Free` | src/kvcache/kv_allocator.cpp:497-529 | new state and handle |
| `PooledAllocator.Allocator.CanAllocate` | src/kvcache/kv_allocator.cpp:531-544 | answers whether a single-device allocation would succeed when the device grants memory |
| `PooledAllocator.Allocator.Reset` | src/kvcache/kv_allocator.cpp:582-599 | every slot free, whatever the order in which the map lists its devices |
| `Allocator.CanAllocateMeans` | src/kvcache/kv_allocator.cpp:224-231 | for both allocators, `can_allocate` holds if and only if the single-device allocation succeeds |
| `Allocator.SplitMeans` | src/kvcache/kv_allocator.cpp:66-169 | an allocation over several devices succeeds exactly if every device grants memory and, for the contiguous allocator, has the bytes free |
| `Allocator.AllocateEffect` | src/kvcache/kv_allocator.cpp:66-169 | both allocators alike: a success adds one fresh live id for the length asked, a failure adds none, and no other handle is affected |
| `Allocator.AllocateBytes` | src/kvcache/kv_allocator.cpp:426-495 | both alike: the used counter of a device grows by exactly what the new handle owns there, bytes or a slot, and by nothing on a failure apart from the leak |
| `Allocator.AllocateKeepsBytes` | src/kvcache/kv_allocator.cpp:426-495 | what other handles own stays |
| `Allocator.FreeEffect` | src/kvcache/kv_allocator.cpp:171-222 | both alike: freeing removes that id only, and clears the handle unless it is a split handle of the pool |
| `Allocator.FreeBytes` | src/kvcache/kv_allocator.cpp:497-529 | both alike: the used counter of a device falls by exactly what the handle owned there |
| `Allocator.FreeAgain` | src/kvcache/kv_allocator.cpp:497-529 | freeing a split handle of the pool a second time changes no allocation and leaves it valid again |
| `Stream.RunSound` | include/scheduler/request.hpp:32-100 | over any pushes, pops and closes: popped then queued is accepted, in order; bounded; attempts are popped, queued or dropped; nothing is accepted after closing |
| `Stream.RoomAccepts` | include/scheduler/request.hpp:38-49 | an open queue with room for all that a run offers accepts all of it, in order, and drops nothing |
| `Stream.FullDrops` | include/scheduler/request.hpp:38-49 | a full queue that nobody reads drops all that a run offers, and counts it |
| `TokenQueue.Queue.Push` | include/scheduler/request.hpp:38-49 | an open queue with room accepts, and appends; a full one drops and counts; a closed one refuses |
| `TokenQueue.Queue.Pop` | include/scheduler/request.hpp:59-73 | the oldest event, or nothing when empty |
| `TokenQueue.Queue.Close` | include/scheduler/request.hpp:76-80 | closes and keeps the queued events |
| `Client.LeavesWithEverythingIff` | src/api/routes.cpp:280-381 | a client that left, by whatever exit, has read every event if and only if at its last poll the end had been announced and nothing stayed queued; so always after a terminal event |
| `Sessions.StepView` | src/api/routes.cpp:280-381 | every step of the scheduler is, for the client of one request, an act of the producer protocol or nothing |
| `Client.ReadsAllVisibly` | src/api/routes.cpp:280-381 | that is, if and only if it left on the terminal event, or that event was dropped and nothing is left in the queue; while nothing is dropped, exactly the clients that leave on the terminal event have read everything |
| `Sessions.ClientReadsAllIff` | src/api/routes.cpp:280-381 | both equivalences for the client of any request in any interleaving of the scheduler's threads and the client from the start |
| `Client.ClosedMeansLeaving` | src/api/routes.cpp:280-287 | once the queue is closed the client leaves within two steps more than the queue holds |
| `Client.LateTokenMissed` | src/api/routes.cpp:280-287 | a client that finds the request terminal after a poll that timed out may miss the last token and the end |
| `LateClient.LateTokenMissed` | src/api/routes.cpp:280-287 | for every setup that serves requests of some length, a run of the scheduler and a client in which the client leaves without the only token |
| `Client.Relay` | src/api/routes.cpp:280-381 | what the loop has written spells the tokens it has read, up to a write that failed; all accepted ones if it left on a terminal event |
| `StopChecker.CheckMeaning` | src/core/stop_checker.cpp:10-118 | stops exactly when the length is reached, the last token is a stop token, or the text ends with a non-empty stop sequence; the reason is Length for the first and Stop for the others; the match is the first sequence in the list that the text ends with if nothing else ended generation, and empty otherwise |
| `StopChecker.EndsWithMeaning` | src/core/stop_checker.cpp:10-118 | to end with a sequence is to be some text followed by it |
| `Generation.AdvanceFaithful` | src/scheduler/scheduler.cpp:335-400 | the token and its text are recorded, and still: no earlier boundary called for a stop, halted exactly if this one does, pieces spell text and cut sequence |
| `Generation.GenerateFaithful` | src/scheduler/scheduler.cpp:254-400 | so for all tokens the model could produce; the output grows by the first of them, by all of them unless it halts |
| `Generation.GenerateFirst` | src/scheduler/scheduler.cpp:254-400 | from the start, for any tokens offered: the output is their shortest prefix that calls for a stop, or all of them, and its text is what they spell without the stop sequence that ended it |
| `Bpe.GetPairs` | src/tokenizer/bpe.cpp:23-33 | the adjacent pairs, in order |
| `Bpe.ApplyBpe` | src/tokenizer/bpe.cpp:36-92 | terminates for every token and table; the pieces concatenate to the token, are bytes or built by merges of the table, and no adjacent pair has a usable rank |
| `Bpe.EncodeStep` | src/tokenizer/bpe.cpp:48-90 | one round: of the usable pairs the first of lowest rank is joined where it first occurs, and then everywhere behind |
| `Bpe.MergeRemoves` | src/tokenizer/bpe.cpp:68-82 | a pass removes every occurrence of its pair |
| `Bpe.MergeLeftmost` | src/tokenizer/bpe.cpp:68-82 | a pass joins the first occurrence of its pair and goes on behind it |
| `Bpe.BestMeaning` | src/tokenizer/bpe.cpp:51-66 | the chosen pair is usable and of lowest rank; none is chosen only if none is usable |
| `Bpe.BestIsFirstLowest` | src/tokenizer/bpe.cpp:51-66 | of several pairs with the lowest rank it is the first in the word |
| `Bpe.EncodingIsLocal` | src/tokenizer/bpe.cpp:36-92 | where the encoding has an end of a piece, both sides are encoded as they would be alone |
| `Bpe.PiecesAreStable` | src/tokenizer/bpe.cpp:36-92 | every piece of an encoding is its own encoding |
| `Bpe.EqualRanksNotLocal` | src/tokenizer/bpe.cpp:51-66 | with two tied pairs the first one in the word wins, and the encoding is not local |
| `Bpe.LoadMerges` | src/tokenizer/tokenizer.cpp:163-175 | each pair gets the rank of its last line, so no two pairs share a rank |
| `Tokenizer.Tokenizer.constructor` | src/tokenizer/tokenizer.cpp:180-205 | no single byte is a key of the built-in vocabulary; the three special strings are registered |
| `Tokenizer.Tokenizer.Tokenize` | src/tokenizer/tokenizer.cpp:207-247 | chunk by chunk gives the same ids as byte by byte, whatever the order in which the map lists the special strings |
| `Tokenizer.TokenizeChunk` | src/tokenizer/tokenizer.cpp:249-265 | one id per byte: that of the vocabulary, or the byte itself |
| `Tokenizer.SpecialSplits` | src/tokenizer/tokenizer.cpp:207-247 | tokenize(a + special + b) = tokenize(a) + [id] + tokenize(b) for all a and b |
| `Tokenizer.IdsSpellText` | src/tokenizer/tokenizer.cpp:180-265 | with the built-in vocabulary the ids spell the text |
| `Tokenizer.IdsDetermineText` | src/tokenizer/tokenizer.cpp:180-265 | so no two texts have the same ids |
| `PromptTemplate.BuildFormattedPrompt` | src/tokenizer/prompt_builder.cpp:90-134 | the loops build the default turn, the turns and the generation prompt, or pass a raw prompt through |
| `PromptTemplate.PromptText` | src/tokenizer/prompt_builder.cpp:71-134 | the whole prompt written out, marker by marker: a first message with a marker alone if that is allowed, or else the default system turn if no message is a system message, each message under its role, and the opening of the answer if asked for |
| `PromptTemplate.TemplateRoundTrip` | src/tokenizer/prompt_builder.cpp:71-134 | a parser recovers roles, contents, default system turn and generation prompt for all contents without the end marker |
| `PromptTemplate.ReadBackIff` | src/tokenizer/prompt_builder.cpp:71-134 | and this parser does so only for those |
| `Ambiguity.FormatAlikeIff` | src/tokenizer/prompt_builder.cpp:71-134 | two turn lists format alike exactly when they agree after cutting at every end marker that a newline and a turn header follow, and both or neither ask for generation |
| `PromptTemplate.EndMarkerForgesTurn` | src/tokenizer/prompt_builder.cpp:71-82 | a content with an end marker formats like two messages |
| `PromptTemplate.TurnTokens` | src/tokenizer/prompt_builder.cpp:71-82 | the markers of a turn are tokens of their own, whatever its content |
| `Cancellation.CallbacksRunOnce` | include/utils/cancellation.hpp:17-43 | in every interleaving a callback runs at most once, only when registered and cancelled, and exactly once when the first cancel has finished |
| `Cancellation.CancellationToken.Cancel` | include/utils/cancellation.hpp:17-27 | the first call runs every stored callback once, later calls none |
| `Cancellation.CancellationToken.OnCancel` | include/utils/cancellation.hpp:36-43 | runs the callback at once if cancelled, stores it otherwise |
| `Sampler.SelectNucleus` | src/core/sampler.cpp:82-123 | always reaches top_p, with the shortest non-empty prefix; no dropped token has a larger logit than a kept one |
| `Sampler.TruncatedNucleus` | src/core/sampler.cpp:82-123 | the nucleus of the candidates is a prefix of the nucleus of the vocabulary, the same when all fit, and otherwise exactly when it fits and its last token is still needed |

## Left out

- HTTP, JSON, logging, configuration loading and the HTTP sinks: plumbing; what matters of it is the cancellation and the client that leaves.
- CUDA calls, backends, device discovery, clocks and random numbers: inputs of the steps; only timed out or not, granted or not, and the sampled token matter.
- Float rounding: sampling is over the reals, with any positive function for the exponential.
- Behaviour after `stop()`, which finalises nothing, and the `Cancelled` state, which the code never sets.
- The deprecated callbacks `on_token`, `on_complete` and `on_error`: every request has a token queue.
- Gauges, histograms, and the peak and allocation counts of the memory statistics: easy members or no invariant.
- Setting a status together with entering the registry (`submit`) or the active list (`process_queue`) is one step; the code does the two one after the other.
- The error field of a rejected request: that error is the result of `submit`; the field holds the errors of `fail_request`.
- Request ids are numbers, unique by assumption; overflow of `prompt + max_tokens` in 32 bits and of one request's byte size in 64 bits is not modelled.
- Scheduler.Scheduler.Submit: a method of the scheduler class is what its thread does without interruption; interleavings are in the step system.
- Bpe.EncodingIsLocal: stated for tables without equal ranks, which is what `load_merges` builds; with equal ranks it is false in general, and which tables with equal ranks still satisfy it is not characterised.
- Overrun.BudgetsWithinIff: for one active request at a time; with more, the case of two requests of one length is decided (`Overrun.AcceptedTogether`), and sets of requests of different lengths are not.
- `pre_tokenize`, `decode`, `decode_bytes`, `encode` flags: unused by `tokenize`, or not an inverse of it.
- Sampler penalties, temperature, top-k and the draw itself: single loops without a cross-function property.
- `reset()` of the cancellation token, and callbacks that call back into it.
- `stats()` of the allocators, memory budgets, the request validator, the batch coordinator and the unused stream formatter: single-branch facts or placeholders.
