# VeXact: what its output may depend on

VeXact serves language-model requests with continuous batching, paged caches, preemption and pipeline
parallelism, and promises that none of this is visible in a request's tokens. This project models the
code that decides it and proves the promise. `dafny verify dfyconfig.toml` checks everything.

**The engine** (`Transformer`, `Requests`, `Pages`, `Cache`, `Scheduling`, `Device`, `Engine`, and the proofs
in `SchedulingProofs`, `DeviceProofs`, `Invariants`, `PhaseProofs`, `EngineProofs`, `Runs`, `SchedulingLaws`,
`Termination`). A hidden state is a term over embeddings and layers, so equal terms are bitwise equal results;
a store maps layers and physical slots to terms; the sampler is a function of the last hidden state, the
sampling position, sampling parameters (those of the first request of a batch, as in the code) and the
request's own seed. `Scheduling` gives `schedule` and `update` as functions of the scheduler's state, `Device`
the forward pass of a packed batch through block tables, and `Engine` the driver loop over a ring of stages.
`Runs` states the promises for every history of submissions and turns. The work of a batch is written at the
turn that issues it and its output joins the queue of outputs on their way to rank 0: `Pipeline` proves that
every run of the real arrangement, with ranks at their own speeds, does what this model does.

**The objects** (`RequestObject`, `PageManager`, `SchedulerObject`, `DriverObject`) are the request, the
page manager, the scheduler and the driver as classes updated in place by the loops of the code, each
proved against the functions of `Scheduling` and `Engine`. `DriverObject.Serve` carries the promise over
to them.

**Around a batch**: `GenContext` fills the packed arrays, `GraphDispatch` chooses and pads a captured
graph, `PaddedForward` runs the padded arrays through all layers, `PackedRuns` shows that every batch of every
run fits.

**The pipeline**: `Stages` (each stage with the cache of its own layers), `Ring` (the blocking ring protocol,
any number of ranks), `Pipeline` (scheduler, ring and stages composed; a refinement of the engine) and `Wiring`
(who shares which process group).

**The kernels** as loop nests over abstract arithmetic, every grid run in an arbitrary order: `Swizzle` and
`Gemm`, `Softmax` (one row over the reals), `Attention` and `AttentionKernel` (bit for bit, paged and
packed), `AttentionReals` (what the grid stores is softmax attention), `AttentionLayer` (it depends on the store as
the layer of the engine does), `FlexMask`, `MoeIndex`, `MoeSlots` (all interleavings of the atomic updates), `MoeDispatch`,
`GroupGemm`.

**Sampling and weights**: `Sampler` (top-k and top-p) and `WeightTransfer` (the bucketed protocol between
two objects that share one buffer).

What is assumed of users and of the configuration, once: prompts are not empty; `page_size`,
`max_num_batched_tokens`, `max_num_seqs` and the number of stages are at least 1; the request queue has no
bound, since a preempted request is put back with a blocking put; request ids are unique, so that a
dictionary by id is a list of distinct objects; `output_scores`, which only affects log-probabilities, is the
same in a batch. That sampling parameters are the same in a batch, as `_select_tokens` asserts, is not assumed:
the engine stops exactly at the first batch where they differ (`Runs.SchedulingTransparency`). No property
assumes that prompts are short, that pages suffice or that prefill is chunked, except where its statement says so.

Where code and text disagree the code is followed:

- The comment on `slot_mapping` calls -1 invalid (`kv_cache_context.py:71-79`); the store kernel skips such
  rows (`kv_cache_context.py:271-272`), and graph padding relies on it.
- The error text of `build_capture_sizes` allows None (`cudagraph_utils.py:90-91`); the code compares it
  with 0 first, so only positive sizes are accepted.
- Capturing raises for a size above the token budget while the sizes end at the next power of two, so graphs
  work if and only if the budget is a power of two: `GraphDispatch.CaptureFitsBudget`.
- Chunk reassembly and packing promise any tensors, but a packed tensor is reinterpreted at its byte offset,
  which raises unless the offset is a multiple of the element size. `WeightTransfer.Sender.SendWeights` proves
  that this is the exact condition, `WeightTransfer.AlignedPlaces` puts it in byte offsets,
  `WeightTransfer.MixedElementSizesFail` gives an input that violates it, and `WeightTransfer.CommonUnitAligns` a
  condition that always meets it.
- With `max_M` equal to the number of tokens, as in the backward pass, a router that picks an expert twice for
  one token can leave rows unwritten: `GroupGemm.LaunchCoversAll` says exactly when every cell is written,
  `GroupGemm.RepeatedChoiceIsMissed` gives inputs for which it is not.
- The flex mask for keys without pages builds its mapping of packed queries whenever there are several sequences,
  whatever the flex batch size (`flex_attention.py:97-125`), while the paged path only does so for a batch size of 1
  (`flex_attention.py:231-246`), and it compares the index among all packed keys with a position in one sequence.
  `FlexMask.LogicalMaskIsCausal` gives the exact condition under which it is the causal mask that its documentation
  describes, `FlexMask.LongerEntryLosesKeys` and `FlexMask.PackedSeesForeignKeys` two inputs for which it is not.
- A request whose text can outgrow the page cache never finishes, and nothing rejects it at submission:
  `Termination.EveryRequestFinishes` gives the exact condition.

## Model

| member | source | states |
|---|---|---|
| `DriverObject.Serve` | vexact/worker/driver_worker.py:56-79 | the loop over the scheduler, request and page-manager objects does, for every history of submissions and turns, exactly what the model run does, ends exactly when that is stuck, never waits for an output that is not coming, and every request object in its results carries the tokens of the plain one-request loop |
| `DriverObject.DriverWorker.Turn` | vexact/worker/driver_worker.py:56-79 | one turn over the objects is one cycle of the model, results included, or ends the loop where the model is stuck |
| `DriverObject.DriverWorker.Infer` | vexact/inferencer/inferencer.py:131-198 | rank 0 issues the batch, and receives the oldest outstanding output if one is due; refused exactly for a batch whose sampling parameters differ |
| `SchedulerObject.Scheduler.Schedule` | vexact/core/scheduler.py:108-191 | the whole new scheduler state is the specified one; both returned batches list exactly the unfinished requests of their slots, in slot order; no object is ever in two places |
| `SchedulerObject.Scheduler.PlanActive` | vexact/core/scheduler.py:119-134 | the loop over a copy of the slot, skipping preempted requests, plans exactly the requests that an index over the changing slot would |
| `SchedulerObject.Scheduler.ExtendOrPreempt` | vexact/core/scheduler.py:253-277 | extension, eviction of the least advanced request, and the retry: new state, result, and who was evicted |
| `SchedulerObject.Scheduler.PreemptRequest` | vexact/core/scheduler.py:279-288 | pages back to the pool, request folded and at the end of the queue, slot order of the others kept |
| `SchedulerObject.Scheduler.LeastProgressOf` | vexact/core/scheduler.py:267 | the first request with the least computed tokens |
| `SchedulerObject.Scheduler.AdmitWaiting` | vexact/core/scheduler.py:146-181 | the admission loop with its three exits reaches the specified state |
| `SchedulerObject.Scheduler.ActivateRequest` | vexact/core/scheduler.py:237-251 | allocation for the input alone; on failure nothing changes |
| `SchedulerObject.Scheduler.Update` | vexact/core/scheduler.py:211-235 | finished requests leave the slot for the results in order, all others keep their place and get their token; whole new state |
| `SchedulerObject.Scheduler.FinalizeRequest` | vexact/core/scheduler.py:290-295 | pages back to the pool, request finished and out of the slot |
| `SchedulerObject.Scheduler.SubmitRequest` | vexact/core/scheduler.py:93-106 | the request is at the end of the queue, everything else unchanged |
| `SchedulerObject.AfterEviction` | vexact/core/scheduler.py:121-124 | after any eviction the rest of the copied list, as far as it is still active, is what remains to be planned |
| `RequestObject.InferenceRequest.ShouldFinish` | vexact/core/request.py:104-127 | EOS, maximum length or maximum new tokens; for an accounted request that nothing has stopped before, exactly when its newest token is the first that is EOS or reaches a limit |
| `Transformer.HiddenTellsText` | vexact/inferencer/inferencer.py:260-285 | a hidden state behind a layer is the same for two texts only if they are the same text; before the first layer it shows the last token and its position |
| `Transformer.ReferenceIsOutput` | vexact/core/request.py:104-127 | the plain loop gives the one sequence in which each token is sampled after the prompt and the tokens before it, and which ends at its first token that is EOS or reaches one of the two limits |
| `Transformer.LongestIsReached` | vexact/core/request.py:104-127 | without an EOS the smaller limit is reached exactly |
| `RequestObject.InferenceRequest.Preempt` | vexact/core/request.py:129-141 | every field after preemption; generated tokens kept |
| `RequestObject.InferenceRequest.Finish` | vexact/core/request.py:143-148 | finished, without pages |
| `PageManager.KVCacheManager.AllocateBlocks` | vexact/batch_invariant_ops/kv_cache_context.py:174-202 | removing the lowest free page again and again takes exactly the lowest pages in increasing order; None and no change when short |
| `PageManager.KVCacheManager.FreeBlocks` | vexact/batch_invariant_ops/kv_cache_context.py:212-217 | exactly the allocated ones among the given pages become free |
| `Pages.LowestIsIncreasing` | vexact/batch_invariant_ops/kv_cache_context.py:195-200 | pages are given out in increasing order and below every page left |
| `Requests.FoldKeeps` | vexact/core/request.py:129-141 | folding keeps the input equal to the prompt plus all generated tokens, each once, and keeps the plain loop's outcome |
| `Requests.AbsorbKeeps` | vexact/core/scheduler.py:211-235 | one right token either leaves the request at rest with `num_computed == prompt + generated - 1`, or completes exactly the reference output |
| `Pages.AllocateConserves` | vexact/batch_invariant_ops/kv_cache_context.py:174-202 | allocation keeps every page either free or in one table once |
| `Pages.ReleaseConserves` | vexact/batch_invariant_ops/kv_cache_context.py:212-217 | freeing keeps every page either free or in one table once |
| `Pages.SlotsMeet` | vexact/inferencer/inferencer.py:223-228 | two positions share a slot only if they share page and offset |
| `SchedulingProofs.PlanShape` | vexact/core/scheduler.py:193-209 | a planned step of a resting request has at least one token, fits the budget and asks for at most one page |
| `SchedulingProofs.RetrySucceeds` | vexact/core/scheduler.py:271-277 | after another request was preempted the retry always finds its page, so the last `return False` is never reached |
| `SchedulingProofs.EvictKeeps` | vexact/core/scheduler.py:279-288 | preempting any request keeps every invariant of the planning loop |
| `SchedulingProofs.PlanNextKeeps` | vexact/core/scheduler.py:119-134 | each turn of the planning loop keeps tables, budgets, pages and the set of requests |
| `SchedulingProofs.AdmitKeeps` | vexact/core/scheduler.py:146-181 | the admission loop keeps them too |
| `SchedulingLaws.FairShareIsLargest` | vexact/core/scheduler.py:139-144 | the fair share is the largest number of average sequences that the slot's part of the free pages holds, or 1 |
| `SchedulingLaws.FairShareMoves` | vexact/core/scheduler.py:139-144 | more free pages never lower it, more used pages never raise it |
| `SchedulingLaws.AdmitTakes` | vexact/core/scheduler.py:146-181 | requests enter from the head of the queue in order, and fewer than the slot has room for only if the queue, the tokens or the pages run out |
| `SchedulingLaws.ScheduleAdmits` | vexact/core/scheduler.py:136-181 | how many requests a turn admits, with and without fair share |
| `SchedulingLaws.PrefillTakesTheRest` | vexact/core/scheduler.py:193-209 | a prefill is left unfinished only with no token of the budget left, and only as the last of its batch |
| `SchedulingLaws.FullBatch` | vexact/core/scheduler.py:110-175 | a turn that preempts nobody plans exactly the tokens missing from the budget, and its batch has all of them if it leaves a prefill unfinished |
| `SchedulingLaws.TurnEvicts` | vexact/core/scheduler.py:253-288 | a turn preempts exactly when the free pages are too few for the next request; the victim is the first with the least progress, planned tokens included, and goes to the end of the queue with everything it has generated |
| `SchedulingLaws.PlanNextPays` | vexact/core/scheduler.py:119-134 | the budget pays exactly for the planned requests, also for those preempted after planning; a request that preempts itself costs nothing |
| `SchedulingLaws.SettlePlaces` | vexact/core/scheduler.py:211-235 | completed requests go to the results and the others stay, both in the order of the batch, each with its own token |
| `SchedulingLaws.UpdatePublishes` | vexact/core/scheduler.py:211-235 | one batch joins the results exactly when a request has completed |
| `PhaseProofs.ScheduleKeeps` | vexact/core/scheduler.py:108-191 | after `schedule` the current batch is ready, within its budgets and all other slots are untouched |
| `PhaseProofs.InferKeeps` | vexact/inferencer/inferencer.py:362-381 | the forward pass completes the caches of its batch, leaves all others intact, and its output answers the batch |
| `PhaseProofs.SettleKeeps` | vexact/core/scheduler.py:211-235 | the positional zip of `update` brings the slot to rest and finishes only reference outputs |
| `EngineProofs.RingTurns` | vexact/core/scheduler.py:182-191 | with several slots the output received answers, request by request, the slot about to be updated |
| `EngineProofs.CycleKeeps` | vexact/worker/driver_worker.py:56-79 | a turn goes on if and only if its batch can be sampled together; then it keeps the invariant and loses no request |
| `EngineProofs.CycleGoes` | vexact/inferencer/inferencer.py:426-437 | requests that are all alike never stop the loop |
| `Device.RowIndex` | vexact/inferencer/inferencer.py:215-246 | where the row of a request's position lies in the packed batch |
| `Device.RowOrigin` | vexact/inferencer/inferencer.py:215-246 | every packed row is some request's row at one of this step's positions |
| `Device.StoreRowsEffect` | vexact/batch_invariant_ops/kv_cache_context.py:260-277 | with distinct slots every row's value is where its slot says and nothing else changed, whatever the order |
| `DeviceProofs.BatchWritesAreDistinct` | vexact/inferencer/inferencer.py:215-228 | the writes of a batch are pairwise distinct and in range |
| `DeviceProofs.ForwardEffect` | vexact/inferencer/inferencer.py:383-397 | through all layers every packed row gets the hidden state of the uncached model on its own prefix, and the store holds exactly these |
| `DeviceProofs.OthersStayCached` | vexact/batch_invariant_ops/kv_cache_context.py:294-314 | live positions of every request outside the batch still read as before |
| `DeviceProofs.TokensAreExpected` | vexact/inferencer/inferencer.py:407-440 | each request past its prefill gets the token that the plain loop samples after its whole text |
| `Runs.SchedulingTransparency` | vexact/core/scheduler.py:108-235 | every history goes on if and only if its batches can be sampled together, always so when all requests are alike; as far as it goes no request is lost or repeated, and every finished request has exactly the tokens of the plain one-request loop, the last of them the first that is EOS or reaches a limit |
| `Runs.UnlikeRequestsStop` | vexact/inferencer/sampler.py:53-66 | two one-token requests meet in the first batch: the engine goes on if and only if they have the same parameters and, when drawing, both a seed or both none |
| `Runs.RunsAgree` | vexact/core/scheduler.py:108-235 | two engines with any configurations and histories give equal tokens to equal requests |
| `Runs.PagedCacheAgrees` | vexact/inferencer/inferencer.py:215-246 | in every reachable state every computed position of every request in every slot reads as a contiguous cache would |
| `Runs.PageConservation` | vexact/batch_invariant_ops/kv_cache_context.py:157-217 | in every reachable state free and allocated pages split the cache and each allocated page is in one table, once |
| `Runs.OwnsExactlyItsPages` | vexact/core/scheduler.py:253-264 | every active request owns exactly ceil(max(input, computed) / page_size) pages |
| `Runs.BatchesFit` | vexact/core/scheduler.py:119-209 | every batch has at least one token per request, is within both budgets, and only its last request may be mid-prefill |
| `Runs.BatchWritesAreSafe` | vexact/inferencer/inferencer.py:215-228 | the writes of every batch are distinct, in range and miss every live position of every request |
| `Runs.OutputMeetsItsBatch` | vexact/core/scheduler.py:182-191 | whenever a batch is due, the oldest outstanding output was computed for exactly its requests in their order |
| `Runs.SlotWaitsForItsOutput` | vexact/core/scheduler.py:185-189 | a slot is unchanged, request by request, until it is due `pp_size - 1` turns later |
| `Runs.RunKeeps` | vexact/worker/driver_worker.py:56-79 | a run goes on exactly while its batches are uniform; then it keeps the invariant and knows exactly the submitted requests |
| `Runs.RunGoes` | vexact/worker/driver_worker.py:56-79 | with requests that are all alike every run goes on |
| `Termination.LoneRequestExtends` | vexact/core/scheduler.py:253-264 | a request alone in the cache that fits it is never out of pages |
| `Termination.TurnDecreases` | vexact/core/scheduler.py:119-180 | with any number of stages every turn with anything to do decreases a five-part measure, whatever is preempted |
| `Termination.EveryRequestFinishes` | vexact/worker/driver_worker.py:56-79 | for any number of stages: every submitted request finishes after finitely many turns if and only if each of them, with the output of its plain loop, fits the cache alone (requests alike, and prefilled in chunks or with texts within the token budget) |
| `Termination.LongestFits` | vexact/core/request.py:104-127 | a test before the run: a request fits if the longest output that its two limits allow does |
| `GenContext.Prepare` | vexact/inferencer/inferencer.py:200-298 | the arrays say of every packed row its token, position and slot, and of every request its length, table and start |
| `GenContext.SlotMapping` | vexact/inferencer/inferencer.py:215-228 | the filled slot mapping is the slot of every packed row |
| `GenContext.Inputs` | vexact/inferencer/inferencer.py:267-285 | ids and positions of every packed row, prefill chunk or last token |
| `GenContext.SampledRow` | vexact/inferencer/inferencer.py:416-440 | the sampled row is the request's last position, at context length minus one |
| `GenContext.IssuedIsBatchable` | vexact/inferencer/inferencer.py:215-284 | whatever the scheduler plans can be packed |
| `GenContext.TableIsWideEnough` | vexact/inferencer/inferencer.py:99-106 | a request whose prompt and longest output, by either limit, fit the model length fits the width of the block tables |
| `GenContext.StoreSingleCache` | vexact/batch_invariant_ops/kv_cache_context.py:260-291 | in any program order every row lands in its own slot, all other slots keep their contents, -1 writes nothing |
| `GraphDispatch.BuildCaptureSizes` | vexact/inferencer/cudagraph_utils.py:88-98 | powers of two up to the first that reaches the maximum; an error exactly for sizes that are not positive |
| `GraphDispatch.CaptureFitsBudget` | vexact/inferencer/cudagraph_utils.py:113-133 | capturing stays within the token budget if and only if the budget is a power of two |
| `GraphDispatch.Dispatch` | vexact/inferencer/cudagraph_utils.py:106-110 | the first covering shape, None exactly when none covers |
| `GraphDispatch.DispatchCoversTightly` | vexact/inferencer/cudagraph_utils.py:106-110 | a batch within the budgets always finds a shape, and the first has less than twice its tokens |
| `GraphDispatch.InputBuffers.PrepareFrom` | vexact/inferencer/inferencer.py:300-351 | buffers hold the batch, token ids on the first rank and hidden states on the others, then empty rows at its end, then tokens written nowhere; refused exactly when it does not fit |
| `GraphDispatch.InputBuffers.FillLastTokenIdx` | vexact/core/runtime_data.py:106-110 | every row index is its start of the next sequence minus one |
| `PaddedForward.PaddingWritesNothing` | vexact/inferencer/inferencer.py:314-334 | the store after a padded layer is the store after the batch's |
| `PaddedForward.PaddedLayers` | vexact/inferencer/inferencer.py:314-334 | through all layers of a rank the padded arrays give the batch's caches and, on the real rows, its hidden states, whatever the padded rows compute |
| `PaddedForward.ReplayIsStageRun` | vexact/inferencer/inferencer.py:362-381 | a replay over buffers that hold a batch is the batch's own stage run |
| `PaddedForward.IdsAreEntry` | vexact/inferencer/inferencer.py:267-285 | on the first rank ids and positions give the batch's own embeddings |
| `PaddedForward.Replay` | vexact/inferencer/inferencer.py:300-381 | filling the buffers, replaying over them and slicing off the padding is the batch's own forward pass on every rank; refused exactly when the shape does not cover the batch |
| `PackedRuns.PaddedRows` | vexact/inferencer/inferencer.py:323-334 | padded rows have no tokens, every row index is in range, and real rows still name their last position |
| `PackedRuns.BatchesCanBePacked` | vexact/inferencer/inferencer.py:200-246 | in every reachable state every request of the batch can be packed and fits the tables |
| `PackedRuns.EveryBatchFindsAGraph` | vexact/inferencer/inferencer.py:362-381 | in every reachable state a non-empty batch finds a captured graph of less than twice its tokens |
| `Ring.NoDeadlock` | vexact/inferencer/inferencer.py:145-198 | for any number of ranks with rendezvous sends, in every reachable state rank 0 is idle or some send meets its receive |
| `Ring.CallsReturn` | vexact/inferencer/inferencer.py:131-198 | every meeting decreases a bound, so every call of `infer` returns |
| `Ring.OutputsArriveInOrder` | vexact/inferencer/inferencer.py:186-198 | outputs reach rank 0 in the order their batches were issued, none lost, none twice |
| `Ring.ReceiveKeeps` | vexact/inferencer/inferencer.py:186-187 | the received output is that of the oldest batch on the ring |
| `Pipeline.PipelineRefinesEngine` | vexact/inferencer/inferencer.py:131-198 | scheduler, ring and stages together, every rank at its own speed and submissions at any time: each run does what the engine model does with its history, and between two calls the scheduler on rank 0 is the engine's |
| `Pipeline.PipelineDelivers` | vexact/worker/driver_worker.py:56-79 | so the results of every run of the pipeline carry the tokens of the plain one-request loop |
| `Pipeline.StepKeeps` | vexact/inferencer/inferencer.py:131-198 | a meeting of two ranks leaves the engine state as it is; the beginning of a call is a whole turn of the engine |
| `Pipeline.BeginIsCycle` | vexact/inferencer/inferencer.py:131-198 | what rank 0 does when a turn begins, with outputs still on the ring, is a whole cycle of the model |
| `Pipeline.BeginIsRingStep` | vexact/core/scheduler.py:182-191 | rank 0 receives in a call exactly when the ring protocol expects an output |
| `Pipeline.SomeRanksMeet` | vexact/inferencer/inferencer.py:145-198 | no deadlock in the composed system: while rank 0 is in a call two ranks can meet |
| `Pipeline.MeetingsEnd` | vexact/inferencer/inferencer.py:131-198 | and finitely many meetings end the call |
| `Wiring.PPMessager.CreatePairGroups` | vexact/distributed/pp_messager.py:89-114 | the groups created and the links stored, for every rank |
| `Wiring.PPMessager.InitWithinWorld` | vexact/distributed/pp_messager.py:62-87 | every rank of any world creates the same groups and stores the links of its own replica; ranks left over by a world size that is no multiple of pp_size store none |
| `Wiring.NeighboursShareGroups` | vexact/distributed/pp_messager.py:97-114 | each rank's next link is its successor's previous link |
| `Wiring.LinkNamesItsPair` | vexact/distributed/pp_messager.py:97-114 | the group behind a link is the pair of the two ranks |
| `Wiring.LinksAreDistinct` | vexact/distributed/pp_messager.py:84-114 | two different links never share a group |
| `Stages.PipelineIsImmediate` | vexact/inferencer/inferencer.py:131-198 | in whatever order the stages take their steps, the last stage hands on for a batch what the whole model makes of it right after all earlier batches, and the stages' caches together end as the whole cache |
| `Stages.ThroughIsWhole` | vexact/inferencer/inferencer.py:145-198 | one batch through all stages in turn is one batch through the whole model |
| `Stages.LastHandsOn` | vexact/inferencer/inferencer.py:145-198 | what the last stage hands on for a batch is what the whole model makes of it right after all earlier batches |
| `Stages.RunKeeps` | vexact/inferencer/inferencer.py:171-198 | each step of any stage keeps every stage equal to a run of one batch at a time |
| `Runs.ReachableGrows` | vexact/worker/driver_worker.py:56-79 | submissions lead from reachable states to reachable states, and so do turns, which go on if and only if their batch is uniform, so the promises about reachable states speak of every run |
| `Swizzle.PidInRange` | vexact/batch_invariant_ops/batch_invariant_ops.py:44-51 | every tile id stands for a tile of the grid |
| `Swizzle.TileOfPid` | vexact/batch_invariant_ops/batch_invariant_ops.py:44-51 | different tile ids stand for different tiles, short last group and rotation included |
| `Swizzle.PidOfTile` | vexact/batch_invariant_ops/batch_invariant_ops.py:44-51 | every tile of the grid has a tile id |
| `Gemm.Accumulate` | vexact/batch_invariant_ops/batch_invariant_ops.py:111-129 | all K tiles with masked lanes give the fold k = 0, 1, ... from zero |
| `Gemm.StoreTile` | vexact/batch_invariant_ops/batch_invariant_ops.py:131-145 | exactly the cells of the block inside the matrix are written, each with its own lane of the accumulator |
| `Gemm.AccumulateTile` | vexact/batch_invariant_ops/batch_invariant_ops.py:101-129 | the main loop's tile: every lane inside the matrix holds the fold of its own row and column |
| `Gemm.RunProgram` | vexact/batch_invariant_ops/batch_invariant_ops.py:84-145 | one program writes exactly the tiles congruent to its number, although the epilogue finds each tile by a counter of its own |
| `Gemm.BlockIsTile` | vexact/batch_invariant_ops/batch_invariant_ops.py:95-139 | a cell is in a tile's block exactly when that is the cell's own tile |
| `Gemm.MatmulPersistent` | vexact/batch_invariant_ops/batch_invariant_ops.py:279-324 | in any program order every cell is the fold of its own row and column |
| `Gemm.VisitedOnce` | vexact/batch_invariant_ops/batch_invariant_ops.py:292-299 | exactly one launched program comes to a tile, in exactly one iteration |
| `Gemm.RowsDoNotInteract` | vexact/batch_invariant_ops/batch_invariant_ops.py:279-324 | two launches with different other rows and columns, tilings, program counts, schedules and old outputs store equal results wherever they share a row of A and a column of B |
| `Gemm.MatmulOverReals` | vexact/batch_invariant_ops/batch_invariant_ops.py:108-145 | over the reals the stored matrix is the product: a unit row selects its row of B, and the result is linear in the row |
| `Softmax.Rescale` | vexact/batch_invariant_ops/triton_invariant_attention.py:145-147 | changing the reference maximum multiplies mass and weighted sum by one factor |
| `Softmax.Block` | vexact/batch_invariant_ops/triton_invariant_attention.py:165-192 | one block keeps the sums relative to the running maximum |
| `Softmax.AttendRow` | vexact/batch_invariant_ops/triton_invariant_attention.py:128-204 | over the reals the two loops give full causal softmax attention and the true log-sum-exp, for every length and block size; the start value 1 of the denominator cancels |
| `Softmax.AttendTile` | vexact/batch_invariant_ops/triton_invariant_attention.py:128-204 | the same for every row of a tile |
| `Softmax.Finish` | vexact/batch_invariant_ops/triton_invariant_attention.py:194-204 | the reference cancels in the quotient and adds back in the logarithm |
| `Softmax.AttentionIsAverage` | vexact/batch_invariant_ops/triton_invariant_attention.py:128-204 | equal values give that value |
| `Softmax.AttentionShares` | vexact/batch_invariant_ops/triton_invariant_attention.py:128-204 | a position's share is proportional to the exponential of its score, and later positions have none |
| `Softmax.AttentionIsLinear` | vexact/batch_invariant_ops/triton_invariant_attention.py:128-204 | the result is linear in the values, which with the two above determines it |
| `Attention.RowInvariance` | vexact/batch_invariant_ops/triton_invariant_attention.py:133-192 | a row's reduction depends on its position, its query and keys and values up to it only, bit for bit |
| `AttentionKernel.Program` | vexact/batch_invariant_ops/triton_invariant_attention.py:485-616 | a program stores exactly the rows of its block, each with the row's result |
| `AttentionKernel.OneWriter` | vexact/batch_invariant_ops/triton_invariant_attention.py:485-500 | exactly one program of the grid stores a packed row |
| `AttentionKernel.LaunchGrid` | vexact/batch_invariant_ops/triton_invariant_attention.py:662-667 | in any program order every packed row gets its own result, and rows behind the last sequence are left alone |
| `AttentionKernel.PagedIsPacked` | vexact/batch_invariant_ops/triton_invariant_attention.py:520-609 | a page table that holds a sequence gives its rows what a packed launch gives |
| `AttentionKernel.ForwardRow` | vexact/batch_invariant_ops/triton_invariant_attention.py:520-616 | both loops compute the specified reduction |
| `AttentionReals.RowIsAttention` | vexact/batch_invariant_ops/triton_invariant_attention.py:520-616 | with exp2 and real arithmetic every coordinate of that reduction is causal softmax attention over positions 0..p, for every block shape |
| `AttentionReals.LaunchOverReals` | vexact/batch_invariant_ops/triton_invariant_attention.py:485-616 | a launch over the reals, in any program order, stores for every packed row the softmax attention of its query over the keys and values in its sequence's pages |
| `AttentionReals.SweepPeaks` | vexact/batch_invariant_ops/triton_invariant_attention.py:539-607 | the running maximum is the largest score so far, so with a scale that is not negative no weight exceeds exp2 of zero |
| `AttentionLayer.SameSlot` | vexact/batch_invariant_ops/triton_invariant_attention.py:524-538 | the kernel reads a position from the slot in which the store kernel wrote it |
| `AttentionLayer.KernelIsLayer` | vexact/batch_invariant_ops/kv_cache_context.py:294-314 | the kernel's result depends on the row's own query and on exactly the states that the model's layer attends to |
| `FlexMask.PhysicalToLogical` | vexact/batch_invariant_ops/flex_attention.py:222-229 | the filled table maps each page to its place in the row, -1 elsewhere |
| `FlexMask.ChunkMappingOwner` | vexact/batch_invariant_ops/flex_attention.py:235-246 | a packed query belongs to the sequence whose part of the packing contains it |
| `FlexMask.LogicalMaskIsCausal` | vexact/batch_invariant_ops/flex_attention.py:97-125 | without pages attention is causal within the own sequence if and only if no keys are packed before the sequence's own, or, in a batch of several entries, its context is as long as the first entry's |
| `FlexMask.OneSequenceFits` | vexact/batch_invariant_ops/flex_attention.py:349-372 | a single sequence always attends causally |
| `FlexMask.LongerEntryLosesKeys` | vexact/batch_invariant_ops/flex_attention.py:97-125 | contexts of 5 and 7 keys: the second entry does not see its own last key |
| `FlexMask.PackedSeesForeignKeys` | vexact/batch_invariant_ops/flex_attention.py:97-125 | two packed sequences: a token of the second sees a key of the first and not its own |
| `FlexMask.PositionsEndTheContext` | vexact/batch_invariant_ops/flex_attention.py:85-105 | a step's tokens are the last positions of its context |
| `FlexMask.SlotRoundTrip` | vexact/batch_invariant_ops/flex_attention.py:251-254 | a position and its slot determine each other through the table |
| `FlexMask.PhysicalMaskIsCausal` | vexact/batch_invariant_ops/flex_attention.py:243-259 | the slots allowed for a token are exactly those of positions 0..p of its own sequence, one slot each |
| `FlexMask.ForeignPagesAreMasked` | vexact/batch_invariant_ops/flex_attention.py:251-259 | slots on pages the sequence does not own are never allowed |
| `FlexMask.MasksAgree` | vexact/batch_invariant_ops/flex_attention.py:97-125 | both masks attend to the same tokens if and only if that condition holds |
| `MoeIndex.ArgsortIsInverse` | vexact/batch_invariant_ops/fused_moe.py:281-283 | argsort of a permutation is its inverse on both sides |
| `MoeIndex.ScatterIndexIsRank` | vexact/batch_invariant_ops/fused_moe.py:281-283 | a pair's row is its expert's segment start plus its rank among the expert's pairs |
| `MoeIndex.SegmentOfRow` | vexact/batch_invariant_ops/fused_moe.py:288-290 | a sorted row belongs to its pair's expert's segment and no other |
| `MoeIndex.TokenAtScatteredRow` | vexact/batch_invariant_ops/fused_moe.py:284-286 | the token found at a pair's row is the pair's own, so both backends dispatch alike |
| `MoeIndex.Histogram` | vexact/batch_invariant_ops/group_gemm/kernel/moe.py:28-81 | in any block order the counts are the numbers of pairs per expert |
| `MoeSlots.AssignSlots` | vexact/batch_invariant_ops/group_gemm/kernel/moe.py:350-379 | under a given interleaving every pair gets the slot of its reservation |
| `MoeSlots.CounterCounts` | vexact/batch_invariant_ops/group_gemm/kernel/moe.py:360-375 | a counter is its segment's end minus what was reserved |
| `MoeSlots.SlotInSegment` | vexact/batch_invariant_ops/group_gemm/kernel/moe.py:350-379 | for every interleaving a slot lies in its own expert's segment |
| `MoeSlots.SlotsDiffer` | vexact/batch_invariant_ops/group_gemm/kernel/moe.py:350-379 | for every interleaving two pairs never share a slot |
| `MoeDispatch.Scatter` | vexact/batch_invariant_ops/group_gemm/kernel/moe.py:285-301 | in any program order every pair's row holds its token |
| `MoeDispatch.Gather` | vexact/batch_invariant_ops/group_gemm/kernel/moe.py:111-128 | every token gets the sum of its rows in the order of its choices |
| `MoeDispatch.SumCountsEveryRow` | vexact/batch_invariant_ops/group_gemm/kernel/moe.py:111-128 | with an addition that commutes, changing any one row changes the sum by exactly that |
| `MoeDispatch.CumSum` | vexact/batch_invariant_ops/fused_moe.py:288-290 | the boundaries are the segment starts |
| `MoeDispatch.GroupedRows` | vexact/batch_invariant_ops/fused_moe.py:53-60 | one launch of the grouped GEMM sends every row through the matrix of its own expert |
| `MoeDispatch.ExpertLayers` | vexact/batch_invariant_ops/fused_moe.py:53-88 | three launches and the gate give every row its own expert's contribution |
| `MoeDispatch.Forward` | vexact/batch_invariant_ops/fused_moe.py:38-105 | first backend, launches included: every token gets, in order, fc2 of silu(x fc1_1) times (x fc1_2) times the gate, for the experts and gates of its own choices, and nothing of other tokens |
| `MoeDispatch.QuackForward` | vexact/batch_invariant_ops/fused_moe.py:299-342 | second backend, rows found through `A_idx` and no scattered copy: the same sums |
| `GroupGemm.CoveredOnce` | vexact/batch_invariant_ops/group_gemm/kernel/group_gemm.py:90-153 | a cell is reached if and only if its row is below ceil(max_M / BLOCK_M) * BLOCK_M of its segment, and then by exactly one program |
| `GroupGemm.Program` | vexact/batch_invariant_ops/group_gemm/kernel/group_gemm.py:90-153 | one program writes exactly its cells, each the fold against its expert's matrix |
| `GroupGemm.Launch` | vexact/batch_invariant_ops/group_gemm/kernel/group_gemm.py:90-153 | in any program order every cell within ceil(max_M / BLOCK_M) * BLOCK_M rows of its segment gets its own expert's value, and every other cell is left as it was |
| `GroupGemm.LaunchCoversAll` | vexact/batch_invariant_ops/group_gemm/kernel/group_gemm.py:90-153 | a launch stores every cell if and only if no segment is longer than that |
| `GroupGemm.ActivationIsLast` | vexact/batch_invariant_ops/group_gemm/kernel/group_gemm.py:90-153 | the activation is applied once, to the finished product |
| `GroupGemm.ForwardSegmentsFit` | vexact/batch_invariant_ops/fused_moe.py:53-60 | no segment is longer than all pairs together |
| `GroupGemm.BackwardSegmentsFit` | vexact/batch_invariant_ops/fused_moe.py:153-159 | with distinct choices per token no segment is longer than the number of tokens |
| `GroupGemm.TileIsQuotient` | vexact/batch_invariant_ops/group_gemm/kernel/triton_utils/utils.py:22-31 | a row is in a tile exactly when the tile is its quotient |
| `GroupGemm.RepeatedChoiceIsMissed` | vexact/batch_invariant_ops/fused_moe.py:153-159 | max_M tokens that each pick expert 0 twice: no program stores a row from max_M on, for any block size that divides max_M |
| `Sampler.ThresholdSelects` | vexact/inferencer/sampler.py:165-171 | comparing with the k-th largest value selects exactly the tokens that fewer than k beat |
| `Sampler.SortedThreshold` | vexact/inferencer/sampler.py:167-169 | place V - k of the sort holds the k-th largest value, ties counted |
| `Sampler.ApplyTopKOnly` | vexact/inferencer/sampler.py:189-212 | in place, exactly the top k with ties stay, unchanged |
| `Sampler.SortKeepsNucleus` | vexact/inferencer/sampler.py:173-180 | the cumulative comparison keeps a set closed upwards, of mass at least p, and of less without its smallest member |
| `Sampler.ApplyTopKTopP` | vexact/inferencer/sampler.py:164-185 | top-k survivors, then such a nucleus of them, each kept logit unchanged at its own vocabulary index |
| `Sampler.Filter` | vexact/inferencer/sampler.py:157-185 | with and without sorting the same top-k survivors |
| `Sampler.NucleusIsUnique` | vexact/inferencer/sampler.py:173-180 | without ties the kept set is determined |
| `Sampler.TopPOneKeepsAll` | vexact/inferencer/sampler.py:51 | top_p 1 switches the filter off |
| `Sampler.FractionKept` | vexact/inferencer/sampler.py:173-180 | the kept tokens have at least the fraction p of the mass, and less without the least of them |
| `WeightTransfer.Sender.SendWeights` | vexact/integrations/verl/bucketed_weight_transfer.py:60-109 | succeeds if and only if every packed tensor is aligned to its element size; then exactly the sent tensors arrive, in order and once, and exactly the final message is marked last |
| `WeightTransfer.Sender.SendChunked` | vexact/integrations/verl/bucketed_weight_transfer.py:150-180 | the chunks tile the tensor; it arrives once, complete, with the last chunk |
| `WeightTransfer.Sender.Write` | vexact/integrations/verl/bucketed_weight_transfer.py:140-162 | writes stay inside the buffer, at their place, and never happen while a request is unanswered |
| `WeightTransfer.Sender.AddHere` | vexact/integrations/verl/bucketed_weight_transfer.py:79-82 | case 1: packed behind what is there, which stays intact |
| `WeightTransfer.Sender.AddNext` | vexact/integrations/verl/bucketed_weight_transfer.py:84-92 | case 2: the open bucket is delivered, the tensor starts the next one |
| `WeightTransfer.Sender.AddChunked` | vexact/integrations/verl/bucketed_weight_transfer.py:94-101 | case 3: the open bucket is delivered, then the tensor in chunks |
| `WeightTransfer.Receiver.ReceiveBucket` | vexact/integrations/verl/bucketed_weight_transfer.py:245-311 | a bucket is delivered if and only if all its entries can be viewed, else nothing of it is |
| `WeightTransfer.Receiver.TakeChunk` | vexact/integrations/verl/bucketed_weight_transfer.py:254-290 | after every chunk the received prefix is the sent one; complete exactly at the last |
| `WeightTransfer.ChunkLands` | vexact/integrations/verl/bucketed_weight_transfer.py:268-281 | a chunk lands in its place and nothing else changes |
| `WeightTransfer.AlignedPlaces` | vexact/integrations/verl/bucketed_weight_transfer.py:72-101 | the condition of the round trip, said of the bytes: each tensor lies right behind the one before it while it still fits, else at the start of a bucket, and must begin at a multiple of its element size |
| `WeightTransfer.CommonUnitAligns` | vexact/integrations/verl/bucketed_weight_transfer.py:79-92 | sizes that are multiples of a unit which every element size divides always meet the condition |
| `WeightTransfer.MixedElementSizesFail` | vexact/integrations/verl/bucketed_weight_transfer.py:292-295 | one odd byte before a four-byte element makes the receiver fail |

## Left out

- Message transport, threads, subprocesses, timeouts and the profiler: a submission that arrives while
  `schedule` runs is modelled as arriving between two turns, and the pause of an idle loop as a turn that does nothing.
- Rejected submissions: the queue has no bound here, so the branch that marks a request as failed is not reached.
- Exceptions in the driver loop: a batch that sampling refuses ends the loop in the model too, at rank 0; with several stages it is the last rank that raises. Other exceptions (out of memory, transport) are not modelled.
- Rounding, tensor-core order and overflow: arithmetic is an abstract function of its operands in a fixed order,
  or exact over the reals in `Softmax`, `AttentionReals`, `Gemm.MatmulOverReals` and `Sampler`. A causally masked score is minus infinity with weight 0, where
  the code adds -1e6 and relies on underflow.
- Sampling randomness: the sampler is a function of a row, as for greedy and seeded sampling; sampling from the
  device's shared generator is not covered, nor is the foreign top-k/top-p kernel that replaces this code when it can be imported.
- Logits and log-probabilities: `update` handles tokens only.
- Heads and head dimensions of attention: one head, all coordinates of its output; grouped heads index alike.
- `_bmm_kernel`, RMS norm, mean and log-softmax kernels: smaller relatives of the persistent GEMM with one tile per program.
- Backward formulas of attention and of the mixture of experts; only the coverage of the grouped GEMM with `max_M = T` is kept.
- `_moe_add_gather_kernel` and the transposed weight-gradient GEMM: the same loops with other operands.
- Activation saving and accumulation into the output of the grouped GEMM: the model starts from zero and applies one activation.
- Choice of tile configurations (`_predict_us`, shared-memory limits): every configuration gives the same rows.
- Standalone process groups (`_init_pp_groups_standalone`): one replica of the general case.
- Tensors inside `GenerationContext` messages: one message is one rendezvous.
- Shared-memory transport on a CPU receiver, where `.to` returns a view of the buffer instead of a copy: the model copies.
- Duplicate tensor names inside one bucket overwrite each other in the code; names are unique here.
- Model definitions, weight names, tokenizers, configuration loading, the reward model.
- GenContext.Prepare: the batch is not empty; the code never packs an empty one.
- GroupGemm.Launch: programs are independent here; the code's loads of rows that wrap around are computed and not stored.
- MoeDispatch.QuackForward: the GEMM of the second backend is foreign code; only what the call asks of it is modelled (`MoeDispatch.QuackGemm`).
- FlexMask.LogicalMaskIsCausal: calls without context lengths, which use the plain causal mask, are not covered.
- Pipeline.PipelineRefinesEngine: all submitted requests are alike; what the other ranks do after the last one refused a batch is not modelled.
- PaddedForward.Replay: the captured graph is its layers over the buffers; capture itself and the logits of padded rows are not modelled.
- DriverObject.DriverWorker.Infer: all stages run inside the call, and an output that is due is there, which `DriverObject.Serve` proves; interleavings are the subject of `Pipeline`.
- Termination.EveryRequestFinishes: without chunked prefill a text may outgrow the token budget; such requests are excluded, since whether they finish depends on whether they are ever preempted. Requests are alike, since a refused batch ends the loop.
- SchedulerObject.Scheduler.Schedule: the queue is a sequence, and the blocking `get` of an idle loop is the empty-queue exit.
- RequestObject.InferenceRequest.Preempt: timers and stored logits are not modelled.
