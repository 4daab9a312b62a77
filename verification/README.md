# tt-xla: a model of its mixture-of-experts layers and its vLLM runner

A Dafny model of the parts of tt-xla where many small rearrangements have to come out right together.

- **Mixture of experts** (`Tensors`, `Experts`, `MoeOps`, `Tiles`, `TileMasks`, `A2aMlp`, `A2aForward`, `FusedScope`,
  `MoeRouting`, `A2aOutput`, `StackedMlp`, `TokenMlp`, `ExpertLaws`). Tensors are a shape and a row-major buffer;
  reshapes, permutations, scatters and the custom operators' CPU semantics are written out on them. Dispatch, tiling, masked
  products, combination and weighting are proved to compute the plain mixture of experts; `ExpertLaws` says what
  products, experts and mixtures are from their inputs and outputs alone.
- **Paged cache** (`PagedOps`, `PagedCache`, `DecodeAttention`, `AttentionLaws`). Fill, update and gather through page tables,
  whole runs of prefill and decode steps, and the attention of a decode step over what was gathered.
- **Continuous batching** (`InputBatch`, `RunnerSpec`, `SampleSpec`, `ModelRunner`). The slot table with its columns, index
  sets and adapter maps, as a class whose methods add, remove and condense in place; the runner that drives it from
  scheduler outputs and books sampled tokens; both refine a map from request id to request record over every run.
- **Slot mapping** (`SlotMapping`), **prompt logprobs** (`PromptLogprobs`), **attention mask of packed segments**
  (`SegmentMask`) and **padding buckets** (`Paddings`).
- **Sampling** (`Softmax`, `Truncation`, `SamplingMasks`, `Sampler`, `SamplerLaws`, `SamplingStep`). Ban masks, penalties,
  temperature, min-p, top-k, top-p and the random draw, for one row of the batch; and the runner with the sampler in it
  (`OutputSpec`, `SampledRuns`).
- **Executable container** (`Container`). Writer, parser, and what each does to the other's output.

`dafny verify dfyconfig.toml` checks all of it.

## Three properties that fail

- *The three expert paths agree.* The fused path reads the chunks of its remap as tiles. `FusedScope.FusedComputesExact`
  gives the exact condition on the sizes (`FusedFits`); `FusedScope.FusedGoesWrong` gives, for any sizes outside it, an
  input whose result is wrong. Everything proved of the fused path is proved under that condition.
- *A live slot carries its own request's logit bias.* Condensing copies a bias down and leaves it in the vacated slot, and
  adding a request without a bias does not reset the slot it takes (`input_batch.py:307-308`, `:405`, `:583`).
  `InputBatches.StaleBias` is a run of the batch's own methods that ends so. A table is clean when no empty slot holds a
  bias. A request that is added has its own bias if and only if it brings one or its slot holds none (`AddTracked`); a step
  leaves a bias behind if and only if a request that stays, but sits past the new number of requests, carries one
  (`UpdateStates`, `CondenseTracked`); and `SampleSpec.TidyRun` says what follows for whole runs.
- *Prompt logprobs come out complete for every chunking.* A request that a step leaves out is removed from the batch, which
  drops its rows (`model_runner.py:591-608`, `input_batch.py:403`); when it goes on where it was, the rows before are never
  written. `PromptLogprobs.Collector.LosesRows` is such a run. The rows handed out are complete if and only if the request
  was in every step since the one that started its prompt, or the prompt has a single token and no rows (`Collector.Run`).

## Where code and comments differ

The model follows the code in each case.

- `_update_states` is documented to return True when a request has finished; it returns False when finished requests are
  all that changed (`model_runner.py:566-568`, `:697`). `UpdateStates` states what it returns.
- `_compute_prompt_mask` says padding rows are all False; it reads whatever prompt counts those rows still hold
  (`metadata.py:113`, `:117-123`). `PromptMask` states the rows as they come out.

## Model

| member | source | states |
|---|---|---|
| A2aOutput.Forward | python_package/tt_torch/sparse_mlp.py:313-672 | on the dense and the manual path always, and on the fused path exactly under the size condition of FusedComputesExact, the output at every token is the mixture of all experts weighted by the full score row: the router's choice, dispatch, tiling, masks, activation, combine and one-hot weights leave no other trace |
| A2aForward.ExpertOutputs | python_package/tt_torch/sparse_mlp.py:338-650 | the combined rows on any of the three paths: the chosen expert of the token, or only its down bias where the fused mask has no entry for the token's tile |
| FusedScope.PathsAgree | python_package/tt_torch/sparse_mlp.py:350-642 | the three paths give the k-th choice of every token the same value, that expert applied to that token |
| FusedScope.FusedComputesExact | python_package/tt_torch/sparse_mlp.py:435-528 | for all weights, tokens and distinct choices the fused path computes the chosen experts if and only if every token has a dispatch copy whose chunk is numbered as the token's tile, or no expert or every expert is chosen |
| FusedScope.FusedGoesWrong | python_package/tt_torch/sparse_mlp.py:435-528 | an accepted batch and routing, for all sizes outside the condition, on which the fused path returns something other than the chosen expert |
| FusedScope.FusedExact | python_package/tt_torch/custom_ops.py:1331-1349 | with fewer choices than experts, no selected expert is masked for any routing if and only if every token has an aligned copy |
| FusedScope.SingleDeviceExact | python_package/tt_torch/sparse_mlp.py:355-363 | with one dispatch device the condition is tiling along the sequence, or a sequence of one token |
| FusedScope.AlignedWhenSplit | python_package/tt_torch/sparse_mlp.py:355-363 | tiling along the sequence, and decoding, meet the condition for any number of devices |
| TileMasks.ManualMask | python_package/tt_torch/sparse_mlp.py:531-575 | an entry is 1 exactly when some token of the tile chose the expert, however the scatter, reshape and clamped sum get there |
| TileMasks.FusedMask | python_package/tt_torch/sparse_mlp.py:446-456 | the remap's chunks read as tiles: an entry is 1 exactly when the chunk of the tile's number holds the expert |
| MoeOps.TokenRemap | python_package/tt_torch/custom_ops.py:1331-1349 | the nested loops give each token's selected experts their scores and all others zero, and mark exactly the (chunk, expert) pairs some token of the chunk selected |
| MoeOps.SparseMatmulB | python_package/tt_torch/custom_ops.py:987-1003 | the expert-by-expert loop with its skip of empty masks is the masked product of every tile with every expert's matrix |
| MoeOps.SparseMatmulA | python_package/tt_torch/custom_ops.py:1005-1018 | the same for inputs laid out per expert, masked block by block |
| MoeOps.Combine | python_package/tt_torch/custom_ops.py:1213-1241 | every (choice, token) cell holds the row of the chosen expert for that token's first copy, in both output layouts; a choice outside the experts stays zero |
| MoeRouting.PerExpertLoop | python_package/tt_torch/torch_overrides.py:59-89 | the loop over the experts that were hit, with index_add into the tokens that hit them, adds up to the mixture over all experts at every token |
| MoeRouting.TopKIsMixture | python_package/tt_torch/sparse_mlp.py:653-670 | gathering the K weights by one-hot and summing the K fetched rows gives the mixture over all experts |
| MoeRouting.LoopIsMixture | python_package/tt_torch/torch_overrides.py:67-88 | accumulating expert after expert, each only where it was chosen, gives the same mixture |
| MoeRouting.SelectionIsEnough | python_package/tt_torch/torch_overrides.py:104-110 | a sum over the chosen experts equals the sum over all of them, when scores vanish elsewhere and choices are distinct |
| MoeRouting.RouterScores | python_package/tt_torch/torch_overrides.py:34-41 | scattering top-k weights gives a score row that has each weight at its expert and zero elsewhere |
| ExpertLaws.ProductOfOne | python_package/tt_torch/custom_ops.py:999 | a product with a row that has one entry c, at any place k, is c times row k of the matrix |
| ExpertLaws.ProductAdds | python_package/tt_torch/custom_ops.py:999-1016 | the product of a sum is the sum of the products |
| ExpertLaws.ExpertOfOne | python_package/tt_torch/torch_overrides.py:74-83 | a token with one entry c, at place k: its expert activates c times row k of the gate and up weights, plus their bias |
| ExpertLaws.ExpertOfSum | python_package/tt_torch/torch_overrides.py:74-83 | a token that is a sum: its expert activates the sum of what the parts bring, with the bias once |
| ExpertLaws.UnitIs | python_package/tt_torch/sparse_mlp.py:398-404 | without clamping, unit i is gate * sigmoid(gate) * up, of the entries 2i and 2i + 1 |
| ExpertLaws.ClampedUnitIs | python_package/tt_torch/torch_overrides.py:78-82 | with clamping, unit i is (up + 1) * gate * sigmoid(alpha * gate), gate at most the limit and up between minus and plus the limit |
| ExpertLaws.ExpertOfUnit | python_package/tt_torch/torch_overrides.py:82-84 | when one unit alone is not zero, the expert answers it times its row of the down weights, plus their bias |
| ExpertLaws.MixtureOfOne | python_package/tt_torch/torch_overrides.py:85-88 | with one score c the mixture is c times that expert's answer |
| ExpertLaws.MixtureAdds | python_package/tt_torch/torch_overrides.py:85-88 | scores that add up mix what their parts mix |
| StackedMlp.SameActivation | python_package/tt_torch/sparse_mlp.py:722-734 | de-interleaving weights and bias once and splitting the result into halves activates to the same vector as strided slicing after the interleaved product, for every mask entry and limit >= 0 |
| StackedMlp.ClampOrders | python_package/tt_torch/sparse_mlp.py:808-814 | clamping to the upper and then to the lower limit is the two-sided clamp for all values if and only if the limit is not negative |
| TokenMlp.SparseForward | python_package/tt_torch/sparse_mlp.py:82-198 | SparseMLP's per-token mask, masked products and scattered weights give the mixture at every token, unselected experts' biases included |
| TokenMlp.StackedForward | python_package/tt_torch/sparse_mlp.py:748-858 | the stacked block, with de-interleaved weights and one token to a tile, gives the mixture at every token |
| PagedOps.FillCache | python_package/tt_torch/custom_ops.py:600-655 | filling whole blocks and then part of the last one puts position p of the fill at offset p mod block of the row's page p div block, and changes no other cell |
| PagedOps.FilledAt | python_package/tt_torch/custom_ops.py:600-655 | position p of the fill is at offset p mod block of page p div block of the row, when no other block of the fill has that page |
| PagedOps.FilledElse | python_package/tt_torch/custom_ops.py:600-655 | a cell where no position of the fill goes keeps its value |
| PagedOps.UpdateCache | python_package/tt_torch/custom_ops.py:544-563 | each row's key goes to the offset of its position in its page; all other cells are unchanged |
| PagedOps.TargetOfNegative | python_package/tt_torch/custom_ops.py:551-561 | a negative position counts its blocks from the end of the page-table row |
| PagedCache.Prefill | integrations/vllm_plugin/vllm_tt/attention.py:468-489 | the loop over a batch's rows leaves a cache that holds every user's whole sequence, users outside the batch included |
| PagedCache.Decode | integrations/vllm_plugin/vllm_tt/attention.py:451-466 | one key appended to each served user's sequence; everybody else's is still there |
| PagedCache.KvCache.Run | integrations/vllm_plugin/vllm_tt/attention.py:444-493 | over every run of safe prefills and decodes the key and the value cache hold exactly what each user has written |
| PagedCache.PrefillStores | integrations/vllm_plugin/vllm_tt/attention.py:468-489 | a prefill gives the user of row r the first keys of row r and its pages, whatever the user had |
| PagedCache.DecodeStores | integrations/vllm_plugin/vllm_tt/attention.py:451-466 | a decode appends the one key of row r to what its user had |
| PagedCache.UnservedKept | integrations/vllm_plugin/vllm_tt/attention.py:444-493 | a user that no row serves keeps pages and keys, and nobody else appears |
| PagedCache.RunAfterLast | integrations/vllm_plugin/vllm_tt/attention.py:444-493 | a run is its steps one after the other: the last one acts on what the others left |
| PagedCache.HeldAt | python_package/tt_torch/custom_ops.py:551-561 | in a cache that holds its users the key of position p lies at offset p mod block of the user's page p div block |
| PagedCache.GatheredRow | python_package/tt_torch/custom_ops.py:834-851 | transposing and flattening a row's pages spells its user's sequence, key after key |
| PagedCache.GatherAll | python_package/tt_torch/custom_ops.py:834-855 | every row spells its user's sequence, and the mask opens that sequence and nothing else if and only if the current position is the sequence's last |
| PagedCache.ClosedOpens | python_package/tt_torch/custom_ops.py:855-855 | a mask closed behind a position opens exactly a sequence if and only if the position is its last |
| DecodeAttention.Attention | python_package/tt_torch/custom_ops.py:818-873 | for every row that serves a user, and every head, softmax attention over exactly the keys and values the user has stored, whatever else the pages, the padding and the masked positions hold |
| DecodeAttention.DecodeReads | integrations/vllm_plugin/vllm_tt/attention.py:451-466 | the decode step that has just written a row's key and value leaves it as Attention needs it, the new position being the last one open |
| AttentionLaws.WeightsOfOne | python_package/tt_torch/custom_ops.py:867-868 | a query that only looks at entry i weighs position p by exp(scale * entry i of its key) |
| AttentionLaws.ScoreAdds | python_package/tt_torch/custom_ops.py:867 | scores add up as queries do |
| AttentionLaws.AttendRescaled | python_package/tt_torch/custom_ops.py:866-871 | multiplying the query by c and the scale by 1 / c changes nothing |
| AttentionLaws.AttendUnscaled | python_package/tt_torch/custom_ops.py:866-871 | at scale 0 the output is the average of the stored values |
| InputBatches.InputBatch.AddRequest | integrations/vllm_plugin/vllm_tt/input_batch.py:218-359 | the request's slot holds its columns, one by one, and its row, index entry, sets and adapter maps are its own; every other row is unchanged |
| InputBatches.InputBatch.RemoveRequest | integrations/vllm_plugin/vllm_tt/input_batch.py:361-411 | the request leaves every table and index; its slot is returned and left empty; all other rows are unchanged |
| InputBatches.InputBatch.Condense | integrations/vllm_plugin/vllm_tt/input_batch.py:506-598 | terminates; the table has one slot per live request and no hole, every row is kept, and a request already below the new length has not moved |
| InputBatches.InputBatch.AddTracked | integrations/vllm_plugin/vllm_tt/input_batch.py:218-359 | the bias a new request carries: its own if and only if it brings one or its slot held none, which in a clean table is so |
| InputBatches.InputBatch.RemoveTracked | integrations/vllm_plugin/vllm_tt/input_batch.py:361-411 | removal takes the request's bias with it and keeps a clean table clean |
| InputBatches.InputBatch.CondenseTracked | integrations/vllm_plugin/vllm_tt/input_batch.py:506-598 | moving keeps every live request's bias; a clean table is clean afterwards if and only if, before, no request at a slot past the number of requests carried a bias |
| InputBatches.CleanAfterMoves | integrations/vllm_plugin/vllm_tt/input_batch.py:522-594 | the same if-and-only-if on the bias column alone, for any set of moves that vacates slots without resetting them |
| InputBatches.StaleBias | integrations/vllm_plugin/vllm_tt/input_batch.py:361-598 | a run of add, remove, condense and add at whose end a request that brought no bias carries another request's |
| ModelRunners.ModelRunner.UpdateStates | integrations/vllm_plugin/vllm_tt/model_runner.py:559-697 | one scheduler step, request by request: a cached one has the progress it is told and its blocks followed by the new ones (replaced when resumed), a new one its own data, finished ones are forgotten, the others unchanged, and the batch rows say the same; the batch holds exactly the scheduled requests, without holes; the flag is false exactly when no staying request goes and none is added; from a table in which every bias is its own and none is left behind, every bias is still its own, staying requests below the new number do not move, and one is left behind if and only if a staying request past that number carries one |
| ModelRunners.ModelRunner.SampleTokens | integrations/vllm_plugin/vllm_tt/model_runner.py:1388-1438 | with one sampled token per slot, a request whose progress and schedule reach its token count has its token appended to its output, and reported at its slot; any other keeps its output and reports nothing; records, output lists and batch rows alike |
| ModelRunners.ModelRunner.Execute | integrations/vllm_plugin/vllm_tt/model_runner.py:1241-1438 | a step, scheduling and sampling together, refines the step on request records: which outputs grow, by what token, and what is reported is stated from the records before the step and the scheduler's word alone |
| ModelRunners.ModelRunner.Run | integrations/vllm_plugin/vllm_tt/model_runner.py:559-1438 | over every legal run of steps the slot table refines the map from request id to record, invariants included, and the moments between the steps are linked by what UpdateStates says of slots and biases |
| SampleSpec.TidyRun | integrations/vllm_plugin/vllm_tt/model_runner.py:559-697 | over a whole run: up to any step no bias is left behind if and only if no step so far moved a request that carries one; as long as that is so, and for one step more, every live request has its own bias |
| ModelRunners.ModelRunner.SlotIsOwn | integrations/vllm_plugin/vllm_tt/model_runner.py:570-695 | between steps a live request's slot holds its id, tokens (prompt then output), counts, blocks, sampling scalars, adapter, generator, least tokens and bad words |
| ModelRunners.ModelRunner.SlotReads | integrations/vllm_plugin/vllm_tt/input_batch.py:218-359 | every scalar column of a live request's slot, from the request's own fields and parameters: progress, blocks, temperature (0 when greedy), top-k (the vocabulary when unrestricted), adapter |
| ModelRunners.ModelRunner.SlotSpells | integrations/vllm_plugin/vllm_tt/input_batch.py:237-251 | a live request's token row spells its prompt and then its output, and its slot shares the request's output list |
| ModelRunners.ModelRunner.SlotOptions | integrations/vllm_plugin/vllm_tt/input_batch.py:292-345 | a live request's slot has a generator, a least count and bad words exactly when the request does, and they are the request's |
| ModelRunners.ModelRunner.BiasesSay | integrations/vllm_plugin/vllm_tt/input_batch.py:307-308 | what it is for biases to be the requests' own, and for none to be left behind, said of the bias column |
| ModelRunners.ModelRunner.IndexesAreOwn | integrations/vllm_plugin/vllm_tt/input_batch.py:259-290 | a live request is in each derived set exactly when its own parameters say so, and in exactly the adapter entry it asked for |
| ModelRunners.ModelRunner.IndexesAreLive | integrations/vllm_plugin/vllm_tt/input_batch.py:751-781 | greedy and random ids partition the live ids, every other set holds live ids only, and no adapter entry is empty |
| SampleSpec.GrownIsSampled | integrations/vllm_plugin/vllm_tt/model_runner.py:1390-1438 | appending the due tokens slot after slot is, for each request id, appending its own token once |
| SampleSpec.ReturnedById | integrations/vllm_plugin/vllm_tt/model_runner.py:1424-1431 | the returned list has each request's token at its slot, and nothing for a partial prefill |
| RunnerSpec.PlanComplete | integrations/vllm_plugin/vllm_tt/model_runner.py:591-691 | the ids picked for adding are known, distinct, not in the batch, and complete it to the scheduled ones within its capacity |
| RunnerSpec.NextOfCached | integrations/vllm_plugin/vllm_tt/model_runner.py:651-670 | the next record of a request sent before: the progress it is told, its blocks followed by the new ones, or replaced when it is resumed, and nothing else changed |
| RunnerSpec.NextOfNew | integrations/vllm_plugin/vllm_tt/model_runner.py:610-650 | the record of a request sent for the first time: its own data, no output, a generator only for seeded random sampling |
| SampleSpec.StepOfCached | integrations/vllm_plugin/vllm_tt/model_runner.py:559-1438 | the record of a request sent before, after a whole step: its token appended exactly when progress and schedule reach its count |
| SampleSpec.StepOfNew | integrations/vllm_plugin/vllm_tt/model_runner.py:559-1438 | the same for a request sent for the first time, a prompt prefilled in one step included |
| SlotMapping.GetSlotMappingMetadata | integrations/vllm_plugin/vllm_tt/model_runner.py:814-880 | the slices built column after column, without looking at a token, place every new token in order |
| SlotMapping.RequestExpands | integrations/vllm_plugin/vllm_tt/model_runner.py:840-880 | one request's slices are not empty and expand to its tokens' cells in order |
| SlotMapping.TokenPlaced | integrations/vllm_plugin/vllm_tt/model_runner.py:840-880 | token t of request i goes to the cell of its position in its block table, counted behind the requests before it |
| SlotMapping.TokenCell | integrations/vllm_plugin/vllm_tt/model_runner.py:840-880 | the same in table entries: the token at position p of request i goes to entry i * width + p / size of the table, times size, plus p mod size |
| SlotMapping.LaidAt | integrations/vllm_plugin/vllm_tt/model_runner.py:840-880 | entry o of a slice is the token counted behind all slices before it, o cells into the slice |
| SlotMapping.DistinctCells | integrations/vllm_plugin/vllm_tt/model_runner.py:840-880 | with disjoint blocks no two tokens share a cell |
| SlotMapping.SlicesFit | integrations/vllm_plugin/vllm_tt/model_runner.py:2512-2524 | the number of slices never exceeds the padded number |
| PromptLogprobs.Collector.FillRows | integrations/vllm_plugin/vllm_tt/model_runner.py:2242-2288 | whatever the batch size, the loop fills each row of the chunk from its hidden state and the next token, and no other row |
| PromptLogprobs.Collector.Step | integrations/vllm_plugin/vllm_tt/model_runner.py:2204-2294 | a request the step leaves out loses its rows; those handed out are exactly those whose chunk reaches the end of the prompt, with the rows of the positions since their chunks started, which are all rows if and only if that start is 0 |
| PromptLogprobs.Collector.Run | integrations/vllm_plugin/vllm_tt/model_runner.py:591-608 | over any run, with any chunks and any omissions: a request is handed its rows by the first step that reaches the end of its prompt and by no other; row j scores token j + 1 by the hidden state of position j from the start of the unbroken row of steps on, and the rows before are missing, so they are complete if and only if the request was in every step since the one that started the prompt |
| PromptLogprobs.StreakIs | integrations/vllm_plugin/vllm_tt/model_runner.py:591-608 | where the rows of a request begin: the start of its chunk in the first step of the unbroken row of steps that hold it |
| PromptLogprobs.Collector.LosesRows | integrations/vllm_plugin/vllm_tt/model_runner.py:591-608 | a run of three steps, for any prompt of two tokens or more, that hands out incomplete rows |
| PromptLogprobs.Collector.Prefill | integrations/vllm_plugin/vllm_tt/model_runner.py:2204-2294 | for any split into chunks that are scheduled step after step, a prompt is handed out once, in the chunk that covers it and not before, row j scoring token j + 1 by the hidden state of position j for all j |
| Sampler.ApplyTopKTopP | integrations/vllm_plugin/vllm_tt/sampler.py:292-336 | a token is kept if and only if fewer than k logits are strictly larger (k <= 0 keeps all) and the strictly likelier tokens weigh less than p (or nothing), both judged on the logits before either filter |
| Truncation.TopKCutoff | integrations/vllm_plugin/vllm_tt/sampler.py:311-324 | at or above the sorted entry k places from the end is the same as having fewer than k larger logits, ties and all |
| Truncation.TopPCutoff | integrations/vllm_plugin/vllm_tt/sampler.py:326-334 | at or above the sorted entry the cumulative mask counts to is the same as the strictly likelier tokens weighing less than p, or nothing |
| Truncation.NucleusMass | integrations/vllm_plugin/vllm_tt/sampler.py:326-334 | what top-p keeps weighs at least p, and without the tokens tied at the cutoff it weighs less |
| Truncation.TopKKeeps | integrations/vllm_plugin/vllm_tt/sampler.py:314-324 | top-k keeps at least k tokens |
| Sampler.ApplyMinP | integrations/vllm_plugin/vllm_tt/sampler.py:251-269 | softmax, its maximum and the comparison with a share of it leave exactly the tokens that weigh at least min-p times as much as any other, without any normalisation |
| Sampler.MinPTwice | integrations/vllm_plugin/vllm_tt/sampler.py:251-269 | filtering again, with the probabilities of what is left, drops nothing more |
| Sampler.MinPMonotone | integrations/vllm_plugin/vllm_tt/sampler.py:251-269 | a larger min-p keeps no token a smaller one drops, and zero or less drops nothing |
| Sampler.BestStays | integrations/vllm_plugin/vllm_tt/sampler.py:177-192 | a token of the largest logit passes temperature, min-p, top-k and top-p, stays the largest, and no filter brings back what was -inf |
| Sampler.AdjustedBans | integrations/vllm_plugin/vllm_tt/sampler.py:140-173 | after masks, bias and penalties a logit is finite if and only if it was and no mask bans the token |
| Sampler.PenaltiesLower | integrations/vllm_plugin/vllm_tt/sampler.py:107-124 | penalties that discourage never raise a logit, leave tokens that have not occurred alone, and do nothing at the padding values |
| Sampler.DrawsPossible | integrations/vllm_plugin/vllm_tt/sampler.py:271-289 | whatever the noise, a token without probability is never drawn |
| Sampler.Sample | integrations/vllm_plugin/vllm_tt/sampler.py:140-204 | a greedy row takes a largest adjusted logit, any other row a largest ratio of final probability and noise; the token is never a masked one; the caller's logits are overwritten exactly when nothing is added to them |
| SamplerLaws.FinalScaled | integrations/vllm_plugin/vllm_tt/sampler.py:70-79 | multiplying all logits and the temperature by the same positive factor leaves the row of the random draw as it is: the same tokens dropped, the same probabilities |
| SamplerLaws.TemperOne | integrations/vllm_plugin/vllm_tt/sampler.py:77-79 | temperature 1 changes nothing |
| SamplerLaws.GreedyUntouched | integrations/vllm_plugin/vllm_tt/sampler.py:76-79 | a greedy row of a mixed batch is left as it is |
| SamplerLaws.BiasAdds | integrations/vllm_plugin/vllm_tt/sampler.py:140-173 | a token that no mask bans gets exactly its bias, and the penalties after it |
| SamplerLaws.FrequencyCosts | integrations/vllm_plugin/vllm_tt/sampler.py:117-119 | each further occurrence in the output costs the frequency penalty |
| SamplerLaws.PresenceCosts | integrations/vllm_plugin/vllm_tt/sampler.py:117-122 | the first occurrence in the output costs the presence penalty on top |
| SamplerLaws.OutputRepeats | integrations/vllm_plugin/vllm_tt/sampler.py:105-114 | an occurrence in the output is penalized for repetition as one in the prompt is |
| SamplerLaws.RepetitionCosts | integrations/vllm_plugin/vllm_tt/sampler.py:110-114 | the repetition penalty divides a positive logit and multiplies any other |
| SamplerLaws.MinPKeeps | integrations/vllm_plugin/vllm_tt/sampler.py:251-269 | min-p keeps a token exactly when its probability is at least that share of every other's |
| SamplerLaws.TruncatedKeeps | integrations/vllm_plugin/vllm_tt/sampler.py:292-336 | top-k and top-p keep a token exactly when fewer than k logits are larger and the probabilities of the likelier tokens add up to less than p, or to nothing |
| SamplerLaws.TopKDropsTies | integrations/vllm_plugin/vllm_tt/sampler.py:314-324 | of the tokens top-k keeps, fewer than k are better than the worst of them |
| SamplerLaws.DrawnBeats | integrations/vllm_plugin/vllm_tt/sampler.py:271-289 | no token has more probability, for its noise, than the one that is drawn |
| SamplingStep.NextToken | integrations/vllm_plugin/vllm_tt/metadata.py:242-297 | through the masks built from the batch, a row that has an allowed token left never gets one that is disallowed, a stop token too early, or the end of a bad word |
| SamplingStep.RowMasks | integrations/vllm_plugin/vllm_tt/metadata.py:242-297 | the masks of a row, each left out when the batch has no use for it, together block exactly what is banned |
| SamplingMasks.BadWordsMask | integrations/vllm_plugin/vllm_tt/metadata.py:143-173 | an entry is -inf exactly when the token would complete one of the request's bad words, single tokens included |
| SamplingMasks.MinTokensMask | integrations/vllm_plugin/vllm_tt/metadata.py:175-193 | an entry is -inf exactly on the stop tokens of requests below their least count |
| SamplingMasks.OutputIsClean | integrations/vllm_plugin/vllm_tt/metadata.py:126-193 | over a whole output: every token was free when sampled if and only if no bad word occurs anywhere in it and no stop token among the first tokens |
| OutputSpec.StepSpotless | integrations/vllm_plugin/vllm_tt/model_runner.py:1424-1438 | a step keeps all outputs free of bad words and early stop tokens if and only if every token that counts was free for its request |
| SampledRuns.BansAreOwn | integrations/vllm_plugin/vllm_tt/metadata.py:242-297 | what the batch bans in a live request's slot is what the request's own parameters ban after its own output |
| SampledRuns.DrawTokens | integrations/vllm_plugin/vllm_tt/sampler.py:140-204 | the sampler's token for every slot, under the batch's bans, is free for the request that sits there |
| SampledRuns.RunDrawn | integrations/vllm_plugin/vllm_tt/model_runner.py:559-1438 | over every run whose tokens the sampler draws under the batch's own bans, whatever the model, the parameters and the noise, no request's output contains one of its bad words, or a stop token among its first tokens |
| SamplingMasks.TokenCounts | integrations/vllm_plugin/vllm_tt/metadata.py:85-101 | an entry is how often the token occurs in the request's output |
| SamplingMasks.PromptMask | integrations/vllm_plugin/vllm_tt/metadata.py:103-124 | an entry is true exactly when the token occurs among the row's prompt tokens, on padding rows too |
| Softmax.SoftmaxDistributes | integrations/vllm_plugin/vllm_tt/sampler.py:311-312 | softmax sums to one, is zero exactly at -inf, and orders tokens as their logits do |
| Softmax.ProbsShare | integrations/vllm_plugin/vllm_tt/sampler.py:311-312 | two probabilities stand to one another as the exponentials of their logits do |
| SegmentMask.GenerateAttnMask | integrations/vllm_plugin/vllm_tt/pooling_runner.py:148-182 | with entry k's positions starting behind the sum of the positive lengths before it, a position of entry k sees exactly the positions of entry k, not ahead of itself when causal, and padding sees nothing; with more than one batch row the entries that are not empty have a row each, in order |
| SegmentMask.OneSegment | integrations/vllm_plugin/vllm_tt/pooling_runner.py:148-182 | a position lies in at most one segment, and in one exactly when it is below the total length |
| SegmentMask.Groups | integrations/vllm_plugin/vllm_tt/pooling_runner.py:148-182 | lying in the same segment is an equivalence on the positions below the total length |
| Paddings.GetTokenPaddings | integrations/vllm_plugin/vllm_tt/model_runner.py:2414-2434 | terminates with 1 and then doublings of the adjusted minimum, strictly increasing, the last the first to reach the maximum |
| Paddings.GetPaddedTokenLen | integrations/vllm_plugin/vllm_tt/model_runner.py:2437-2441 | the bucket is the least at or above x, and below 2x above the smallest prefill bucket |
| Paddings.AdjustedLeast | integrations/vllm_plugin/vllm_tt/model_runner.py:2390-2411 | the adjusted minimum is the least power of two that is at least 32 and at least the given size |
| Paddings.Pow2Is | integrations/vllm_plugin/vllm_tt/model_runner.py:2398-2405 | a power of two is 1 or twice a power of two |
| Paddings.BitTrick | integrations/vllm_plugin/vllm_tt/model_runner.py:2398-2398 | a positive number has no bit in common with its predecessor if and only if it is a power of two |
| Paddings.RoundUpLeast | integrations/vllm_plugin/vllm_tt/model_runner.py:2403-2405 | shifting by the bit length of x - 1 gives the least power of two at or above x |
| Paddings.PaddedNumReqsIs | integrations/vllm_plugin/vllm_tt/pooling_runner.py:1889-1891 | the padded count lies between x and the limit, is the limit or a power of two, and below 2x when below the limit |
| Paddings.GetReqPaddings | integrations/vllm_plugin/vllm_tt/pooling_runner.py:1876-1886 | the loop ends; its list is increasing and holds exactly the powers of two from the minimum up and the maximum |
| Paddings.EveryCountCovered | integrations/vllm_plugin/vllm_tt/pooling_runner.py:1876-1891 | every number of requests that can occur is padded to one of the listed counts |
| Container.Serialize | pjrt_implementation/src/api/serialized_executable_instance.cc:51-63 | writing header and sections behind a moving cursor fills the buffer exactly with the packed container |
| Container.ParseExecutable | python_package/ttxla_tools/serialization.py:55-93 | reading and seeking through the stream returns what the container says as a value, errors included |
| Container.ParseSays | python_package/ttxla_tools/serialization.py:58-93 | the outcome for every container with a whole header, from its first eight bytes and its six header words: each error in its order, or the three byte ranges |
| Container.ShortIsRefused | python_package/ttxla_tools/serialization.py:58-82 | less than a whole header is never accepted |
| Container.PackedBytes | pjrt_implementation/inc/api/serialized_executable_instance.h:49-64 | a packed container is `TTSERv00`, six words in their order, and the three sections |
| Container.EightBytesSpell | python_package/ttxla_tools/serialization.py:66-71 | eight bytes and the number they spell, lowest byte first, both ways |
| Container.RoundTrip | python_package/ttxla_tools/serialization.py:55-93 | parsing a packed container returns the three sections if and only if the first two together, and the third, are shorter than 2^64 bytes |
| Container.SectionsAreRanges | python_package/ttxla_tools/serialization.py:86-93 | the sections of any accepted container are whole, in-bounds ranges of its body |
| Container.Repacks | pjrt_implementation/inc/api/serialized_executable_instance.h:52-72 | packing what was parsed gives the same bytes back if and only if the header left no gap and nothing follows the last section |

## Left out

- Device branches and custom calls of the operators, sharding, compilation, warm-up, logging, and I/O of any kind.
- Floating point: arithmetic is over reals; the exponential is any positive, strictly increasing function, and the
  sigmoid any function of the reals. NaN is not modelled, so a row in which every token is banned is not sampled.
- `build_expert_mapping` and the router's projection; the router is its choices and weights.
- Tile size 32 is a parameter; permutations of unit dimensions are views.
- FusedScope.FusedExact: is about the masks alone and needs fewer choices than experts; FusedComputesExact does not.
- TokenMlp.StackedForward: one token to a tile and the clamped activation, as in that class.
- Input batch columns other than the token ids are sequences that the methods replace; the token ids are an array updated
  in place. Number of logprobs, pooling parameters, `swap_states` and the sampling-metadata tensors are not part of it.
- The rows of the allowed-token mask are handled by add, remove and condense exactly as the logit bias is
  (`input_batch.py:310-331`, `:406-409`, `:585-588`); only the bias is modelled. Sampling takes the rows as they are.
- ModelRunners.ModelRunner.Run: says nothing of the token count without speculative tokens, which sampling does not update.
- ModelRunners.ModelRunner.UpdateStates: assumes what the scheduler guarantees (`RunnerSpec.Legal`): distinct ids, known
  cached requests, a capacity that is not exceeded, resumed requests with their new blocks.
- ModelRunners.ModelRunner.SampleTokens: one token per slot; the branch for several sampled tokens, which only speculative
  decoding reaches, multimodal inputs and structured decoding are left out. A request's generator is represented by its seed.
- SlotMapping.GetSlotMappingMetadata: every scheduled request has at least one token, and the table's row length is the
  one the indices are computed with; a start index above zero is left out.
- PromptLogprobs.Collector.Step: the columns of a row and their trimming are inside the row's type; memory that was never
  written is an empty entry.
- DecodeAttention.Attention: the causal case, without attention sinks or a mask of the caller's; a query has as many heads
  as the cache, as the reshape on this path demands.
- Sampler.Sample: one row of the batch, the others being handled alike; the noise is a parameter, and ties of the maximum
  go to some maximum. Rank counting and gathering of logprobs are left out.
- SamplingMasks.BadWordsMask: a bad word does not end in a negative id, which would index from the other end; nor are stop
  tokens negative.
- SampledRuns.RunDrawn: lists of allowed tokens are not in the batch, so no request restricts its tokens there; `DrawTokens`
  takes any mask of disallowed ones. A row in which no token is left is excluded, as above.
- Container.ParseExecutable: sections are bytes; decoding the two texts as UTF-8 is left out.
- Container.Serialize: the three sections are given; extracting them from an executable image is left out.
