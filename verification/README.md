# RoboRT: models and proofs

RoboRT serves vision-language-action policies on top of a tensor library. Around the neural operators it
keeps queues, caches, cursors and schedules of its own. This project models those parts and proves what
they promise. Neural operators are arbitrary functions, floats are real numbers, and device buffers hold
what was last written to them.

| file | what it models |
|---|---|
| AsyncRouter.dfy | the two-thread ROUTER pipeline: jobs, replies, wake-ups, shutdown |
| FasterWamCache.dfy | the caches of FasterWAM `predict`, `prepare` and `compute` |
| AsyncFasterWam.dfy | that pipeline with the FasterWAM caches behind it |
| FasterWamFusion.dfy | fusion of video keys and values over layer intervals, and their use |
| FasterWamSchedule.dfy | the shifted timestep schedule and the Euler recurrence its comments describe |
| FasterWamDenoise.dfy | the denoise graph: what is emitted, what one run computes |
| HyPrefixScan.dfy | HY-VLA scanners over the modality mask: runs, groups, masks, segments |
| HyPrefixBuilder.dfy | the HY-VLA prefix builder, and scanning what it prints |
| HyRoutedLayer.dfy | the routed and the two-segment prefix layer against a per-token reference |
| LingBotKv.dfy | emission order and values of the joint key/value cache of LingBot-VLA v2 |
| LingBotForward.dfy | the same run evaluated without a graph, and which experts count |
| LingBotEngine.dfy | its graph cache and its stashed state over sequences of calls |
| Npy.dfy | the NPY writer and the parts of its reader (numpy.lib.format, section "Format Version 1.0") |
| NpyLayout.dfy | the reader against a grammar of NPY files, versions 1 and 2 |
| NpyOrder.dfy | column-major files and the reader that takes them as row-major |
| VisSimilarity.dfy | unit rows and cosine similarity of the visual token pruner |
| VisPruner.dfy | two-stage visual token pruning of pi0.5 |
| VisOrder.dfy | in which order the pruner returns the tokens |
| Pi05Rtc.dfy | pi0.5 guidance table, prefix weights, row-major buffers, normalisation |
| Pi05Guided.dfy | the guided Euler loop of pi0.5 |
| Pi05Cache.dfy | the pi0.5 graph cache, tying the three together |
| Common.dfy | what the models share |

`dafny verify dfyconfig.toml` checks everything.

Where code keeps state, a class with the source's fields is proved against a small specification
(a step relation, an abstract cache state, a function of the old contents), and the lemmas are about that
specification. In `Pi05Cache` the engine's tensors and its keys are each grouped into one record field.

## Where code and documentation differ

The model follows the code in each case.

- The comment at `src/models/fasterwam/fasterwam.cpp:1979-1981` says the text key is cleared when the
  shape changes. It is not; the proofs rest on texts of different lengths being different texts. The key
  is also replaced by `prepare`, so a `predict` between `prepare` and `compute` reads old keys and values
  (`FasterWamCache.StaleIsReached`; `PredictRightIff` gives the exact condition).
- `src/models/fasterwam/fasterwam.cpp:2063-2067` says that all denoise steps are chained in one graph. Every step
  reads the leaf `tc_x_raw`, its in-place sum is an input of no other step, and only the sum built last is handed to
  `ggml_build_forward_expand` (2099-2106): the graph holds step 0 alone. A run equals the Euler recurrence for all
  operators exactly for one step (`VLA_FASTERWAM_NUM_STEPS=1`; `FasterWamDenoise.DenoisedIsEulerIff` with a failing
  input). With the expansion inside the loop the comment would hold (`ChainedIsEuler`).
- `src/serving/server.cpp:471-473` describes prepare and compute of successive requests overlapping. With FasterWAM no
  request gets that far: neither thread calls `predict`, and `prepare` refuses until it has run
  (`src/models/fasterwam/fasterwam.cpp:2226-2233`), so every request is rejected in every run
  (`AsyncFasterWam.ServerRejectsAll`). An engine warmed beforehand would be served, and requests in flight would then
  mix their texts, contrary to the comment at 2322-2329 (`ServesIffWarm`, `ReplyRightIff`).
- `src/api/model.h:195-201` says that prepared inputs own all buffers, so that the caller can destroy the request.
  LingBot-VLA v2 takes the state from a field that only `predict` writes (`src/models/lingbot_vla_v2/lingbot_vla_v2.cpp:1097-1101, 1327-1331`):
  a prepare/compute pair answers with the state of the last predict, or with zeros
  (`LingBotEngine.PairRightIff`, `PairsAloneAreStateless`).
- `src/models/lingbot_vla_v2/lingbot_vla_v2_npy.h:54` speaks of C-order files. The reader accepts column-major files
  too and returns their octets as they are (`NpyOrder.MisreadIff`).
- `src/serving/server.cpp:602-604` stores `done` without the mutex. Shutdown hangs exactly when the store
  falls between a failed predicate test and blocking (`AsyncRouter.ShutdownHangsIffStoredInWindow`), and
  the comment "drain in-flight jobs" holds for the computation but not for the replies, which are never sent
  once the loop has been left (`ShutdownLosesOutstandingReplies`, `LossIsReachable`).
- `src/models/pi05/pi05_vispruner.h:39-50` promises `target_tokens` after the call. The count is short by one
  when an odd number of tokens has to go (`VisPruner.TargetMetIffEvenSurplus`). If in addition the whole target
  is taken by importance, the last round reserves a buffer of size -1 and `std::vector::reserve` throws
  (outcome `LengthError`). Without `keep_order` the tokens are promised in order of importance; the diversity
  part comes out in order of pair similarity, so that promise holds on all data exactly when at most one pair
  survives (`VisOrder.OrderPromiseIff`; `PruneOutOfOrder` gives a failing input for all other counts).
- `src/models/pi05/pi05.cpp:108-111` says the graph is rebuilt only when token counts change. Without
  guidance it is rebuilt at every call (`Pi05Cache.OffRebuildsEveryTime`).
- `src/api/model.h:177-179` says each step is steered toward the previous chunk. A step moves the estimate
  closer exactly when 0 < time*g*w < 2 (`Pi05Guided.CloserIff`), which the default cap of 10 violates at
  the first step on frozen rows.
- `src/models/pi05/pi05.cpp:979-1034` writes past its host vectors when the guidance horizon and the previous chunk
  both exceed the chunk, while the previous chunk itself is cut to the chunk (`Pi05Cache.NeverOverrunsIff`).
- The NPY writer stores the header length in 16 bits without a check, and writes rank-0 files that the
  reader rejects; `NpyLayout.RoundTrip` states exactly which files come back.

## Model

| member | source | states |
|---|---|---|
| AsyncRouter.RunPreservesInv | src/serving/server.cpp:486-604 | Every step of either thread keeps the invariant (routing, accounting, tickets, order of rejections, wake-ups), so it holds along every interleaving of any length. |
| AsyncRouter.EachRequestInOnePlace | src/serving/server.cpp:499-600 | In every reachable state each fully received request occurs exactly once among sent replies, queued replies, compute thread, job queue and receive thread: none is lost, duplicated or invented. |
| AsyncRouter.RepliesBelongToTheirRequests | src/serving/server.cpp:504-531 | Every reply, queued or sent, carries the identity and the id of a received request; a rejection carries its own message, an accepted request a chunk that is not empty or the compute error, a message that could not be parsed id 0. |
| AsyncRouter.ChunkIsQueued | src/serving/server.cpp:448-470 | The chunk the model returns arrives in the reply queue behind the others, unchanged and under the id of its own job; an empty one as an error. |
| AsyncRouter.SendOrder | src/serving/server.cpp:513-524 | Accepted requests are answered in arrival order and rejected ones too; the only inversion is a rejection overtaking an earlier accepted request. |
| AsyncRouter.ExitConserves | src/serving/server.cpp:513-531 | Once the compute thread has exited, nothing is queued or in flight, sent plus unsent replies are exactly the received requests, and the served counter is the number of accepted ones. |
| AsyncRouter.WorkIsAlwaysNotified | src/serving/server.cpp:595-599 | No lost wake-up for work: a sleeping compute thread with jobs queued has a notify on its way that wakes it. |
| AsyncRouter.EveryRequestCanBeServed | src/serving/server.cpp:486-600 | From every reachable state before shutdown the steps of the two threads alone, without new requests or spurious wake-ups and within 20 steps per queued job plus 57, lead to a state in which every received request has been answered and its reply sent. |
| AsyncRouter.ShutdownRunsAreShort | src/serving/server.cpp:602-604 | After `done` is stored every run is finite, at most four steps per queued job plus six, and the window flag cannot change any more. |
| AsyncRouter.ShutdownMoves | src/serving/server.cpp:602-604 | If `done` was stored outside the window between the predicate test and blocking, a state in which no thread can move is one where the server has returned. |
| AsyncRouter.ShutdownHangsIffStoredInWindow | src/serving/server.cpp:513-518 | Shutdown can hang if and only if `done`, which is stored without the mutex, is stored while the compute thread has found the predicate false and has not blocked yet. |
| AsyncRouter.HangIsReachable | src/serving/server.cpp:602-604 | The hanging shutdown is a reachable state: the compute thread asleep, the main thread in join, nothing enabled. |
| AsyncRouter.ShutdownLosesOutstandingReplies | src/serving/server.cpp:542-552 | Replies are drained only inside the receive loop: when the server returns, the unsent replies are those of exactly the requests unanswered when the loop was left, and all clients were answered if and only if there were none. |
| AsyncRouter.LossIsReachable | src/serving/server.cpp:542-552 | Such a loss is a reachable state: a request accepted just before the signal is computed and answered, the server has returned, and the reply never left. |
| AsyncRouter.SharedQueues.DrainReplies | src/serving/server.cpp:543-552 | The drain loop performs the drain step: all queued replies go out in order and the queue is empty. |
| AsyncRouter.SharedQueues.TakeOrLeave | src/serving/server.cpp:513-520 | The section after the wait performs the take-or-exit step. |
| AsyncRouter.SharedQueues.Complete | src/serving/server.cpp:448-525 | Computing a job and queueing its reply performs the two compute steps; the new reply carries the id of the job and the chunk, or an error for an empty chunk. |
| AsyncRouter.SharedQueues.Admit | src/serving/server.cpp:579-599 | Handling a request performs the handle step followed by the reject or push step, for all four verdicts: an accepted request is queued with its own id and inputs, any other is answered with its own id and message. |
| AsyncRouter.SharedQueues.Stop | src/serving/server.cpp:602-602 | Storing `done` performs the store step, which takes no mutex and changes nothing else. |
| FasterWamCache.Engine.Predict | src/models/fasterwam/fasterwam.cpp:1561-2126 | Whatever calls came before, predict leaves all caches consistent (prefill output belongs to the key, buffer and graph fit the key), and its answer is the one for the text whose keys and values are in the constant buffer; the new key and copied text are given exactly. |
| FasterWamCache.Engine.EnsurePrefill | src/models/fasterwam/fasterwam.cpp:1561-1760 | After it the prefill output is that of the request's text, also when nothing was recomputed; it reports stale exactly when the stored key is another text, a text of another length included. |
| FasterWamCache.Engine.SizeConstBuf | src/models/fasterwam/fasterwam.cpp:1900-1982 | The buffer survives exactly when both lengths are unchanged; otherwise a new one holds garbage and the denoise graph is invalid. |
| FasterWamCache.Engine.LoadAndDenoise | src/models/fasterwam/fasterwam.cpp:1984-2126 | Reads the new keys and values if the text was stale and the ones already in the buffer otherwise, through a graph built for this very buffer. |
| FasterWamCache.Engine.Prepare | src/models/fasterwam/fasterwam.cpp:2179-2286 | Refuses, with nothing changed, exactly when no predict has run or the text has another length; else it replaces the key and leaves the copied keys and values behind. |
| FasterWamCache.Engine.Compute | src/models/fasterwam/fasterwam.cpp:2292-2382 | Returns nothing when the shapes disagree; else it answers from the keys and values of the current key, whether or not they had been copied before. |
| FasterWamCache.StateRowBehindText | src/models/fasterwam/fasterwam.cpp:1763-1890 | The text embedder gets the rows of the text, the row the state is projected to behind them, and their number. |
| FasterWamCache.PredictRunsAreUncached | src/models/fasterwam/fasterwam.cpp:1561-2126 | For every sequence of predict calls with arbitrary texts, lengths, states and noises, the next call returns what an engine without caches returns. |
| FasterWamCache.PredictRightIff | src/models/fasterwam/fasterwam.cpp:1979-2011 | In any state, a predict is right for all operators if and only if its text differs from the key or the copy of that key has been made. |
| FasterWamCache.PredictAfterPrepareIsStale | src/models/fasterwam/fasterwam.cpp:1987-2010 | The failing family: prepare for a new text of the same length and then predict for it answers with the keys and values of the old text. |
| FasterWamCache.StaleIsReached | src/models/fasterwam/fasterwam.cpp:1987-2010 | The same from a new engine with well-formed requests: predict for one text, prepare for another of the same length, predict for the latter answers for the former. |
| FasterWamCache.StaleRequests | src/models/fasterwam/fasterwam.cpp:1987-2010 | Two well-formed requests of that kind exist for every engine. |
| FasterWamCache.PreparedComputeIsUncached | src/models/fasterwam/fasterwam.cpp:2224-2340 | After a successful prepare, whatever calls leave the key in place in between, compute returns what the uncached computation returns for the prepared request, and the copy is up to date afterwards. |
| FasterWamCache.PairedRunsAreUncached | src/models/fasterwam/fasterwam.cpp:2170-2382 | In every run of predict calls and prepare/compute pairs, in any mixture, the next predict and the next pair return what an engine without caches returns; a pair whose prepare refuses returns nothing. |
| FasterWamCache.ComputeRightIff | src/models/fasterwam/fasterwam.cpp:2303-2340 | In any state a prepared request is computed right for all operators if and only if the key still is its own text; a key of another length, or none, makes compute refuse. |
| FasterWamCache.OverlappedRightIff | src/models/fasterwam/fasterwam.cpp:2224-2340 | With the phases of other requests in between, compute is right for all operators if and only if no successful prepare in between leaves another text in place. |
| FasterWamCache.Serve | src/models/fasterwam/fasterwam.cpp:1561-2382 | A new engine driven through any list of predict calls and prepare/compute pairs returns the uncached answers, and nothing exactly for the pairs whose text length is not that of the last predict. |
| AsyncFasterWam.ServerRejectsAll | src/serving/server.cpp:486-600 | In every run of the asynchronous server with FasterWAM behind it the engine stays cold, because neither thread calls predict: no request is ever queued or computed, and every reply is a rejection. |
| AsyncFasterWam.ServesIffWarm | src/models/fasterwam/fasterwam.cpp:2224-2269 | The pipeline ever computes a request if and only if a predict has warmed the engine before it starts, as the error text of prepare demands; and exactly then a state is reachable in which the first of two requests is computed from the text of the second. |
| AsyncFasterWam.ReplyRightIff | src/models/fasterwam/fasterwam.cpp:2322-2340 | Whatever engine the pipeline starts with, a chunk is the uncached answer for all operators if and only if nothing is waiting behind its request or the last request waiting has the same text. |
| FasterWamFusion.SoftmaxIsConvex | src/models/fasterwam/fasterwam.cpp:909-920 | The fusion weights are positive and add up to one, for every non-empty row of logits. |
| FasterWamFusion.SoftmaxRatio | src/models/fasterwam/fasterwam.cpp:909-920 | Any two weights stand to each other as the exponentials of their logits. |
| FasterWamFusion.SoftmaxFollowsLogits | src/models/fasterwam/fasterwam.cpp:909-920 | A weight is larger than another if and only if its logit is. |
| FasterWamFusion.SoftmaxInPlace | src/models/fasterwam/fasterwam.cpp:909-920 | The three loops over the array leave the softmax of its old contents in it. |
| FasterWamFusion.BuildIntervals | src/models/fasterwam/fasterwam.cpp:1668-1677 | Interval j holds exactly the layers behind condition layer j-1 up to condition layer j. |
| FasterWamFusion.IntervalsPartition | src/models/fasterwam/fasterwam.cpp:1668-1677 | The intervals one after the other are exactly the layers 0 to the last condition layer, each once. |
| FasterWamFusion.Prefill | src/models/fasterwam/fasterwam.cpp:1686-1728 | Stopping at the last condition layer, fused entry j is the weighted sum over exactly interval j of the keys (values) that a tower of any greater depth computes. |
| FasterWamFusion.FusedEntry | src/models/fasterwam/fasterwam.cpp:1686-1728 | In layer numbers: entry j is the sum over the layers behind condition layer j - 1 up to condition layer j with the weights of that interval. |
| FasterWamFusion.KeysInFrontOfBlocks | src/models/fasterwam/fasterwam.cpp:1686-1700 | Keys and values of a layer are made from the state that has gone through exactly the blocks below it. |
| FasterWamFusion.FusedStaysInRange | src/models/fasterwam/fasterwam.cpp:1708-1716 | A fused value never leaves the range of the values in its interval. |
| FasterWamFusion.AssignEntries | src/models/fasterwam/fasterwam.cpp:802-808 | Handing the fused entries out in order gives the action layer with number c_j entry j and every other layer none. |
| FasterWamSchedule.MakeTimestepSchedule | src/models/fasterwam/fasterwam.cpp:924-933 | The loop computes the shifted schedule, one boundary per step count from 0 to n. |
| FasterWamSchedule.WarpIncreases | src/models/fasterwam/fasterwam.cpp:928-930 | The shift is strictly increasing on [0, 1] for every positive shift, below one as well as above. |
| FasterWamSchedule.WarpScalesOdds | src/models/fasterwam/fasterwam.cpp:928-930 | The shift multiplies the odds t / (1 - t) of the linear time; a shift of 1 changes nothing. |
| FasterWamSchedule.ScheduleClimbs | src/models/fasterwam/fasterwam.cpp:922-933 | For every step count, positive shift and positive number of train timesteps the schedule climbs strictly from 0 to that number. |
| FasterWamSchedule.DeltaNegative | src/models/fasterwam/fasterwam.cpp:2084-2092 | Every Euler delta is negative. |
| FasterWamSchedule.DeltasTelescope | src/models/fasterwam/fasterwam.cpp:2084-2092 | The deltas from any boundary upwards add up to its noise level minus one, so all of them to -1. |
| FasterWamSchedule.ConstantVelocity | src/models/fasterwam/fasterwam.cpp:2063-2067 | Of the recurrence that the comment describes: a constant velocity field v carries the noise x to exactly x - v, entry by entry. |
| FasterWamSchedule.LineMoves | src/models/fasterwam/fasterwam.cpp:2084-2105 | Along the straight-line field of a target one Euler step goes from one noise level to the next on the line from the target to the noise. |
| FasterWamSchedule.StraightLineHitsTarget | src/models/fasterwam/fasterwam.cpp:2063-2067 | Of the recurrence that the comment describes: along the straight-line field of a target it ends exactly on the target, for any number of steps and any shift. |
| FasterWamDenoise.BuildGraph | src/models/fasterwam/fasterwam.cpp:2094-2107 | The loop keeps only the output of its last turn, so the graph is that of step 0 in the order given. |
| FasterWamDenoise.OnlyStepZero | src/models/fasterwam/fasterwam.cpp:2025-2107 | For any number of steps and layers the graph holds exactly the latent and the nodes of step 0; no later step is an ancestor of it. |
| FasterWamDenoise.Denoise | src/models/fasterwam/fasterwam.cpp:2063-2126 | Building the graph, uploading the noise and executing node by node moves the latent once: by the delta of step 0, with the velocity at the noise and the lowest timestep. |
| FasterWamDenoise.BlocksInOrder | src/models/fasterwam/fasterwam.cpp:2025-2052 | The latent goes through all blocks in order and every block sees the timestep. |
| FasterWamDenoise.DenoisedIsEulerIff | src/models/fasterwam/fasterwam.cpp:2063-2107 | The graph computes the Euler recurrence over all steps, for all operators and noises, if and only if there is one step; for every other number the constant velocity 1 on the latent 0 fails. |
| FasterWamDenoise.ConstantArrivesIff | src/models/fasterwam/fasterwam.cpp:2054-2107 | A constant velocity is carried by the first delta alone: an entry arrives at noise minus velocity if and only if there is one step or that velocity is 0. |
| FasterWamDenoise.AimedMoveLands | src/models/fasterwam/fasterwam.cpp:2054-2059 | A field that divides the distance to its target by the noise level hides the missing steps: the one move lands on the target for any number of steps. |
| FasterWamDenoise.ChainedIsEuler | src/models/fasterwam/fasterwam.cpp:2063-2067 | Were every step expanded inside the loop, executing the same nodes would compute the Euler recurrence over all steps, as the comment says. |
| HyPrefixScan.MakePrefixRuns | src/models/hy_vla/hy_vla.cpp:1298-1316 | The loop yields the maximal runs of the mask, end to end, and a run is a vision run exactly when the mask is not 0 at its positions; they decode back to it. |
| HyPrefixScan.RunsUnique | src/models/hy_vla/hy_vla.cpp:1298-1316 | A mask has only one list of maximal runs that decodes to it. |
| HyPrefixScan.MakeVisualPatchGroups | src/models/hy_vla/hy_vla.cpp:1379-1411 | The two nested loops over whole zero runs compute the groups of the position-by-position scanner. |
| HyPrefixScan.GroupsCountGaps | src/models/hy_vla/hy_vla.cpp:1379-1411 | Group g lists, in increasing order, exactly the vision positions with g gaps (a vision position followed by two zeros) in front of them; every vision position is in one group and no group is empty. |
| HyPrefixScan.SameGroupIffNoGap | src/models/hy_vla/hy_vla.cpp:1393-1397 | Two vision positions share a group if and only if no two neighbouring zeros lie between them. |
| HyPrefixScan.MakePrefixMask | src/models/hy_vla/hy_vla.cpp:1413-1439 | An entry is open if and only if both positions are grouped and share a group, or not both are grouped and the column does not come later. |
| HyPrefixScan.MakeJointMask | src/models/hy_vla/hy_vla.cpp:2858-2964 | For every modality mask: patches of one image see each other both ways, patches of different images never, all other pairs are causal; every diagonal entry is open. |
| HyPrefixScan.FindSeparators | src/models/hy_vla/hy_vla.cpp:1338-1352 | Exactly the maximal zero runs of length two or more, in order. |
| HyPrefixScan.MakeVisualOverrideSegments | src/models/hy_vla/hy_vla.cpp:1331-1377 | The segments are non-empty, ordered and apart, and a position is covered if and only if it lies outside all separators or is the first position of a separator with something in front of it. |
| HyPrefixBuilder.BuildPrefix | src/models/hy_vla/hy_vla.cpp:1467-1557 | Accepts exactly non-empty inputs whose visual count is a multiple of a square token count, and then prints the prefix language with the matching modality mask. |
| HyPrefixBuilder.PrintPrefix | src/models/hy_vla/hy_vla.cpp:1529-1550 | The nested loops print two head tokens, one block per image with a separator behind every row, and the instruction. |
| HyPrefixBuilder.ScanOfPrintedPrefix | src/models/hy_vla/hy_vla.cpp:1379-1411 | Printer/parser round trip: for every number of images, every grid of at least one and every instruction, scanning the printed mask yields exactly one group per image with the positions of its patches. |
| HyPrefixBuilder.PrintedPatchIsFound | src/models/hy_vla/hy_vla.cpp:1522-1547 | Entry (r, c) of group i is 2 + i(grid(grid+1)+2) + 1 + r(grid+1) + c, and at that position the builder put patch (r, c) of image i. |
| HyPrefixBuilder.PrintedMarkers | src/models/hy_vla/hy_vla.cpp:1529-1547 | Around the patches of every image stand token 120684 in front, 120689 behind every row and 120685 behind the last one. |
| HyPrefixBuilder.PrintedEnds | src/models/hy_vla/hy_vla.cpp:1522-1555 | The prefix starts with tokens 120000 and 120006, ends with the instruction token by token, and holds nothing else but the images. |
| HyPrefixBuilder.PrintedSegments | src/models/hy_vla/hy_vla.cpp:1331-1377 | The override segments of a printed prefix are one per image: its rows with their separators, and nothing else. |
| HyPrefixBuilder.PrintedJointMask | src/models/hy_vla/hy_vla.cpp:1413-1439 | The joint mask of a printed prefix opens two patches to each other if and only if they are of the same image. |
| HyRoutedLayer.ConcatSeqFlattens | src/models/hy_vla/hy_vla.cpp:1058-1075 | Concatenation by halving is the left-to-right concatenation, and nothing for an empty list. |
| HyRoutedLayer.ProjectRuns | src/models/hy_vla/hy_vla.cpp:1100-1121 | Projecting run by run gives every row the weights of its own kind, in order. |
| HyRoutedLayer.Sweep | src/models/hy_vla/hy_vla.cpp:1129-1156 | The sweep covers every row once: rows inside a segment are attended within that segment alone, all others over the whole prefix. |
| HyRoutedLayer.RoutedLayer | src/models/hy_vla/hy_vla.cpp:1081-1173 | For any runs that decode to the mask and any ordered segments, the routed layer equals the per-token reference that picks weights by modality around one shared attention. |
| HyRoutedLayer.TwoSegmentIsReference | src/models/hy_vla/hy_vla.cpp:997-1056 | The two-segment layer is the reference for the mask 0...01...1 without segments. |
| HyRoutedLayer.MaskOfRun | src/models/hy_vla/hy_vla.cpp:2858-2964 | The mask that reaches the attention: in the default run, which is the joint one, open within an image, closed between images and causal elsewhere; in the other (2500-2592) causal. |
| HyRoutedLayer.RunRoutedLayer | src/models/hy_vla/hy_vla.cpp:2856-2965 | A layer of the routed run, row by row and from the modality mask alone: a row is projected and finished by the vision weights if and only if its mask is not 0; it attends within its segment without a mask, elsewhere over all rows with the mask of the run. The default run uses the joint mask, has no segments and rounds the attention; the debug run at 2500-2592 without the joint attention uses the causal mask and exactly the override positions. |
| LingBotKv.ExpandCorrect | src/models/lingbot_vla_v2/lingbot_vla_v2_graph.cpp:330-331 | Appending unseen ancestors first keeps the node list closed under sources and free of repetitions, and adds the node asked for. |
| LingBotKv.ExpandKeepsOrder | src/models/lingbot_vla_v2/lingbot_vla_v2_graph.cpp:209-262 | Adding a node whose pending ancestors have their tail copies in place keeps all copies ordered before the attentions that need them. |
| LingBotKv.EmitExpertLayer | src/models/lingbot_vla_v2/lingbot_vla_v2_graph.cpp:283-350 | Emitting one expert layer of one step, with its early expansions, registers both tail copies before the attention of that step and after that of the step before. |
| LingBotKv.EmitGraph | src/models/lingbot_vla_v2/lingbot_vla_v2.cpp:849-937 | The whole graph, prefix staging and all denoise steps, is well ordered and contains the final latent. |
| LingBotKv.EmissionOrder | src/models/lingbot_vla_v2/lingbot_vla_v2_graph.cpp:315-348 | In the emitted order: prefix copy, tail copy of step s, attention of step s, tail copy of step s+1, for every layer and both sides. |
| LingBotKv.AttentionReadsOwnStep | src/models/lingbot_vla_v2/lingbot_vla_v2_graph.cpp:318-344 | Every attention reads the prefix followed by the suffix of its own step, whatever earlier steps or requests left in the tail. |
| LingBotKv.CachedGraphIsConcat | src/models/lingbot_vla_v2/lingbot_vla_v2_graph.cpp:315-335 | From any contents of the buffers, every node of the cached graph has the value it has when each attention concatenates afresh. |
| LingBotForward.Forward | src/models/lingbot_vla_v2/lingbot_vla_v2.cpp:873-933 | The final latent of the concatenating graph is what the program computes without a graph: tower, steps, layers and experts evaluated in order, each attention on prefix and suffix joined. |
| LingBotForward.HiddenNeedsAllExperts | src/models/lingbot_vla_v2/lingbot_vla_v2_graph.cpp:215-276 | In every graph closed under sources the rows behind a layer depend on its attention, its routing and every expert slice. |
| LingBotForward.AllExpertsCount | src/models/lingbot_vla_v2/lingbot_vla_v2_graph.cpp:251-276 | When slices are taken one by one and sums join, exactly the outputs of all top-k experts, in order, enter the rows behind the layer. |
| LingBotEngine.Engine.RunGraph | src/models/lingbot_vla_v2/lingbot_vla_v2.cpp:849-937 | Executing the graph on the buffers as the last request left them gives what the concatenating graph of this request gives. |
| LingBotEngine.NormaliseState | src/models/lingbot_vla_v2/lingbot_vla_v2.cpp:1091-1105 | The loop uploads every robot dimension normalised to its canonical place and zeros elsewhere, and zeros alone if the stash has another size. |
| LingBotEngine.UploadedAt | src/models/lingbot_vla_v2/lingbot_vla_v2.cpp:1091-1105 | Every dimension comes back in robot units from its place, by the formula of the actions; positions without a dimension are 0, and all are if the stash has another size. |
| LingBotEngine.BoundedIsInverse | src/models/lingbot_vla_v2/lingbot_vla_v2.cpp:1100-1101 | Normalising sends the lower quantile to -1 and the guarded upper one to 1, and the action formula undoes it. |
| LingBotEngine.Engine.Compute | src/models/lingbot_vla_v2/lingbot_vla_v2.cpp:779-1160 | For every call sequence, failed rebuilds included, graph and buffers never show: the answer is the concatenating computation of the prepared inputs on the state in the stash. The graph is kept exactly when caching is on and the token count is the cached one. |
| LingBotEngine.Engine.Predict | src/models/lingbot_vla_v2/lingbot_vla_v2.cpp:1322-1344 | A predict that answers computes its own request with its own state; the state is stashed also when preparing fails. |
| LingBotEngine.ComputeRightIff | src/models/lingbot_vla_v2/lingbot_vla_v2.cpp:1091-1105 | A compute answers its own request for all operators if and only if the stash uploads to the same state as the request would. |
| LingBotEngine.Serve | src/models/lingbot_vla_v2/lingbot_vla_v2.cpp:779-1344 | A new engine driven through any list of predicts and prepare/compute pairs: every predict answers its own request, every pair answers with the state of the last predict before it, or with zeros. |
| LingBotEngine.PairRightIff | src/models/lingbot_vla_v2/lingbot_vla_v2.cpp:1091-1330 | Behind any list of calls a pair is right for all operators if and only if the last predict brought the same uploaded state. |
| LingBotEngine.PairsAloneAreStateless | src/models/lingbot_vla_v2/lingbot_vla_v2.cpp:1091-1105 | An engine asked only in two phases, as in the asynchronous server, computes every request from the state zero. |
| LingBotEngine.StatesDiffer | src/models/lingbot_vla_v2/lingbot_vla_v2.cpp:1097-1102 | Two states that upload differently exist for every robot with at least one dimension, so the sequence of a predict with one and a pair with the other fails. |
| Npy.NumberRoundTrip | src/models/lingbot_vla_v2/lingbot_vla_v2_npy.h:125-125 | Parsing a printed dimension, with or without a leading blank, gives the number back. |
| Npy.Header | src/models/lingbot_vla_v2/lingbot_vla_v2_npy.h:204-222 | Preamble and header together are a multiple of 64 octets long. |
| Npy.PrefixLetters | src/models/lingbot_vla_v2/lingbot_vla_v2_npy.h:199-206 | The fixed text of the header and the magic, letter by letter. |
| Npy.TupleLetters | src/models/lingbot_vla_v2/lingbot_vla_v2_npy.h:205-213 | The tuples of a matrix, a vector and a scalar, letter by letter. |
| Npy.NumberLetters | src/models/lingbot_vla_v2/lingbot_vla_v2_npy.h:125-125 | What a number in the tuple is worth: white space, a sign and the digits up to the first other character; 0 without digits. |
| Npy.HeaderEnds | src/models/lingbot_vla_v2/lingbot_vla_v2_npy.h:214-230 | A header is its dictionary, blanks and a final newline, and its length field has the low octet first. |
| Npy.KnownDescriptors | src/models/lingbot_vla_v2/lingbot_vla_v2_npy.h:99-117 | Which descriptors are read, as which type and width; all others are refused. |
| Npy.WriteNpy | src/models/lingbot_vla_v2/lingbot_vla_v2_npy.h:195-237 | Refuses exactly the shapes with a negative dimension; otherwise the file is magic, length, header and data. |
| Npy.ParseDims | src/models/lingbot_vla_v2/lingbot_vla_v2_npy.h:118-131 | The position loop yields the non-empty pieces between commas, in order. |
| Npy.DimsRoundTrip | src/models/lingbot_vla_v2/lingbot_vla_v2_npy.h:205-213 | The printed tuple parses back to the shape, for every rank, the one-element form with its trailing comma included. |
| Npy.FieldsOfHeader | src/models/lingbot_vla_v2/lingbot_vla_v2_npy.h:89-98 | In every written header the reader finds the written type and exactly the text of the tuple. |
| Npy.NoFieldsWhenCut | src/models/lingbot_vla_v2/lingbot_vla_v2_npy.h:94-97 | A header cut at its length modulo 65536 is rejected because the closing parenthesis is missing. |
| Npy.AsNumbers | src/models/lingbot_vla_v2/lingbot_vla_v2_npy.h:148-171 | One number per element, read from the octets of that element alone. |
| Npy.ElementOctets | src/models/lingbot_vla_v2/lingbot_vla_v2_npy.h:148-171 | An element is all of its octets, in order. |
| NpyLayout.ReadIff | src/models/lingbot_vla_v2/lingbot_vla_v2_npy.h:55-146 | For every octet string the reader returns an array if and only if the file is a preamble of version 1 or 2 that announces its header, a header that names type and a non-empty shape, exactly the octets they ask for, and anything behind them. |
| NpyLayout.ReadNpy | src/models/lingbot_vla_v2/lingbot_vla_v2_npy.h:55-146 | The branches of the reader accept exactly the files of that grammar. |
| NpyLayout.AcceptedArray | src/models/lingbot_vla_v2/lingbot_vla_v2_npy.h:99-143 | An accepted array has a non-empty shape with a non-negative count, a known width and as many octets as both ask for, all of them in the file. |
| NpyLayout.CutFileFails | src/models/lingbot_vla_v2/lingbot_vla_v2_npy.h:61-143 | An acceptable file cut anywhere before the end of its data is rejected. |
| NpyLayout.TrailingIsIgnored | src/models/lingbot_vla_v2/lingbot_vla_v2_npy.h:138-143 | Octets behind the data change nothing. |
| NpyLayout.RoundTrip | src/models/lingbot_vla_v2/lingbot_vla_v2_npy.h:55-237 | Reading a written file returns the same shape, type and data if and only if the rank is at least one and the header is shorter than 65536; in every other case the reader rejects. |
| NpyLayout.RoundTrip32 | src/models/lingbot_vla_v2/lingbot_vla_v2_npy.h:71-79 | The same contents with a version 2 preamble come back if and only if the rank is at least one and the header is shorter than 2^32. |
| NpyOrder.OrderIsIgnored | src/models/lingbot_vla_v2/lingbot_vla_v2_npy.h:88-143 | A column-major file is accepted like a row-major one and comes back with the same shape and octets. |
| NpyOrder.MisreadIff | src/models/lingbot_vla_v2/lingbot_vla_v2_npy.h:54-143 | Taken as row-major, a column-major file is read right for all its data if and only if it is empty or at most one dimension is larger than one. |
| NpyOrder.LastRunsFastest | src/models/lingbot_vla_v2/lingbot_vla_v2_npy.h:54-54 | Row-major: a step of the last index is a step of one element. |
| NpyOrder.FirstRunsFastest | src/models/lingbot_vla_v2/lingbot_vla_v2_npy.h:54-54 | Column-major: a step of the first index is a step of one element. |
| NpyOrder.MisreadFile | src/models/lingbot_vla_v2/lingbot_vla_v2_npy.h:54-143 | A concrete accepted file of two rows and columns whose off-diagonal elements come back exchanged. |
| VisPruner.SortDescending | src/models/pi05/pi05_vispruner.cpp:71-78 | A ranking: every index once, larger keys first, ties in any order. |
| VisPruner.Importance | src/models/pi05/pi05_vispruner.cpp:56-68 | The triple loop computes the mean attention each token receives over all heads and queries. |
| VisPruner.ReceivedFromQuery | src/models/pi05/pi05_vispruner.cpp:58-64 | Query q of head h adds the attention at h * N * N + q * N + p to token p. |
| VisSimilarity.NormaliseRows | src/models/pi05/pi05_vispruner.cpp:95-108 | Every row becomes parallel to itself and of length one; a row whose square sum is at most 1e-10 becomes zero. |
| VisSimilarity.UnitLength | src/models/pi05/pi05_vispruner.cpp:104-107 | The inner product of a scaled row with itself is 1, and 0 for a tiny row. |
| VisSimilarity.CauchySchwarz | src/models/pi05/pi05_vispruner.cpp:126-134 | The inner product of two rows never exceeds the product of their lengths. |
| VisSimilarity.ClampIsIdle | src/models/pi05/pi05_vispruner.cpp:134-134 | On reals the clamp to [-1, 1] changes nothing. |
| VisSimilarity.SimilarityIsCosine | src/models/pi05/pi05_vispruner.cpp:126-134 | The similarity of two rows times their lengths is their inner product. |
| VisSimilarity.TinyRowIsDissimilar | src/models/pi05/pi05_vispruner.cpp:104-107 | A row whose square sum is at most 1e-10 has similarity 0 to every row, itself included. |
| VisPruner.DropRound | src/models/pi05/pi05_vispruner.cpp:113-152 | One round fails exactly when it would have to drop more tokens than there are; else the survivors are the pairs behind the dropped ones in order of falling similarity and an odd last token; no dropped pair is less similar than a surviving one. |
| VisPruner.ShrinkExactly | src/models/pi05/pi05_vispruner.cpp:113-152 | With room for one token a single round suffices and ends at room minus the parity of the surplus; with no room an even set empties and an odd one fails. |
| VisPruner.SelectTokens | src/models/pi05/pi05_vispruner.cpp:73-160 | The selection and its order are fixed by the ranking and the order of the pairs: the top-ranked tokens, then the surviving pairs, then an odd last token, or the same tokens by position; exactly target minus the parity of the surplus, all distinct; it fails exactly for an odd surplus with no diversity share. |
| VisPruner.Prune | src/models/pi05/pi05_vispruner.cpp:26-180 | For all inputs: unchanged exactly in the rejected cases, by the share exactly if target * ratio is below 1 or at least target + 1; a length error exactly when it is at least the target and the surplus odd; otherwise as many top-ranked tokens are kept as target * ratio rounded down, and the new buffer holds the rows of exactly the selected tokens, in their order. |
| VisPruner.ImportantTokensDominate | src/models/pi05/pi05_vispruner.cpp:81-87 | Each of the kept top tokens received at least as much mean attention as any token outside them. |
| VisPruner.TargetMetIffEvenSurplus | src/models/pi05/pi05_vispruner.h:39-48 | The header comment promises target tokens after the call; that holds if and only if an even number of tokens has to go. |
| VisOrder.OrderIff | src/models/pi05/pi05_vispruner.cpp:140-162 | When the position order is not kept, the tokens follow the ranking if and only if the surviving pairs are in increasing order. |
| VisOrder.FallingSimilaritiesKeepOrder | src/models/pi05/pi05_vispruner.cpp:140-149 | Similarities that strictly fall along the surviving pairs keep them in order. |
| VisOrder.OrderMeansFallingSimilarities | src/models/pi05/pi05_vispruner.cpp:140-149 | If the surviving pairs are in order, their similarities do not rise. |
| VisOrder.OrderPromiseIff | src/models/pi05/pi05_vispruner.h:50-51 | The header comment promises order by importance when the position order is not kept. For all counts that holds on all data if and only if there is room for at most three diverse tokens, or for four behind an odd number of candidates. |
| VisOrder.PruneOutOfOrder | src/models/pi05/pi05_vispruner.h:50-51 | For all other counts: an input to the pruner whose tokens come back out of order of importance. |
| Pi05Rtc.InitStepGuidance | src/models/pi05/pi05.cpp:337-352 | The loop fills the table with the cap at step 0 and the capped 1/(time*tau) - 2 elsewhere. |
| Pi05Rtc.GuidanceBounds | src/models/pi05/pi05.cpp:343-352 | Guidance never exceeds its cap and never falls below min(2, cap). |
| Pi05Rtc.GuidanceClosedForm | src/models/pi05/pi05.cpp:343-352 | Inside the run the guidance is (s^2 + (n-s)^2) / (s (n-s)), cut at the cap; at step 0 it is the cap. |
| Pi05Rtc.GuidanceSymmetric | src/models/pi05/pi05.cpp:343-352 | Steps s and N - s have the same guidance. |
| Pi05Rtc.GuidanceFallsToTheMiddle | src/models/pi05/pi05.cpp:343-352 | Up to the middle of the run the guidance only falls. |
| Pi05Rtc.PrefixWeights | src/models/pi05/pi05.cpp:1018-1036 | In the settings alone: a row weighs 1 exactly on the first delay rows, 0 exactly from the horizon or the end of the previous chunk on, and falls strictly in between, by the ramp from delay to that end or its bent form; the loops write outside the chunk exactly when horizon and previous chunk both exceed it. |
| Pi05Rtc.WeightShape | src/models/pi05/pi05.cpp:1018-1036 | For both schedules: 1 on the frozen rows, strictly decreasing inside (0, 1) up to the horizon, 0 after it, and never above the linear ramp. |
| Pi05Rtc.RewriteRows | src/models/pi05/pi05.cpp:979-1014 | The double loop rewrites exactly the cells of the first rows and columns of the flat row-major buffer and leaves all others alone; it leaves the buffer exactly when the last addressed cell lies outside. |
| Pi05Rtc.NormRoundTrip | src/models/pi05/pi05.cpp:1072-1083 | De-normalising undoes normalising and the reverse, in both modes. |
| Pi05Rtc.NormAnchors | src/models/pi05/pi05.cpp:979-991 | Normalising sends the mean to 0 and one guarded deviation further to 1, or the two quantiles to -1 and 1. |
| Pi05Rtc.ReachesAllIffRegular | src/models/pi05/pi05.cpp:1072-1083 | The latent can express every robot value if and only if the statistics are not degenerate. |
| Pi05Guided.Denoise | src/models/pi05/pi05.cpp:892-919 | The chain of tensor operations per step computes the guided Euler recurrence, entry by entry. |
| Pi05Guided.ErrorScales | src/models/pi05/pi05.cpp:907-917 | A guided step scales the distance between the estimate and the previous chunk by 1 - time*g*w. |
| Pi05Guided.CloserIff | src/models/pi05/pi05.cpp:907-917 | A guided step brings the estimate closer to the previous chunk if and only if it was off and 0 < time*g*w < 2. |
| Pi05Guided.FirstStepCloserIff | src/models/pi05/pi05.cpp:342-352 | At the first step a frozen entry gets closer if and only if the cap is below 2; under the default cap of 10 the step overshoots. |
| Pi05Guided.OutputIsLastEstimate | src/models/pi05/pi05.cpp:917-919 | The loop returns the guided estimate of its last step. |
| Pi05Guided.FrozenEntriesLand | src/models/pi05/pi05.cpp:892-919 | On a frozen entry, with N >= 2 and a cap of at least N, the output is at least N times closer to the previous chunk than the expert's last estimate. |
| Pi05Guided.ZeroWeightsAreOff | src/models/pi05/pi05.cpp:907-917 | With all weights 0 the whole trajectory is the one without guidance. |
| Pi05Guided.AgreementEndsOnPrev | src/models/pi05/pi05.cpp:892-919 | If the expert already heads for the previous chunk, guidance changes nothing at any step and the run ends exactly on it. |
| Pi05Cache.Engine.NeedsRebuildIff | src/models/pi05/pi05.cpp:825-827 | The keys decide exactly: the graph survives only with guidance and caching on and unchanged token counts. |
| Pi05Cache.Engine.Rebuild | src/models/pi05/pi05.cpp:829-948 | A successful rebuild leaves tensors and keys that fit the request; a failed one leaves no graph, whatever pointers stay behind. |
| Pi05Cache.Engine.UploadInputs | src/models/pi05/pi05.cpp:950-1055 | Unless a host vector overruns, which happens exactly under `Overruns`, every tensor belongs to the living context and takes exactly the host data of this request. |
| Pi05Cache.ExpertSees | src/models/pi05/pi05.cpp:950-1055 | The expert sees the request's own rows, positions that count up from the first image token through the suffix, an open mask and the embeddings of the times 1, 1 - 1/n, .., 1/n. |
| Pi05Cache.StartCell | src/models/pi05/pi05.cpp:967-995 | A cell of the start is the request's own noise, the drawn noise if its own has the wrong size, and with inpainting the normalised previous chunk up to the horizon. |
| Pi05Cache.PrevCell | src/models/pi05/pi05.cpp:997-1014 | A cell of the guided chunk is the normalised previous chunk where it has a row, and 0 elsewhere. |
| Pi05Cache.WeightCell | src/models/pi05/pi05.cpp:1016-1041 | A cell of the weights is the weight of its row on the dimensions of the robot and 0 on the padding. |
| Pi05Cache.Engine.ComputeActions | src/models/pi05/pi05.cpp:799-1085 | For every call sequence, failed rebuilds included, a call answers as a graph built for it would; it answers nothing when building or computing failed and overruns exactly when the horizon and the previous chunk both exceed the chunk where they are used. |
| Pi05Cache.NeverOverrunsIff | src/models/pi05/pi05.cpp:979-1034 | No request overruns a host vector if and only if the horizon fits the chunk or neither guidance nor inpainting uses the previous chunk; for all other settings one failing request is given. |
| Pi05Cache.ReusedIff | src/models/pi05/pi05.cpp:825-827 | In every run a call reuses the graph if and only if guidance and caching are on and the call just before it had the same token counts and did not fail to build. |
| Pi05Cache.OffRebuildsEveryTime | src/models/pi05/pi05.cpp:943-948 | Without guidance every call rebuilds, because 0 is stored as the horizon and compared with a positive value. |
| Pi05Cache.OneShapeBuildsOnce | src/models/pi05/pi05.cpp:825-827 | With guidance and caching, any number of requests of one shape builds the graph once. |
| Pi05Cache.NoPrevChunkIsOff | src/models/pi05/pi05.cpp:997-1043 | A request without a previous chunk is answered exactly as with guidance switched off. |
| Pi05Cache.AgreementReturnsPrev | src/models/pi05/pi05.cpp:997-1084 | With an expert that heads for the previous chunk, its rows come back in robot units through normalisation, all guided steps and de-normalisation. |

## Left out

- The tensor library, CUDA, CLIP, protobuf and ZeroMQ: not modelled. Two things are taken from the tensor library: `ggml_build_forward_expand` appends unseen ancestors before the node, and a graph runs in that order.
- Floating-point rounding, NaN, infinities, BF16/F16 conversions and quantisation: numbers are reals, so divisions by a zero range of statistics are excluded where values are normalised.
- Alignment, `ggml_tallocr` and scratch reuse by `ggml_gallocr`: allocations are given or fail as a whole.
- Weight loading, GGUF readers, conversion and comparison scripts, build files, timings, logging and dumps.
- `parse_request`, the adapter, the synchronous REP loop and the C++ API wrappers: their outcome is a verdict in the asynchronous model.
- AsyncRouter: exceptions rethrown by poll and recv, and partially received messages, which end or repeat the loop without touching the queues. The counter of served requests is incremented together with its reply.
- FasterWamCache.Engine.Predict: does not model failed allocations (a failure after the constant buffer was freed leaves the text key in place) nor requests with images, whose path is unfinished in the source.
- HY-VLA: the batched temporal attention of the vision tower, whose equality with the per-patch branch depends on permute semantics of the library; file errors while token embeddings are fetched.
- HyPrefixBuilder.RootOf: finds the integer square root by counting; the source rounds a floating-point root and tests the square, which decides the same.
- LingBotKv: the F32 path taken with dumps is the concatenating reference itself; values of F16 conversion are part of the operators.
- Npy.WriteNpy: does not model disk errors nor shapes whose element count leaves 64 bits.
- NpyLayout.ReadNpy: does not model open failures nor dimensions and products that leave 64 bits; a negative element count makes `resize` throw, which is an outcome of the model. `as_i32` has the shape of `as_f32` and is left out.
- VisPruner.SortDescending: `std::sort` leaves the order of ties open, and so do the contracts.
- VisSimilarity.NormaliseRows: the square root is a parameter that squares back to its argument and is positive on positive numbers.
- Pi05Cache.Engine.ComputeActions: takes prepared inputs of the sizes that preparation gives them. A call that overruns a host vector is an outcome of its own and followed no further; what the program does behind such a write is undefined.
- AsyncFasterWam: each engine call is one step; overlaps of prepare and compute inside a call are not modelled.
- FasterWamDenoise.Denoise: a block, the encoder, the modulation and the head are one node each, and weights are part of the operators.
- LingBotEngine.Engine.Predict: what vision and embedding lookup decide is a parameter; `compute` is called only with prepared inputs that are ok, as `predict` and the server do. Statistics whose guarded range is 0 are excluded.
- NpyOrder.OrderIsIgnored: is stated for float32 files of version 1; the flag is read nowhere, for other types and versions `NpyLayout.ReadIff` says so.
- Pi05Rtc.WeightShape: asks of `expm1` only that it is strictly increasing and 0 at 0.
- Random noise: a parameter, drawn by the caller when the request brings none of the right size.
