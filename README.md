# A Dafny model of the DLRM training pipeline and the all-to-all re-sharding laws

This project models the sequential core of a recommendation-model trainer whose
embedding tables are sharded across workers:

- **Batch placement** (`put_data_in_device`). A batch is moved to its devices. When one
  global batch is replicated to every worker, the dense features and labels are cut into
  `world_size` contiguous row sections with `torch.tensor_split` semantics, and the worker
  keeps section `rank`. The sparse features are moved whole. With the distributed data
  loader a fresh `(dense, sparse, labels)` triple is returned instead. Module `Placement`.
- **The two-slot pipeline** (`TrainPipelineBase`). Each `progress` call pulls the next
  batch and then works on the current one: zero_grad, the stream join, forward and metrics,
  criterion and backward, restaging, and the optimizer step. The model, criterion,
  optimizer, metrics and CUDA streams are callbacks whose calls are recorded as events in a
  trace. Module `Pipeline` states one call and a whole driving loop as pure functions over
  the observable state and proves the ordering, lookahead, termination and quirk
  properties. Module `TrainPipeline` is the object itself: a class with `_cur_batch`,
  `_connected` and the shadowed `_connect`. Each of its methods is proved to follow
  `Pipeline`'s functions.
- **The drivers** (`_train`, `_evaluate`, `train_val_test`, `TrainValTestResults`). These
  are loops that call `progress` until `StopIteration`, and an epoch loop that appends one
  result per epoch. Each epoch takes a fresh pass over each loader (`iter(data_loader)`),
  so a loader is a function from the epoch number to the items of that pass. Module `Driver`.
- **The `parse_args` post-processing**. This covers the choice of embedding-size table from
  the dataset path, `list(map(int, s.split(",")))`, and the default batch limits of 10.
  Module `Config`.
- **The all-to-all laws** asserted by `tests/test_comm.py`. All W ranks are modelled at once.
  The input is a sequence of per-rank matrices. `AllToAll` cuts every rank's tensor into W
  pieces along the scatter dimension, sends piece j to rank j, and joins what each rank
  receives along the gather dimension. `ExtAllToAllFwd` and `ExtAllToAllBwd` are defined by
  the global laws of their tests. Lemmas prove that the two descriptions agree, that forward
  and backward invert each other, and that world size 1 is the identity. Module `AllToAll`.

Four behaviours of the code are worth noting:

- `torch.tensor_split` never rejects a row count that the world size does not divide. The
  first `L mod W` sections get one extra row. See `Placement.TensorSplitIndivisible`.
- `progress` restages `cur_batch`, the batch it has just consumed, and not `next_batch`
  (line 267 overwrites line 263). Without the distributed loader, every forward of a loop
  therefore runs on the first item, restaged again and again. Every later item is pulled
  and then dropped. See `Pipeline.RestagesConsumedBatch` and `Pipeline.RunFromFresh`.
  The restaging splits the already split rows again, so over two or more ranks the dense
  rows and labels of that batch shrink on every call until fewer than two are left. See
  `Pipeline.RestageShrinks` and `Driver.LabelsSeenShrink`.
- `reset` assigns `_connect`, not `_connected`. A connected pipeline then fails the
  `cur_batch is not None` assertion. A pipeline that never connected calls the `False`
  stored under `_connect` and raises `TypeError`. See `Pipeline.ProgressAfterReset`.
- Both staging calls pass the pipeline's sparse device as `dense_device`, and the other way
  round. See `Pipeline.DevicesSwapped`. With the distributed loader, a tuple is stored as
  `_cur_batch`, and the first call that reaches the forward fails with `AttributeError`. See
  `Pipeline.DistributedFails`.

## Model

| member | source | states |
|---|---|---|
| `Placement.TensorSplit` | recsys/dlrm_main_pipeline.py:185-186 | section k of n holds `len / n` rows, plus one when k < `len % n`; no row count is rejected |
| `Placement.TensorSplitPartition` | recsys/dlrm_main_pipeline.py:185-186 | the sections of all ranks, joined in rank order, are exactly the original rows |
| `Placement.TensorSplitBalanced` | recsys/dlrm_main_pipeline.py:185-186 | earlier sections are never smaller, and any two sections differ by at most one row |
| `Placement.TensorSplitIndivisible` | recsys/dlrm_main_pipeline.py:185-186 | 4 rows over 3 ranks split into 2, 1 and 1 rows, with no error |
| `Placement.TensorSplitWhole` | recsys/dlrm_main_pipeline.py:185-186 | with one rank, the only section is the whole tensor |
| `Placement.TensorSplitShrinks` | recsys/dlrm_main_pipeline.py:185-186 | a section is never longer than the tensor, and with two or more ranks strictly shorter once the tensor has two or more rows |
| `Placement.Place` | recsys/dlrm_main_pipeline.py:180-188 | the distributed branch returns a triple with unsplit rows; the other branch keeps the batch and the rank's section of dense rows and labels; both branches move the sparse part whole to the sparse device |
| `Placement.PlaceAllRanks` | recsys/dlrm_main_pipeline.py:185-186 | the dense rows and labels kept by all ranks, joined in rank order, give back the batch's rows and labels |
| `Placement.PutDataInDevice` | recsys/dlrm_main_pipeline.py:180-188 | the non-distributed branch mutates the batch object and returns that same object; the distributed branch leaves the batch untouched and returns a fresh triple |
| `Pipeline.StageBatch` | recsys/dlrm_main_pipeline.py:267-268 | staging puts dense rows and labels on the pipeline's sparse device and the sparse part on its dense device (swapped arguments) |
| `Pipeline.MetricEvents` | recsys/dlrm_main_pipeline.py:252-253 | each metric is called once, in list order, with the current labels |
| `Pipeline.ProgressSpec` | recsys/dlrm_main_pipeline.py:232-273 | one call pulls at most two items (one, or two on the connecting call, when it completes); StopIteration happens exactly when the iterator runs out before the forward |
| `Pipeline.ResetSpec` | recsys/dlrm_main_pipeline.py:220-222 | reset clears `_cur_batch` and shadows `_connect`, and leaves `_connected` unchanged |
| `Pipeline.RunSpec` | recsys/dlrm_main_pipeline.py:299-306 | a driving loop ends on the first call that does not complete, and never pulls more items than there are |
| `Pipeline.ComputeOrdered` | recsys/dlrm_main_pipeline.py:236-273 | whatever the outcome, the events after the connection check come in the fixed order pull, zero_grad, join, forward, metrics, criterion, backward, restage, optimizer step, each at most once |
| `Pipeline.CompletedCallSteps` | recsys/dlrm_main_pipeline.py:243-273 | a completed call forwards the current batch, calls every metric with its labels and restages it; zero_grad, criterion, backward and the step happen exactly when training; the join happens exactly when there is a copy stream |
| `Pipeline.CallEventsMembers` | recsys/dlrm_main_pipeline.py:243-273 | the events of a completed call, member by member, with the training-only events present exactly in training mode |
| `Pipeline.EvalHasNoTraining` | recsys/dlrm_main_pipeline.py:243-273 | in eval mode, no call makes a zero_grad, criterion, backward or optimizer-step call, however the call ends |
| `Pipeline.StopIterationFirst` | recsys/dlrm_main_pipeline.py:232-238 | when `next` raises StopIteration, a connected pipeline's state is unchanged and no event happens; otherwise only `_connect`'s pull and staging happen |
| `Pipeline.RestagesConsumedBatch` | recsys/dlrm_main_pipeline.py:240-268 | after a completed call, `_cur_batch` holds the consumed batch restaged, not `next_batch` |
| `Pipeline.RestageShrinks` | recsys/dlrm_main_pipeline.py:267-268 | without the distributed loader, restaging a batch never adds dense rows or labels, and over two or more ranks removes some once there are two or more |
| `Pipeline.DevicesSwapped` | recsys/dlrm_main_pipeline.py:226-229 | after a completed call, the dense rows sit on the pipeline's sparse device and the sparse part on its dense device |
| `Pipeline.ProgressAfterReset` | recsys/dlrm_main_pipeline.py:220-241 | after reset, a connected pipeline raises AssertionError once it has pulled an item; an unconnected one raises TypeError without pulling |
| `Pipeline.DistributedFails` | recsys/dlrm_main_pipeline.py:247-251 | with the distributed loader, the first call with two items raises AttributeError before any forward |
| `Pipeline.ComputeLookahead` | recsys/dlrm_main_pipeline.py:236-268 | a call on a connected pipeline pulls at most one item and never holds more than two batches (current and next) |
| `Pipeline.RunLookahead` | recsys/dlrm_main_pipeline.py:232-268 | along a whole loop from a new pipeline, no prefix of the trace holds more than two pulled and unforwarded batches |
| `Pipeline.RunFromConnected` | recsys/dlrm_main_pipeline.py:263-268 | from a connected, non-distributed pipeline, the loop completes one call per remaining item, stops with StopIteration, and every forward runs on the batch already held |
| `Pipeline.RunFromFresh` | recsys/dlrm_main_pipeline.py:299-306 | on n items, with a criterion and an optimizer when training and no distributed loader, n - 1 calls complete, every item is pulled, the loop ends in StopIteration, and every forward runs on the first item |
| `TrainPipeline.DataIter.Next` | recsys/dlrm_main_pipeline.py:237-238 | `next` yields a fresh batch object for the next item and advances, or signals StopIteration without advancing |
| `TrainPipeline.WaitForBatch` | recsys/dlrm_main_pipeline.py:190-195 | without a stream, nothing happens; with one, the join is recorded, and `record_stream` fails on a tuple |
| `TrainPipeline.TrainPipelineBase.constructor` | recsys/dlrm_main_pipeline.py:199-218 | a new pipeline holds no batch and is not connected |
| `TrainPipeline.TrainPipelineBase.Reset` | recsys/dlrm_main_pipeline.py:220-222 | the new state is `ResetSpec` of the old one |
| `TrainPipeline.TrainPipelineBase.Connect` | recsys/dlrm_main_pipeline.py:224-230 | pulls and stages the first batch, as `ConnectSpec` says, and the iterator advances by what it pulled |
| `TrainPipeline.TrainPipelineBase.CallMetrics` | recsys/dlrm_main_pipeline.py:252-253 | the loop over the metrics logs exactly `MetricEvents` |
| `TrainPipeline.TrainPipelineBase.RunModel` | recsys/dlrm_main_pipeline.py:250-257 | logs the forward and the metric calls; fails when training without a criterion |
| `TrainPipeline.TrainPipelineBase.Restage` | recsys/dlrm_main_pipeline.py:255-273 | criterion and backward, then the overwritten `next_batch` assignment and the restaging of the consumed batch, then the step; the batch object is kept in place without the distributed loader |
| `TrainPipeline.TrainPipelineBase.Consume` | recsys/dlrm_main_pipeline.py:240-273 | outcome, new state and logged events are those of `ConsumeSpec` |
| `TrainPipeline.TrainPipelineBase.Compute` | recsys/dlrm_main_pipeline.py:236-273 | outcome, new state, pulls and events are those of `ComputeSpec` |
| `TrainPipeline.TrainPipelineBase.Progress` | recsys/dlrm_main_pipeline.py:232-273 | outcome, new state, pulls and events are those of `ProgressSpec`, so every `Pipeline` lemma holds of the object |
| `Driver.Drive` | recsys/dlrm_main_pipeline.py:299-306 | the try/except loop returns the escaping exception, the trace and the completed-call count of `RunSpec` from a new pipeline |
| `Driver.Train` | recsys/dlrm_main_pipeline.py:284-306 | `_train` runs the loop in training mode and lets only non-StopIteration errors escape |
| `Driver.TrainEpoch` | recsys/dlrm_main_pipeline.py:292-306 | with a criterion, an optimizer and no distributed loader, an epoch over n items raises nothing and completes n - 1 steps |
| `Driver.Evaluate` | recsys/dlrm_main_pipeline.py:309-331 | `_evaluate` returns (AUROC, accuracy) computed from the metric updates of its loop, or the error that escaped |
| `Driver.EvaluateUpdates` | recsys/dlrm_main_pipeline.py:316-324 | without the distributed loader, the evaluation loop raises nothing; AUROC and accuracy are updated with the same labels, n - 1 updates from the first item |
| `Driver.LabelsSeen` | recsys/dlrm_main_pipeline.py:250-253 | the labels seen over n calls: one entry per call, starting with the held batch's labels |
| `Driver.LabelsSeenShrink` | recsys/dlrm_main_pipeline.py:250-268 | the labels each later update sees are never more than the previous update's, and over two or more ranks fewer while there were two or more |
| `Driver.TrainValTestResults.constructor` | recsys/dlrm_main_pipeline.py:276-281 | the lists start empty and the test fields start as None |
| `Driver.EpochAurocs` | recsys/dlrm_main_pipeline.py:350-358 | one AUROC result per epoch, the k-th from the k-th pass over the validation loader |
| `Driver.EpochAccuracies` | recsys/dlrm_main_pipeline.py:350-358 | one accuracy result per epoch, the k-th from the k-th pass over the validation loader |
| `Driver.FirstErrorSpec` | recsys/dlrm_main_pipeline.py:350-355 | the epochs raise nothing exactly when no single epoch raises, and otherwise the error of the earliest epoch that raises escapes |
| `Driver.FirstErrorStops` | recsys/dlrm_main_pipeline.py:350-355 | once an epoch has raised, later epochs do not change what escapes |
| `Driver.FirstErrorSteady` | recsys/dlrm_main_pipeline.py:350-355 | when every epoch raises what the first does, the loop raises what the first epoch raises, and nothing without epochs |
| `Driver.EpochErrorsSteady` | recsys/dlrm_main_pipeline.py:296-355 | loaders that yield the same items on every pass make the loop raise exactly what one epoch over those items raises |
| `Driver.RunEpoch` | recsys/dlrm_main_pipeline.py:351-358 | one epoch trains over its pass of the training loader, then evaluates over its pass of the validation loader, and appends the pair unpacked in swapped order; on an error the results are untouched |
| `Driver.RunEpochs` | recsys/dlrm_main_pipeline.py:350-358 | the epoch loop raises the first error of any epoch, train before val; otherwise it leaves one validation result per epoch in each list, AUROC results in `val_accuracies`, and leaves the test fields unset |
| `Driver.TrainValTest` | recsys/dlrm_main_pipeline.py:334-365 | one entry in each validation list per epoch, from that epoch's pass over the validation loader; test fields set once after the loop; AUROC results in the lists named after accuracy; errors propagate in epoch order, train before val, then test |
| `Config.ContainsSpec` | recsys/dlrm_main_pipeline.py:161-166 | `sub in s` holds exactly when sub occurs at some position of s |
| `Config.SelectEmbeddings` | recsys/dlrm_main_pipeline.py:160-167 | without a dataset directory the given value stays; the result is the given value or one of the three tables, and it changes only for a path containing criteo or avazu |
| `Config.SelectionCriteoAnywhere` | recsys/dlrm_main_pipeline.py:161-165 | wherever criteo occurs in the path, a criteo table is chosen: the Kaggle one when kaggle occurs anywhere, the full one when it occurs nowhere |
| `Config.SelectionAvazu` | recsys/dlrm_main_pipeline.py:161-167 | a path in which criteo occurs nowhere and avazu occurs somewhere gets the avazu table |
| `Config.SelectionNeither` | recsys/dlrm_main_pipeline.py:160-167 | a path in which neither criteo nor avazu occurs keeps the given value, whether or not kaggle occurs |
| `Config.SelectionKaggleIgnored` | recsys/dlrm_main_pipeline.py:161-167 | without criteo, two paths that agree on whether avazu occurs get the same value, so kaggle never matters |
| `Config.SelectionKaggle` | recsys/dlrm_main_pipeline.py:161-163 | a path naming criteo, kaggle and avazu selects the Kaggle criteo table |
| `Config.SelectionCriteoFirst` | recsys/dlrm_main_pipeline.py:161-167 | a path naming avazu and criteo selects the full criteo table |
| `Config.Split` | recsys/dlrm_main_pipeline.py:170 | `split(",")` yields one field per comma plus one, none holding a comma |
| `Config.JoinSplit` | recsys/dlrm_main_pipeline.py:170 | joining the split fields with the separator gives back the string |
| `Config.SplitJoin` | recsys/dlrm_main_pipeline.py:170 | splitting comma-free fields joined with commas gives back the fields |
| `Config.ParseInt` | recsys/dlrm_main_pipeline.py:170 | `int()` succeeds only on a non-blank literal whose last non-space character is a digit, gives a negative value only after a minus sign, and otherwise raises a ValueError that carries the field |
| `Config.ParseShow` | recsys/dlrm_main_pipeline.py:170 | `int(str(n)) == n` for every integer (Python's digit limit for `str` and `int` is not modelled) |
| `Config.ParseIntSigned` | recsys/dlrm_main_pipeline.py:170 | `int` accepts surrounding whitespace, a sign and underscores between digits |
| `Config.ParseIntLeadingZeros` | recsys/dlrm_main_pipeline.py:170 | `int` accepts a plus sign and leading zeros |
| `Config.ParseIntRefuses` | recsys/dlrm_main_pipeline.py:170 | `int` raises ValueError on an empty or blank field, a lone sign, and a doubled or trailing underscore |
| `Config.ParseAll` | recsys/dlrm_main_pipeline.py:170 | `list(map(int, fs))` succeeds exactly when every field parses, gives one int per field in order, and otherwise raises the first failing field's error |
| `Config.ParseSizes` | recsys/dlrm_main_pipeline.py:170 | succeeds exactly when every comma-separated field parses, and then holds one int per field |
| `Config.ParseSizesRoundTrip` | recsys/dlrm_main_pipeline.py:170 | any non-empty list of ints, written with `str` and joined by commas, parses back to itself |
| `Config.ParseSizesRejects` | recsys/dlrm_main_pipeline.py:170 | any size string with an empty field raises ValueError; the empty string and two commas in a row are such strings |
| `Config.DefaultLimits` | recsys/dlrm_main_pipeline.py:171-175 | the limits keep their keys; attributes that are not stage limits are unchanged; a given dataset directory changes nothing |
| `Config.DefaultLimitsPerStage` | recsys/dlrm_main_pipeline.py:171-175 | without a dataset directory, a stage limit that is None becomes 10 and an explicit one is kept |
| `Config.Namespace.constructor` | recsys/dlrm_main_pipeline.py:158 | the namespace holds the dataset directory, the size string as text, and a limit attribute for each stage |
| `Config.Namespace.FillDefaultLimits` | recsys/dlrm_main_pipeline.py:172-175 | the getattr/setattr loop over the stages leaves exactly `DefaultLimits(None, old limits)` |
| `Config.Namespace.PostProcess` | recsys/dlrm_main_pipeline.py:160-175 | the selected table is parsed into a list of ints; a ValueError escapes before the limits are touched; otherwise the limits are defaulted |
| `AllToAll.AllToAll` | tests/test_comm.py:79-80 | refuses an empty group, mismatched shapes and an indivisible scatter extent; otherwise the scatter extent is divided by W and the gather extent multiplied by W |
| `AllToAll.DualAllToAllGrad` | tests/test_comm.py:85-88 | the gradient rule is the same collective on the output gradient, with the two dimensions swapped, and with the dual shape law |
| `AllToAll.CollectTensors` | tests/test_comm.py:17-32 | rank 0 gets every rank's tensor joined along `dim` in rank order (block q is rank q's tensor); other ranks get None |
| `AllToAll.ExtAllToAllFwd` | tests/test_comm.py:39-50 | maps each rank's (B, H/W) input to a (B/W, H) output when W divides B |
| `AllToAll.ExtAllToAllBwd` | tests/test_comm.py:57-68 | maps each rank's (B/W, H) input to a (B, H/W) output when W divides H |
| `AllToAll.ForwardGlobalLaw` | tests/test_comm.py:47-50 | the inputs joined along dim 1 equal the forward outputs joined along dim 0 |
| `AllToAll.BackwardGlobalLaw` | tests/test_comm.py:65-68 | the inputs joined along dim 0 equal the backward outputs joined along dim 1 |
| `AllToAll.ForwardBackwardRoundTrip` | tests/test_comm.py:45-68 | backward applied to forward's output gives back every rank's input exactly |
| `AllToAll.BackwardForwardRoundTrip` | tests/test_comm.py:60-68 | forward applied to backward's output gives back every rank's input exactly |
| `AllToAll.DualForwardIsExtFwd` | tests/test_comm.py:79-83 | `dual_all_to_all(x, scatter_dim=0, gather_dim=1)` equals `ext_all_to_al_fwd(x)` on every input |
| `AllToAll.DualGradIsExtBwd` | tests/test_comm.py:85-88 | the gradient `dual_all_to_all` hands its input equals `ext_all_to_all_bwd` of the output gradient |
| `AllToAll.DualRoundTrip` | tests/test_comm.py:71-88 | for every choice of the two dimensions, the gradient rule inverts the forward exactly |
| `AllToAll.SameDimRoundTripRows` | tests/test_comm.py:71-88 | with both dimensions on rows, the exchange is its own inverse |
| `AllToAll.SameDimRoundTripCols` | tests/test_comm.py:71-88 | with both dimensions on columns, the exchange is its own inverse |
| `AllToAll.WorldSizeOneIdentity` | tests/test_comm.py:102-106 | with world size 1, forward and backward both return the input unchanged |
| `AllToAll.TestShapes` | tests/test_comm.py:39-42 | the test shapes (2W, 4) and (2, 4W) are mapped onto each other by the two directions |

## Left out

- CUDA streams, `record_stream` and `wait_stream` are not modelled as concurrency. The wait
  is a single `Join` event, recorded only when a copy stream exists (a CUDA sparse device).
- `.to(device, non_blocking=...)` keeps the contents and changes only the recorded device.
  Asynchronous transfer is not modelled.
- The NCCL / `torch.distributed` collectives, `launch`, `DISTMGR`, `mp.spawn` and `free_port`
  are not modelled. All ranks are modelled at once, as one function over their tensors.
- The bodies of `ext_all_to_al_fwd`, `ext_all_to_all_bwd` and `dual_all_to_all`
  (`recsys/utils/extended_distributed.py`, `recsys/modules/functional.py`) are not part of
  this model. The forward and backward are defined by the laws their tests assert, and the
  dual primitive by its split, exchange and concatenate data movement.
- `torch.allclose` becomes exact equality, because the collectives only move values. Tensor
  values are integers and are never inspected.
- `HybridParallelDLRM`, the embedding cache, the criterion, SGD and `torch.randn` are not
  modelled. The model call records its inputs. Predictions (and `.squeeze()`) are not
  recorded, so metric and criterion events carry only the labels.
- torchmetrics values are not modelled. A `Score` records the labels each metric was
  updated with, not the float that `compute()` derives from them.
- Driver.Evaluate: `auroc.compute().item()` and `accuracy.compute().item()` are taken not to
  raise, including on a metric that was never updated (a loader with at most one item).
- `torch.no_grad()`, the profiler and `prof.step()`, tqdm and logging are not modelled.
  None of them changes the control flow that is modelled.
- `inspect_time` and the rest of `main` are orchestration and I/O, and are not modelled.
- The argparse declarations are not modelled. `Config.Namespace` starts from the values
  argparse would produce.
- The dataset modules `recsys/datasets/criteo.py` and `recsys/datasets/avazu.py` are not
  part of this model. Their embedding-size strings are the parameters `Config.Tables`.
  `criteo.STAGES` is taken to be train, val and test, the three stages whose
  `limit_*_batches` options are declared.
- Config.ParseInt: only ASCII whitespace and ASCII digits are modelled. Python's `int()`
  also accepts other Unicode whitespace and decimal digits.
- Config.ParseShow: Python 3.11 and later refuse `str` and `int` conversions of more than
  4300 decimal digits by default (a ValueError). The model has no such limit, so the round
  trip is stated for every integer.
- `Driver.Drive` covers only finite loaders: the model's iterator is a finite sequence of
  items, so the `itertools.count()` loop always ends.
- `tests/test_embeddings/common.py` holds only constants and a float-tolerance check, so
  there is nothing in it to model.
