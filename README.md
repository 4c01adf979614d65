# AutoRound control logic, TEQ module rewrite and integer quantizer rules in Dafny

This project models the parts of AutoRound, a weight-only post-training
quantization tool for large language models, whose behaviour can be
stated without running a network. It has three parts.

- **Block-wise tuning driver (`auto_round/autoround.py`).** This covers:
  - the constructor's defaults and `check_configs`;
  - the per-layer configuration merge of `set_layerwise_config`;
  - calibration counting in `calib`;
  - the capture buffer written by the patched forward of `get_forward_func`, and the forward swap of `_replace_forward` / `_recover_forward`;
  - `cache_block_input`;
  - the sample windows of `get_block_outputs`;
  - the best-snapshot loop of `quant_block`;
  - the block-group walk of `qdq_weight_round`, with its resume marker and checkpoints;
  - the post-pass of `quantize`, which writes `scale`, `zp` and `g_idx` and marks unquantized layers as 16 bit;
  - layer wrapping and unwrapping: `WrapperLinear`, `WrapperTransformerConv1d`, `wrapper_block`, `unwrapper_block` and `WrapperMultiblock.forward`.
- **TEQ module-tree rewrite (`auto_round/teq_util.py`).**
  - `replace_` wraps the layers of each pair in `MulLinear` and the pair's previous op in `DivLinear`, all sharing one fresh `ScaleMod`.
  - `_revert_replace` undoes this in reverse order and returns the scales in pair order.
  - The model also covers the freezing helpers, `_create_layer_info` and the `api_replace_` / `api_absorb_mul_` bookkeeping.
- **Integer-level quantizer rules (`auto_round/quantizer.py`).**
  - `round_ste`.
  - `QuantizerConfig.to_dict`.
  - `WUniformAffineQuantizer`: the bit-width guard, the EMA range, the min/max and MSE range choice, the step size with its `1e-8` floor, level clamping and `forward`.
  - `AdaRoundQuantizer`: construction, hard and soft rounding, and soft targets.

Each module is written in the form of its source.
- Code that mutates objects or runs loops is a Dafny `class` or `method`. Examples: the `AutoRound` object, the TEQ block, the quantizer object, the layer wrappers, the calibration loop, the tuning loop and the block walk.
- Each such method is proved equal to a specification function on values.
- Pure expressions are functions.
- The properties the code and its tests promise are lemmas about those functions.

How the model represents the source:
- Tensors are sequences of rows of reals; `torch.cat(dim=0)` is sequence concatenation. It raises RuntimeError when the rows of the two tensors differ in length; a tensor with no rows fits any other.
- Dictionaries are maps.
- Python exceptions and `exit()` are the `Error` values of a `Result`.
- These inputs are parameters:
  - numerical collaborators the code calls but does not define: `quant_weight`, `F.linear`, the block forwards, `lp_loss`, `exp`, `log` and `sigmoid`;
  - environment reads: `GlobalConfig` and `MAX_NUM_BLOCKS`;
  - randomness: the `rand_like` draw;
  - the loss of each tuning iteration;
  - the model's forward up to the captured block (`callOf`). It turns each batch fed in calibration into at most one call of that block's patched forward. It gives no call when the forward raises before reaching the block; the broad `except` swallows that error too (autoround.py:801-804);
  - `check_to_quantized` (`toQuantize` in `Wrappers.WrapPlan`), which decides from a layer's attributes whether it is tuned;
  - `get_scale_shape` (`scaleLen` in the wrapper constructor and `Wrappers.Installed`), the length of a layer's min/max scale vectors.
- A module tree slot (`Linear`, `MulLinear(inner, s)`, `DivLinear(inner, s)`) is a datatype; `get_module_by_name_suffix` and `set_module_name` are map lookup and update.

Where the repository's own documentation describes the behaviour differently, the model follows the code:
- The early stop in `quant_block` fires when `i - last_best_iter` *reaches* `dynamic_max_gap` (autoround.py:1074).
- `scale_dtype` is overwritten for every supported layer, even when the user's entry already has one (autoround.py:707).
- A block is skipped when `i + 1 <= _pre_quantized_block_num`, i.e. when its index is strictly below the resume marker (autoround.py:1171).
- The capture forward is not restored when `calib` ends in `exit()`: there is no `try`/`finally` around it (autoround.py:836-839).

Where the code itself is wrong (see "## Findings"), the members that the finding touches take a flag `asWritten`. With `asWritten` set they do what the code does; without it they do what the code evidently intends. The end-to-end members (`AutoRound.AutoRound.Calib`, `CacheBlockInput`, `PostPass`, `TuneFromCache`, `Quantize` and the layer wrappers) pass the flag through, so both behaviours are stated for the whole run.

## Model

| member | source | states |
|---|---|---|
| Common.RunningBestIsFirstMinimum | auto_round/autoround.py:1062-1068 | The running best under a strict `<`, started at a bound, picks no index exactly when no score beats the bound. Otherwise it picks the first index of the minimum and its value is that score. |
| Common.RunningBestNonIncreasing | auto_round/autoround.py:1062-1063 | The best loss over a longer prefix of the iterations is never larger than over a shorter one. |
| Common.SliceStopLen | auto_round/autoround.py:795-796 | The number of rows `x[:stop]` keeps, with Python slice semantics: never more than the length, `min(stop, len)` for a non-negative stop, and counted from the end (floored at 0) for a negative one. |
| Config.ParseScaleDtype | auto_round/autoround.py:499-504 | `fp16`/`float16` give float16 and `bf16`/`bfloat16` give bfloat16, each if and only if; every other string gives float32. |
| Config.FillIfMissing | auto_round/autoround.py:699-706 | One `if key not in entry` fill: a present key keeps its value, a missing key gets the default, and no other key changes. |
| Config.FillDefaults | auto_round/autoround.py:692-706 | Every key the entry had is kept with its value. Each of `data_type`, `bits`, `group_size` and `sym` is added with the run-wide value only when missing. |
| Config.MergeEntry | auto_round/autoround.py:692-707 | The merged entry's four defaulted keys hold the layer's own value when given and the run-wide value otherwise. `scale_dtype` is always the run-wide one. Other keys are unchanged, and an absent layer gets exactly the five keys. |
| Config.MergeEntryIdempotent | auto_round/autoround.py:692-707 | Merging an already merged entry again changes nothing. |
| Config.FillDefaultsComplete | auto_round/autoround.py:698-706 | An entry that already has all four defaulted keys is left as it is. |
| Config.SupportedNames | auto_round/autoround.py:684-691 | Exactly the names of the `Linear`/`Conv1D` modules among those walked. |
| Config.MergeAllSpec | auto_round/autoround.py:684-707 | After the walk, `weight_config` has the old keys plus every supported layer's name. Each supported layer's entry is the merge of its old entry, or of nothing. Entries of other names are unchanged. |
| Config.MergeAllKeys | auto_round/autoround.py:684-693 | The keys of `weight_config` after the walk are the old keys plus the supported layer names. |
| Config.MergeAllEntries | auto_round/autoround.py:684-707 | The entry of every supported layer is its merged entry; every other entry is untouched. |
| Config.AttrsOf | auto_round/autoround.py:709-713 | The five layer attributes equal the merged entry's `data_type`, `bits`, `group_size`, `sym` and `scale_dtype`. |
| Config.ApplyDefaults | auto_round/autoround.py:474-539 | `iters` is positive and is reset to 200 when not positive. Without `lr`, `lr * iters == 1`. `minmax_lr` defaults to `lr`. The scale dtype is parsed; every other setting (bits, group size, sym, data type, batch size, seqlen, sample count, block count, sampler, accumulation steps, quantized-input and min/max-tuning switches, `not_use_best_mse`, `dynamic_max_gap`) is copied unchanged. |
| Config.FirstFailingCheck | auto_round/autoround.py:665-672 | No assertion fails exactly when bits, batch size, iters, seqlen, n_blocks and accumulation steps are positive and group size is -1 or at least 1. The iters check fails only after the earlier checks passed. |
| Config.ItersCheckNeverFails | auto_round/autoround.py:526-528 | After the constructor's reset, the `iters > 0` assertion can never be the one that fails. The checks pass exactly when the other six arguments are valid. |
| Config.Construct | auto_round/autoround.py:540-545 | Construction succeeds exactly when `enable_full_range` is off and `check_configs` passes. It then yields the defaulted settings, and an error is an AssertionError. |
| Calib.Step | auto_round/autoround.py:773-808 | One batch can only end in `exit()` or a KeyError. The count never decreases and never passes the cap, and the loop stops only once the cap is reached. |
| Calib.Run | auto_round/autoround.py:773-808 | Over any sequence of batches the count never decreases and stays within the cap. |
| Calib.Calibrate | auto_round/autoround.py:773-819 | A calibration that returns has counted at least one sample and at most `n_samples`; a zero count is `exit()`. |
| Calib.SkippedBatches | auto_round/autoround.py:774-794 | A `None` batch, or one whose last dimension is shorter than `seqlen`, changes neither the count nor what was fed. |
| Calib.CountedBatch | auto_round/autoround.py:775-808 | A readable batch of any kind (tensor, dict or tokenized text) whose `input_ids` are long enough adds the rows of its `input_ids`, truncated to the remaining room, so the count is `min(total + rows, n)`. The loop stops exactly when that reaches the cap. |
| Calib.StoppedIgnoresRest | auto_round/autoround.py:807-808 | After the `break` no later batch has any effect. |
| Calib.CountedFeeds | auto_round/autoround.py:774-796 | The feeds of the batches that get past the `None` and `seqlen` filters, in dataloader order; never more than the batches given. |
| Calib.TensorBatchesNeverReachModelAsWritten | auto_round/autoround.py:776-805 | As written, a plain tensor batch is counted but never fed to the model: one 2×8 batch with seqlen 8 and cap 2 makes calibration succeed with 2 samples counted and nothing fed. |
| Calib.StepFeeds | auto_round/autoround.py:774-808 | Corrected: one pass feeds the model exactly when the batch passes the filters, and it feeds exactly that batch (the tensor, or the dict of keyword tensors). The loop breaks only after a batch that was fed. |
| Calib.CountedFeedsPrefix | auto_round/autoround.py:774-796 | The counted feeds of the first `k + 1` batches are the first batch's feed (if counted) followed by those of the next `k`. |
| Calib.ReadableBatchesRun | auto_round/autoround.py:778-794 | Corrected: the loop can fail only on an unreadable batch (text without a tokenizer, a dict without `input_ids`); a dataloader of readable batches always runs to the end or the break. |
| Calib.EveryCountedBatchIsFed | auto_round/autoround.py:774-808 | Corrected: the batches fed are exactly, and in order, the feeds of the counted batches. If the loop ran through the dataloader that is all of them; if it broke out, it is those among the batches read up to the break. Readable batches never make it fail. |
| Calib.FedUpToStop | auto_round/autoround.py:774-808 | Corrected: a run that reads every batch without breaking out has fed the model the feeds of all counted batches, after those fed before. |
| Calib.FedUntilBreak | auto_round/autoround.py:774-808 | Corrected: a run that breaks out has fed the model the feeds of the counted batches among the batches it read, up to and including the one that reached the cap. |
| Calib.RunAt | auto_round/autoround.py:774-808 | One turn of the loop from position `i`: the run from `i` is the step on batch `i` followed by the run from `i + 1`, or its error. |
| Calib.FedWhenCounted | auto_round/autoround.py:795-806 | Corrected: a successful run never leaves fewer feeds than it started with, and a run whose count changed has fed at least one more batch. |
| Calib.CorrectedCalibrationFeeds | auto_round/autoround.py:809-819 | Corrected: a calibration that returns has fed the model at least once, so `cache_block_input` has inputs. |
| Capture.CatArg | auto_round/autoround.py:875-877 | Concatenation succeeds exactly when both arguments are tensors whose rows have one length, and is then their concatenation along dimension 0. Otherwise it is a TypeError for a non-tensor and a RuntimeError for mismatched rows. |
| Capture.KwargValue | auto_round/autoround.py:883-885 | `kwargs[k]`: absent exactly when no keyword argument is named `k`; otherwise the value of one passed under that name. |
| Capture.Accumulate | auto_round/autoround.py:870-879 | The key's stored value becomes the old tensor followed by the new one, or the new value when nothing or `None` was stored. A non-tensor is a TypeError and a tensor of another row length a RuntimeError (exactly then); either leaves the entry as it was. Other keys do not change. |
| Capture.StoreKwarg | auto_round/autoround.py:868-892 | Storing one keyword argument keeps every existing key, changes no other key and adds at most that key. It raises only TypeError, KeyError, AttributeError or RuntimeError. RuntimeError exactly for an attention-mask tensor, or an alibi tensor passed with a tensor `attention_mask`, whose rows do not match the stored tensor's. AttributeError exactly for an attention mask that is neither a tensor nor `None` (`.to` on it), or for an alibi tensor whose `attention_mask` is passed as a non-tensor. KeyError exactly for an alibi tensor with no `attention_mask` passed. |
| Capture.StoreKwargs | auto_round/autoround.py:868-892 | The loop over keyword arguments keeps every existing key and can only raise TypeError, KeyError, AttributeError or RuntimeError. |
| Capture.CaptureCall | auto_round/autoround.py:854-893 | The patched forward never returns: it raises NotImplementedError unless storing raised TypeError, KeyError, AttributeError or RuntimeError first. The captured block's buffer is the only one that changes, and it always exists afterwards. Hidden states whose rows do not match the stored `input_ids` raise RuntimeError at the first `torch.cat` and leave every buffer unchanged. |
| Capture.CaptureAllInputIds | auto_round/autoround.py:856-861 | After a sequence of calls on a fresh buffer, `input_ids` holds what `KeptHidden` keeps: each call's hidden states in call order, except those whose rows did not match, which are dropped. |
| Capture.KeptHiddenUniform | auto_round/autoround.py:856-858 | When the stored tensor and every call's hidden states have one row length, nothing is dropped: the result is all of them concatenated in order. |
| Capture.MismatchedWidthDropped | auto_round/autoround.py:856-858 | A call with rows of length 2 followed by one with rows of length 3 leaves only the first call's row in `input_ids`. |
| Capture.FirstCallInputIds | auto_round/autoround.py:859-861 | The first call creates the buffer with its hidden states as `input_ids`. |
| Capture.CaptureKeepsInputIds | auto_round/autoround.py:856-858 | Later calls append their hidden states after what `input_ids` already holds when the rows match, and leave it unchanged when they do not. |
| Capture.StoreKwargsKeepsPresent | auto_round/autoround.py:891-892 | A stored tensor under a key that is neither an attention mask nor alibi keeps its first-seen value. |
| Capture.StoreKwargsOthers | auto_round/autoround.py:868-892 | A key the call does not pass is left exactly as it was. |
| Capture.KwargEffects | auto_round/autoround.py:868-892 | For each distinct keyword argument of a call that did not raise: an attention-mask tensor is appended to, or starts, the stored mask; any other considered key keeps its first-seen value. |
| Capture.ReplaceForwardSpec | auto_round/autoround.py:905-913 | The target block's forward becomes the capture forward and its original forward is saved. Without the target, nothing changes. |
| Capture.RecoverForwardSpec | auto_round/autoround.py:897-903 | Recovering restores the saved forward and deletes `orig_forward`. It is an AttributeError exactly when the target has no saved forward. |
| Capture.RecoverUndoesReplace | auto_round/autoround.py:897-913 | Replacing and then recovering gives back the original forwards and saved-forward map. |
| BlockLoop.WindowsFrom | auto_round/autoround.py:733-734 | Every window is non-empty, lies within `[start, n]` and is at most `bs` wide. The first starts at `start` and the last ends at `n`; there are none when `start >= n`. |
| BlockLoop.Windows | auto_round/autoround.py:733 | `range` with step 0 is a ValueError; a negative step or a non-positive sample count gives no windows. |
| BlockLoop.WindowsTile | auto_round/autoround.py:733-734 | Consecutive windows abut, and every window but the last is exactly `bs` wide. |
| BlockLoop.WindowsOrdered | auto_round/autoround.py:733-734 | Windows are disjoint and in increasing order. |
| BlockLoop.WindowsCover | auto_round/autoround.py:733-734 | Every sample index below `n_samples` lies in exactly one window. |
| BlockLoop.Sample | auto_round/autoround.py:735-736 | Sampling a window succeeds exactly when it lies within the input (else IndexError) and yields exactly those rows. |
| BlockLoop.OutputsFromOk | auto_round/autoround.py:733-741 | The windowed outputs are computed without error exactly when the input has at least `n_samples` rows, or there is no window. |
| BlockLoop.GetBlockOutputs | auto_round/autoround.py:716-743 | The loop's concatenated output equals the windowed output specification. |
| BlockLoop.WindowedEqualsWhole | auto_round/autoround.py:733-741 | For a row-wise block forward, the concatenated window outputs equal the forward over the whole sample range. |
| BlockLoop.WindowStep | auto_round/autoround.py:733-741 | The windowed outputs from `start` are the forward of the first window followed by the windowed outputs from `start + bs`. |
| BlockLoop.WindowThenRest | auto_round/autoround.py:733-741 | If the first window's forward and the rest's windowed outputs are row-wise, so are the windowed outputs from `start`. |
| BlockLoop.BlockOutputsRowwise | auto_round/autoround.py:716-743 | `get_block_outputs` of a row-wise forward is that forward over the first `n_samples` rows. |
| BlockLoop.TrainLoop | auto_round/autoround.py:1018-1076 | The tuning loop with its early `break` equals the iteration specification. |
| BlockLoop.TrackingLoop | auto_round/autoround.py:1062-1076 | With best tracking, from any point the loop keeps the best loss, the snapshot and `last_best_iter` equal to the first minimum so far. It stops exactly at the first iteration whose gap reaches `dynamic_max_gap`, before stepping, and never runs more than `iters` iterations. |
| BlockLoop.BestTracking | auto_round/autoround.py:1007-1076 | Over a whole run, the snapshot is the first iteration with the minimum loss seen. An early stop happens only with a positive gap and skips that iteration's step. A full run makes `iters` steps. |
| BlockLoop.FirstIterationImproves | auto_round/autoround.py:1008-1068 | Because the best loss starts at the float maximum, a finite first loss always gives a snapshot. |
| BlockLoop.LastIterateLoop | auto_round/autoround.py:1069-1071 | With `not_use_best_mse`, the loop never stops early and the snapshot is taken at iteration `iters - 1` only. |
| BlockLoop.BlockOutcomes | auto_round/autoround.py:957-1099 | A block's float output is the windowed output of its input. A skipped block returns that output twice. A non-skipped block fails with the error of wrapping it (line 963) whenever wrapping fails, and otherwise with the error of unwrapping it with the loop's snapshot (line 1090) whenever that fails, with or without `use_quant_input`. Otherwise, without `use_quant_input` the quantized output is `None`; with it, the quantized output is computed under the chosen snapshot from `q_input`, or the input when there is none. |
| Pipeline.Group | auto_round/autoround.py:1158-1166 | The group at `i` is `block_names[i : i + n_blocks]`, clipped to the list, non-empty and at most `n_blocks` long. |
| Pipeline.DriveFromDone | auto_round/autoround.py:1154 | A walk that reached the end of the block list stops unchanged. |
| Pipeline.DriveFromExit | auto_round/autoround.py:1154-1157 | Reaching `MAX_NUM_BLOCKS` before the end is `exit(0)`. |
| Pipeline.DriveFromFail | auto_round/autoround.py:1177-1185 | A group whose tuning raises ends the walk with that error. |
| Pipeline.DriveFromNext | auto_round/autoround.py:1154-1188 | A group that succeeds hands its results to the next group's walk. |
| Pipeline.DriveFromWalked | auto_round/autoround.py:1154-1188 | The walk keeps its invariant: calls cover the groups in order, each is skipped iff `i + 1 <= marker`, inputs are threaded, and checkpoints match the calls. A walk without failure reaches the end. |
| Pipeline.DriveFromStops | auto_round/autoround.py:1154-1188 | A failed walk stopped before the end, either at `MAX_NUM_BLOCKS` with exit or at the group whose run raised, with that group's error. |
| Pipeline.DriveAllSpec | auto_round/autoround.py:1148-1188 | A complete walk visits `block_names` in groups of `n_blocks`. Group `i` is skipped exactly when `i + 1 <= _pre_quantized_block_num`. Each group receives the previous group's quantized output and float output. Checkpoints are recorded per non-skipped group, and exit happens only when blocks remain past the limit. |
| Pipeline.CheckpointsSkipResumed | auto_round/autoround.py:1170-1188 | Every checkpoint marker exceeds the resume marker, there is at most one per group, and there are none when saving is off. |
| Pipeline.GIdx | auto_round/autoround.py:1266-1273 | One index per input column. Column `k` lies in group `g[k]`, i.e. `g[k] * gs <= k < (g[k] + 1) * gs`, and all are 0 when `gs <= 0`. |
| Pipeline.GIdxAsWritten | auto_round/autoround.py:1266-1273 | As written, `g_idx` uses the run-wide group size whatever the layer's own entry says. |
| Pipeline.GIdxAsWrittenMisgroups | auto_round/autoround.py:1266-1273 | For a 64-column layer configured with group size 32 under a run-wide 128, column 32 is placed in group 0 as written, but belongs to group 1. |
| Pipeline.LayerGIdx | auto_round/autoround.py:1266-1273 | Corrected: every column is placed in its group under the layer's own merged group size. |
| Pipeline.EntryGIdx | auto_round/autoround.py:1266-1273 | The `g_idx` written for a layer has one index per column. As written it is grouped by the run-wide group size; corrected, by the layer's merged group size. |
| Pipeline.ScaledEntry | auto_round/autoround.py:1263-1273 | A tuned layer's entry gains its `scale`, its `zp` (or `None`) and the `g_idx` of `Pipeline.EntryGIdx`, run-wide as written; every other key is kept. |
| Pipeline.FloatEntry | auto_round/autoround.py:1279-1285 | A configured layer without a scale is marked `float` (or `bfloat`), 16 bits, with `group_size` and `sym` set to `None`; other keys are kept. |
| Pipeline.NewLayer | auto_round/autoround.py:1274-1275 | `scale` and `zp` are deleted from a tuned layer; its kind, attributes and weights are unchanged. |
| Pipeline.PostStep | auto_round/autoround.py:1261-1285 | One module of the post-pass rewrites only its own entry and layer, and only when it is configured. |
| Pipeline.PostPassFrom | auto_round/autoround.py:1261-1285 | The post-pass keeps the key sets of `weight_config` and of the layers. |
| Pipeline.PostPassFromSpec | auto_round/autoround.py:1261-1285 | Each configured module that is walked is rewritten once, from its original entry and layer; nothing else changes. |
| Pipeline.PostPassOutcome | auto_round/autoround.py:1261-1285 | After the post-pass a tuned layer's entry carries its scale, zp and `g_idx` (grouped by the run-wide group size as written, by its own corrected), and the layer loses `scale`/`zp` while keeping its weight. Every other configured layer is marked 16 bit. |
| LayerWrappers.ClampScales | auto_round/autoround.py:116-117 | Every scale is clamped into [-1, 0], element by element. |
| LayerWrappers.ClampScalesRange | auto_round/autoround.py:365-368 | Clamped scales lie in [-1, 0]. Clamping leaves scales unchanged exactly when they already lie there. |
| LayerWrappers.ClampScalesIdempotent | auto_round/autoround.py:365-368 | Clamping twice, once in `unwrapper_block` and again in `unwrapper`, equals clamping once. |
| LayerWrappers.ZerosLike | auto_round/autoround.py:88-90 | The rounding parameter `value` starts as a zero tensor of the weight's shape. |
| LayerWrappers.Transpose | auto_round/autoround.py:193 | `t()` swaps rows and columns. |
| LayerWrappers.TransposeTwice | auto_round/autoround.py:220 | Transposing a rectangular matrix back gives the original, so the Conv1D wrapper restores its weight's orientation. |
| LayerWrappers.Oriented | auto_round/autoround.py:193 | A Conv1D weight is wrapped transposed; any other weight is wrapped as is. |
| LayerWrappers.QuantWeightCall | auto_round/autoround.py:217-219 | Reading a missing `scale_dtype` attribute is an AttributeError; otherwise the result is `quant_weight` applied to the wrapper's settings. |
| LayerWrappers.Conv1DWrapperFailsAsWritten | auto_round/autoround.py:187-202 | As written, the Conv1D wrapper never sets `scale_dtype`, so its forward and unwrap always raise AttributeError. |
| LayerWrappers.ScaleDtypeAttr | auto_round/autoround.py:86 | The wrapper's `scale_dtype` attribute is missing exactly for a Conv1D wrapper as written, and is otherwise the layer's. |
| LayerWrappers.Wrapper.constructor | auto_round/autoround.py:82-103 | The wrapper copies bits, group size and sym from the layer. It has `scale_dtype` from the layer, except a Conv1D wrapper as written (lines 187-202), which has none. `value` starts at zeros, and min/max scales start at zeros of the scale shape when tuning, otherwise at the scalar 0. |
| LayerWrappers.Wrapper.Forward | auto_round/autoround.py:135-161 | Forward clamps both scales into [-1, 0] in place, changes nothing else, and returns the linear map of the quantized-dequantized weight. |
| LayerWrappers.Wrapper.Unwrapped | auto_round/autoround.py:105-133 | Unwrapping uses the clamped scales. The layer gets `quant_weight`'s weight, transposed back for Conv1D, plus its scale and zp, and keeps its kind and attributes. |
| LayerWrappers.UnwrapClampsOnce | auto_round/autoround.py:116-117 | Passing already clamped scales to unwrap gives the same layer as unclamped ones. |
| LayerWrappers.UnwrapIdentityRestoresWeight | auto_round/autoround.py:204-224 | With a `quant_weight` that returns its input, unwrapping restores the original weight for both wrapper kinds. |
| LayerWrappers.WrapPlan | auto_round/autoround.py:276-333 | Wrapping stops at the first error and only raises NotImplementedError, on a linear layer outside AutoRound mode. |
| LayerWrappers.Block.WrapBlock | auto_round/autoround.py:276-333 | Exactly the layers listed as quantized become fresh wrappers installed over their layer; every other slot is unchanged. |
| LayerWrappers.WrapPlanFailure | auto_round/autoround.py:276-333 | Wrapping in AutoRound mode never fails. Outside it, wrapping fails exactly when some layer to quantize is a linear layer. |
| LayerWrappers.WrapFailure | auto_round/autoround.py:276-333 | What wrapping leads `quant_block` into is only NotImplementedError or AttributeError. |
| LayerWrappers.WrapFailureOutcomes | auto_round/autoround.py:187-333 | Corrected, wrapping a block in AutoRound mode leaves `quant_block` nothing to fail on. As written, a block with a Conv1D layer to quantize fails with AttributeError. |
| LayerWrappers.UnwrapArgs | auto_round/autoround.py:356-368 | A snapshot that is not a dict gives `v = 0` and zero scales. A dict gives that layer's entry, with the scales clamped into [-1, 0]. A missing layer is a KeyError. |
| LayerWrappers.UnwrapPlan | auto_round/autoround.py:356-370 | Unwrapping keeps the block's slot names and can only raise KeyError (a snapshot without the layer's entry) or AttributeError. |
| LayerWrappers.UnwrapPlanResult | auto_round/autoround.py:356-370 | After a successful unwrap no wrapper is left. Each wrapped slot holds its wrapper's unwrapped layer, and every other slot is unchanged. |
| LayerWrappers.UnwrapPlanKeeps | auto_round/autoround.py:356-357 | A slot that is not a wrapper is never touched. |
| LayerWrappers.NeutralUnwrap | auto_round/autoround.py:358-360 | The fallback arguments are `v = 0` with zero scales, which clamping leaves unchanged. |
| LayerWrappers.UnwrapBlock | auto_round/autoround.py:347-370 | The in-place unwrap loop leaves the block's slots and error as the unwrap specification says. |
| LayerWrappers.Hidden | auto_round/autoround.py:271-272 | A layer's hidden state is its output, or the first item of a tuple or list output; an empty tuple is an IndexError. |
| LayerWrappers.Chain | auto_round/autoround.py:266-273 | Chaining layers fails only with IndexError. |
| LayerWrappers.MultiblockForward | auto_round/autoround.py:266-273 | The loop over the wrapped blocks equals the chained forward. |
| LayerWrappers.ChainAppend | auto_round/autoround.py:266-273 | Running blocks `a + b` is running `a` and then `b` on its hidden state, so a multiblock group behaves like its blocks in sequence. |
| Quantizer.RoundHalfEven | auto_round/quantizer.py:22 | `round()` returns an integer within 1/2 of `x`, and ties go to the even integer. |
| Quantizer.RoundSte | auto_round/quantizer.py:18-22 | The straight-through estimator's value is the rounded input and its gradient is the input's gradient. |
| Quantizer.LevelRange | auto_round/quantizer.py:255-262 | The clamp range has `2^n` levels. It is `[0, 2^n-1]` exactly for `leaf_param` with `x_min >= 0`, and the signed range otherwise. |
| Quantizer.StepSizeSpreadsRange | auto_round/quantizer.py:254-260 | The step times `2^n - 1` spans `2 * max(x_max, |x_min|)`, or `x_max` for the unsigned case, and is non-negative. |
| Quantizer.NearestLevel | auto_round/quantizer.py:257-258 | The clamped level lies in range, is within 1/2 of the target when the target is within 1/2 of the range, and sticks to the nearer end outside it. |
| Quantizer.Level | auto_round/quantizer.py:257-262 | The level of `x / delta` is the clamped nearest level. With a zero step it is the range end on `x`'s side. |
| Quantizer.Quantize | auto_round/quantizer.py:254-265 | Every element becomes its clamped level times the step. The result is undefined (NaN) exactly when the step is zero and some element is zero. |
| Quantizer.Dequantize | auto_round/quantizer.py:263 | Each element is replaced by its level times the step. |
| Quantizer.Symmetrize | auto_round/quantizer.py:198-200 | The symmetric bound is `max(|x_min|, x_max)`. The lower bound is its negation when `x_min < 0` and 0 otherwise, and never exceeds `x_min`. |
| Quantizer.Ema | auto_round/quantizer.py:107-115 | The first call returns its inputs. Later calls move the running range a tenth of the way toward the new one, staying between old and new, and a running range equal to the new one stays put. |
| Quantizer.SeqMin | auto_round/quantizer.py:221 | `x.min()` is an element of `x` and no larger than any element. |
| Quantizer.SeqMax | auto_round/quantizer.py:221 | `x.max()` is an element of `x` and no smaller than any element. |
| Quantizer.ToDict | auto_round/quantizer.py:47-55 | The dict has exactly the six constructor keys, without `use_ada`, holding the configuration's values. |
| Quantizer.FromDict | auto_round/quantizer.py:37-45 | An empty dict gives the default configuration. |
| Quantizer.ToDictRoundTrip | auto_round/quantizer.py:47-55 | Rebuilding a configuration from `to_dict` gives it back with `use_ada` reset to false, so a config with `use_ada` does not survive the round trip. |
| Quantizer.WUniformAffineQuantizer.constructor | auto_round/quantizer.py:75-102 | A quantizer with `2 <= n_bits <= 8` has `n_levels == 2^n_bits`, the given settings, `delta = 1`, `zero_point = 0`, no running range, and is not training. |
| Quantizer.WUniformAffineQuantizer.Create | auto_round/quantizer.py:75-102 | Construction succeeds exactly for `2 <= n_bits <= 8`, otherwise AssertionError, and yields the quantizer with `n_levels == 2^n_bits`. |
| Quantizer.WUniformAffineQuantizer.CreateFromConfig | auto_round/quantizer.py:278-280 | Building from a config succeeds exactly for a valid bit width and carries every setting over. |
| Quantizer.WUniformAffineQuantizer.BitwidthRefactor | auto_round/quantizer.py:267-270 | Refactoring succeeds exactly for `2 <= bits <= 8`. It then sets `n_bits` and `n_levels == 2^bits`; otherwise nothing changes. |
| Quantizer.WUniformAffineQuantizer.UpdateQuantizeRange | auto_round/quantizer.py:107-115 | Returns the EMA of the running range and stores it; the first call returns its inputs. |
| Quantizer.WUniformAffineQuantizer.MseSearch | auto_round/quantizer.py:202-213 | The search loop returns the MSE choice. |
| Quantizer.WUniformAffineQuantizer.GetXMinXMax | auto_round/quantizer.py:191-218 | Returns the chosen range. It updates the running range exactly when `leaf_param` is set and the method is supported. |
| Quantizer.WUniformAffineQuantizer.InitQuantizationScaleChannel | auto_round/quantizer.py:220-230 | Returns the step and zero point of `Quantizer.ChannelScale` for `x` under the running range it found, and leaves the running range where that says. |
| Quantizer.WUniformAffineQuantizer.InitQuantizationScale | auto_round/quantizer.py:232-252 | Returns the scales and leaves the running range as `Quantizer.InitScale` says: row by row with the running range threaded from row to row, or once on the flattened tensor. |
| Quantizer.ChosenRange | auto_round/quantizer.py:191-218 | A range is chosen exactly when the method contains `max` or is `mse`, else NotImplementedError. A symmetric `max` range is `[-m, m]` or `[0, m]`. |
| Quantizer.MseScores | auto_round/quantizer.py:202-209 | There are exactly 80 candidate scores, the i-th for the bounds shrunk by `1 - 0.01 i`. |
| Quantizer.MseChoice | auto_round/quantizer.py:202-213 | The search returns the original bounds when no candidate scores below `1e10`. Otherwise it returns the bounds of the first candidate that reaches the lowest score below `1e10`. |
| Quantizer.ChannelScale | auto_round/quantizer.py:220-230 | An empty tensor is an error that leaves the running range. Otherwise a step is found exactly when the method contains `max` or is `mse` (else NotImplementedError). The step is at least `1e-8` and the zero point 0, and without `leaf_param` the running range is unchanged. |
| Quantizer.ChannelScaleOfRange | auto_round/quantizer.py:220-230 | On a non-empty tensor the step is the range step of the chosen range of `x.min()`/`x.max()`, or the `1e-8` floor when that is smaller. With `leaf_param` the running range becomes the EMA of the min/max or MSE range before symmetrisation. |
| Quantizer.RunningThrough | auto_round/quantizer.py:232-241 | The running range after the rows before a channel; it never moves without `leaf_param`. |
| Quantizer.ChannelScalesFrom | auto_round/quantizer.py:232-241 | The per-channel loop gives one step of at least `1e-8` and one zero point 0 per row, after those already found. It fails only with EmptyTensor or NotImplementedError, and on success ends with the running range threaded through all rows. |
| Quantizer.ChannelScaleThreaded | auto_round/quantizer.py:232-241 | Channel `j`'s step is the step of row `j` alone under the running range the rows before it left. |
| Quantizer.ChannelsIndependentWithoutLeaf | auto_round/quantizer.py:232-241 | Without `leaf_param`, each channel's step is that row's step under the starting running range. |
| Quantizer.InitScale | auto_round/quantizer.py:232-252 | Channel-wise gives per-channel scales, one per row, and is an error exactly on an empty row or an unsupported method. Otherwise one step and zero point, those of the flattened tensor. |
| Quantizer.AllChannelsScale | auto_round/quantizer.py:232-241 | With a supported method and no empty row, the per-channel loop succeeds. |
| Quantizer.Forward | auto_round/quantizer.py:174-185 | Each output is the dequantized clamped signed level or the input. It is the dequantized value outside training, when `prob >= 1` or when the draw is below `prob`; otherwise the input. |
| Quantizer.Rest | auto_round/quantizer.py:350 | The rounding rest `x / delta - floor(x / delta)` lies in [0, 1). |
| Quantizer.AlphaLogArgument | auto_round/quantizer.py:351 | The argument of `log` in `init_alpha` is positive for every rest in [0, 1). |
| Quantizer.NewAdaRound | auto_round/quantizer.py:300-317 | Construction succeeds exactly in `learned_hard_sigmoid` mode, otherwise AssertionError. It copies bits, sym, delta, zero point and levels, starts in hard mode, and sets one `alpha` per weight from that weight's rest. |
| Quantizer.SoftTargets | auto_round/quantizer.py:343-344 | Soft targets always lie in [0, 1] and equal the stretched sigmoid wherever that is already in [0, 1]. |
| Quantizer.SoftTargetAtInitIsRest | auto_round/quantizer.py:346-351 | At initialisation, `sigmoid(alpha) = rest` in effect: the soft target equals the weight's rounding rest. |
| Quantizer.HardLevel | auto_round/quantizer.py:329-338 | The hard level lies in the signed range and is `floor(x / delta)` plus 1 exactly when `alpha >= 0`, clamped at the range ends. |
| Quantizer.SoftLevel | auto_round/quantizer.py:329-338 | The soft level lies in range and between floor and floor + 1. With the target equal to the rest it reproduces `x / delta`. |
| Quantizer.AdaForward | auto_round/quantizer.py:319-341 | Forward succeeds exactly in `learned_hard_sigmoid` mode, otherwise ValueError. Each output is its hard or soft level times `delta`. |
| Quantizer.SoftForwardOnRest | auto_round/quantizer.py:329-341 | When an element's soft target equals its rest and its level is in range, soft forward returns that element unchanged. |
| Quantizer.SoftForwardAtInitReproducesWeight | auto_round/quantizer.py:346-351 | Right after initialisation, soft rounding reproduces every weight whose level lies in range. |
| Teq.FreezeLeaf | auto_round/teq_util.py:89-91 | Freezing a plain layer clears every `requires_grad` flag and keeps the layer. |
| Teq.Freeze | auto_round/teq_util.py:94-98 | `freeze_mod_with_filter_` freezes the innermost layer, keeps every `MulLinear`/`DivLinear` wrapper and its `ScaleMod` unchanged, and keeps the nesting shape. |
| Teq.FreezeIdempotent | auto_round/teq_util.py:94-98 | Freezing twice equals freezing once. |
| Teq.FreezeSlotsTwice | auto_round/teq_util.py:52-65 | Freezing one set of slots and then another equals freezing their union. |
| Teq.Ones | auto_round/teq_util.py:39 | A fresh `ScaleMod` holds `shape` ones. |
| Teq.WrapLayers | auto_round/teq_util.py:112-115 | Wrapping the pair's layers keeps the slot names and fails (AttributeError) exactly when some listed layer is missing. |
| Teq.ReplacePair | auto_round/teq_util.py:105-117 | A successful pair adds exactly one `ScaleMod` after the existing ones, keeps the slot names, and preserves "all scales are ones". |
| Teq.ReplacePairScale | auto_round/teq_util.py:109-111 | The `ScaleMod` a pair adds holds as many ones as its first layer's `in_features`. |
| Teq.ReplaceAll | auto_round/teq_util.py:105-117 | Replacing all pairs adds one `ScaleMod` per pair and keeps the slot names and the all-ones scales. |
| Teq.UnwrapLayers | auto_round/teq_util.py:128-130 | Unwrapping keeps the slot names and only raises AttributeError. |
| Teq.RevertPair | auto_round/teq_util.py:123-130 | Reverting one pair keeps the slot names and reads exactly one `ScaleMod`. |
| Teq.RevertSeq | auto_round/teq_util.py:122-130 | Reverting a sequence of pairs reads one `ScaleMod` per pair. |
| Teq.Reverse | auto_round/teq_util.py:122 | `[::-1]` reverses. |
| Teq.RevertAll | auto_round/teq_util.py:120-131 | Reverting all pairs keeps the slot names and reads one `ScaleMod` per pair. |
| Teq.WrapLayersPeel | auto_round/teq_util.py:112-115 | After wrapping, each slot peeled once per listing gives its frozen original (or the untouched slot), even when a layer is listed twice. |
| Teq.ReplacePairPeel | auto_round/teq_util.py:105-117 | After a pair, the previous op is a `DivLinear` on the new `ScaleMod`. Every slot peeled once per listing in the pair gives its frozen original, and no other slot changes. |
| Teq.UnwrapLayersPeel | auto_round/teq_util.py:128-130 | Unwrapping a listing succeeds and gives, for each slot, the module under as many wrappers as the listing names it. |
| Teq.RevertPairPeel | auto_round/teq_util.py:123-130 | Reverting a pair whose wrappers are in place restores every touched slot and reads that pair's `ScaleMod`. |
| Teq.RevertAfterReplacePair | auto_round/teq_util.py:105-130 | Reverting a pair right after replacing it restores every touched slot frozen and reads the `ScaleMod` that pair added. |
| Teq.RevertSeqSnoc | auto_round/teq_util.py:122-130 | Reverting one more pair continues from where the earlier pairs left off. |
| Teq.RevertUndoesReplace | auto_round/teq_util.py:105-131 | Stack discipline: reverting every pair in reverse order after replacing them succeeds, even for nested `DivLinear(MulLinear(...))` slots. Every slot is back to its original module, frozen where it was touched, and pair `j` reads its own `ScaleMod`. |
| Teq.NewSidsCover | auto_round/teq_util.py:111-117 | The `ScaleMod` of pair `k` is among those wrapped around that pair's previous op. |
| Teq.ReplaceAllShape | auto_round/teq_util.py:105-117 | After replacing, each slot wraps its original innermost layer (frozen if touched) in exactly the `ScaleMod`s of the pairs that list it. |
| Teq.ReplaceAllFoundPrevOps | auto_round/teq_util.py:115-117 | A successful replace found every pair's previous op. |
| Teq.LeafTrainableAfterReplace | auto_round/teq_util.py:94-102 | After replacing, the trainable layer parameters are exactly those of layers no pair touched. |
| Teq.ScaleTrainableWithinNew | auto_round/teq_util.py:100-102 | Starting from plain layers, every trainable scale after replacing is one of the new `ScaleMod`s. |
| Teq.ScaleTrainableCoversNew | auto_round/teq_util.py:100-102 | Every new `ScaleMod` stays trainable after replacing. |
| Teq.TrainableAfterReplace | auto_round/teq_util.py:89-102 | Starting from plain layers, the trainable parameters after replacing are the untouched layers' parameters plus exactly one scale per pair. |
| Teq.TrainableCountAfterReplace | auto_round/teq_util.py:338-340 | When every layer is touched, the number of trainable parameters equals the number of pairs, four for the LLaMA decoder layer of the module's self-check. |
| Teq.OnesAreNeutral | auto_round/teq_util.py:55-71 | With all scales one, any nesting of `MulLinear`/`DivLinear` computes exactly its innermost layer, wherever widths match. |
| Teq.ForwardUnchangedAfterReplace | auto_round/teq_util.py:334-337 | Right after replacing, every slot computes what its original layer computed. |
| Teq.CreateLayerInfo | auto_round/teq_util.py:80-86 | Succeeds exactly when every entry has both keys, otherwise KeyError. It returns one `PairInfo` per entry, in order, with the fields copied. |
| Teq.ReversedEntries | auto_round/teq_util.py:127-131 | Reversing the list collected in visiting order gives the entries in pair order. |
| Teq.EntriesForConsecutive | auto_round/teq_util.py:120-131 | When pair `j` reads the `ScaleMod` numbered from the base, entry `k` holds pair `k`'s names and the scales of the `k`-th new `ScaleMod`. |
| Teq.RevertAllDone | auto_round/teq_util.py:120-131 | Once the reversed loop has visited every pair, the revert is complete, and the list reversed back holds the entries in pair order. |
| Teq.Block.ReplaceOnePair | auto_round/teq_util.py:107-117 | The in-place slot rewrite for one pair leaves the block as the pair specification says. |
| Teq.Block.Replace | auto_round/teq_util.py:105-117 | `replace_` rewrites the block as the specification says, including StopIteration on a block without parameters. |
| Teq.Block.RevertOnePair | auto_round/teq_util.py:123-130 | The in-place revert of one pair equals its specification and returns the index of the `ScaleMod` it read. |
| Teq.Block.RevertReplace | auto_round/teq_util.py:120-131 | `_revert_replace` rewrites the slots as specified. It succeeds exactly when every unwrap finds a wrapper (else AttributeError), and then returns the scale list in pair order. |
| Teq.Block.ApiReplace | auto_round/teq_util.py:146-149 | Stores the pair info on the block, then replaces. |
| Teq.Block.ApiAbsorbMul | auto_round/teq_util.py:151-154 | Without stored pair info it is an AttributeError that changes nothing. Otherwise it reverts the stored pairs, and on success deletes the info and returns the scale list. |
| Teq.Block.ReplaceThenAbsorb | auto_round/teq_util.py:146-154 | A successful replace followed by absorb returns every slot to its original layer (frozen where touched), clears the stored info, and returns entry `k` with pair `k`'s own new scales. |
| AutoRound.Names | auto_round/autoround.py:684 | The names `named_modules()` yields, in order. |
| AutoRound.ReplaceThenRecover | auto_round/autoround.py:835-839 | Inside `cache_block_input`, the target's forward is the capture forward during calibration and is restored afterwards, with `orig_forward` removed. |
| AutoRound.Resized | auto_round/autoround.py:1245-1251 | `n_samples` becomes the number of captured rows and the training batch size is capped by it; nothing else changes. |
| AutoRound.AutoRound.Create | auto_round/autoround.py:432-566 | Construction fails with AssertionError exactly when the settings are rejected. The caller's `weight_config` and layer attributes are merged and synced even then, unless `enable_full_range` stops it first. On success the object holds that same merged `weight_config` and those attributes, the defaulted settings, and the resume marker read at start-up (0 without one). |
| AutoRound.AutoRound.SetLayerwiseConfig | auto_round/autoround.py:675-713 | The in-place walk leaves `weight_config` as the merge specification says and each supported layer's attributes equal to its merged entry. Nothing else changes. |
| AutoRound.AutoRound.CapturedForward | auto_round/autoround.py:854-893 | The patched forward updates the buffer and raises as the capture specification says, and changes nothing else. |
| AutoRound.AutoRound.ReplaceForward | auto_round/autoround.py:905-913 | Swaps the target block's forward as specified and changes nothing else. |
| AutoRound.AutoRound.RecoverForward | auto_round/autoround.py:897-903 | Restores the forward as specified. A missing saved forward is an AttributeError that changes nothing. |
| AutoRound.FeedCalls | auto_round/autoround.py:797-805 | The calls the block receives are at most one per batch fed. When every forward reaches the block they are exactly the batches' calls in order, and when none does there are none. |
| AutoRound.AutoRound.CallModel | auto_round/autoround.py:797-805 | Feeding one batch to the model applies its call, if the forward reaches the block, to the capture buffer, whatever the call raises. A forward that fails earlier leaves the buffer unchanged. |
| AutoRound.AutoRound.CalibBatch | auto_round/autoround.py:773-808 | One pass of the calibration loop follows the counting specification, as written or corrected, and the buffer holds the captures of every batch fed so far. |
| AutoRound.AutoRound.Calib | auto_round/autoround.py:746-819 | `calib` returns the counting result, as written or corrected, and the buffer holds the captures of exactly the batches fed. |
| AutoRound.AutoRound.CacheBlockInput | auto_round/autoround.py:822-842 | A calibration error is returned with `tmp_block_name` still set and, for a block of the model, the capture forward still installed and the original kept as `orig_forward`. A name outside the model is KeyError. Otherwise forwards are restored, and if no call reached the block the read of the buffer is a KeyError that leaves `tmp_block_name` set. Else the returned inputs are the target block's buffer, whose `input_ids` are the kept hidden states in order, and `tmp_block_name` is deleted. |
| AutoRound.AutoRound.QuantBlock | auto_round/autoround.py:935-1099 | The block's outcome is the loop-and-outputs specification, including the failures of wrapping the block and of unwrapping it with the chosen snapshot. |
| AutoRound.AutoRound.WalkGroups | auto_round/autoround.py:1154-1188 | The stride loop over groups ends with the walk specification's failure and checkpoint markers. |
| AutoRound.AutoRound.QdqWeightRound | auto_round/autoround.py:1124-1196 | Missing `input_ids` is a KeyError. Otherwise the walk starts from the captured hidden states, and the checkpoints it writes are appended to those already saved. |
| AutoRound.AutoRound.PostPass | auto_round/autoround.py:1261-1285 | The post-pass loop leaves `weight_config` and the layers as the post-pass specification says under the run-wide group size, and changes nothing else. |
| Pipeline.PostPassLoop | auto_round/autoround.py:1261-1285 | The in-place loop over `named_modules()` ends with exactly the `weight_config` and layers the post-pass specification gives. |
| AutoRound.AutoRound.TuneFromCache | auto_round/autoround.py:1244-1285 | With no `input_ids` captured, a KeyError and nothing changed. Otherwise the settings are resized to the captured rows, the walk's checkpoints are recorded and its failure reported, and a complete walk is followed by the post-pass and the quantized mark. |
| AutoRound.AutoRound.Quantize | auto_round/autoround.py:1228-1309 | No blocks means nothing happens. A calibration error, an unknown first block, or a calibration in which no call reached the block (always so for tensor batches as written) is reported. Otherwise the settings are resized to the captured rows, the walk runs from them with its checkpoints recorded, and a complete walk is followed by the post-pass, after which the model is marked quantized. |

## Left out

- Logging, timing and the quantized/unquantized summary of `quantize` (autoround.py:1287-1305): they only print.
- `_post_init`'s JSON read (autoround.py:552-566): it is the `resumeFrom` argument of `AutoRound.AutoRound.Create`.
- `_save_model_to_local` (autoround.py:1102-1122): it is the marker appended to `savedMarkers`.
- `save_quantized` (autoround.py:1198-1226): export I/O.
- The FlexRound branches of `wrapper_block`, `unwrapper_block` and `quantize` (autoround.py:295-314, 371-375, 1276-1278) and `_get_block_params`: `FlexRoundLinear` is not part of this model.
- The `chatglm` batch dimension (autoround.py:855, 1246): the model uses dimension 0 throughout.
- The `alibi` reshape in the capture forward (autoround.py:883-890): alibi tensors are concatenated as given.
- Optimizers, schedulers, the gradient scaler, backward passes, autocast and the amp/device choice (autoround.py:506-520, 570-657, 951-956, 981-990). The loop takes each iteration's loss as input, and a step is the count of iterations that reach `self.step`.
- `sampling_inputs`, `torch.randperm` and the accumulation loop (autoround.py:1005-1052): they only produce the per-iteration loss, which is an input.
- `quant_weight`, `block_forward`, `F.linear`, `lp_loss`, `exp`, `log`, `sigmoid` and `torch.rand_like`: numerical collaborators, passed in as functions or values.
- `WUniformAffineQuantizer.init_from_tensor`, `AdaRoundQuantizer.init_from_tensor` and the `delta1`–`delta4` parameters (quantizer.py:134-154, 361-364): `Quantizer.Forward` takes the exponentiated step sums as inputs.
- `get_module_by_name_suffix` and `set_module_name`: modelled as an exact map lookup and update, without suffix matching.
- `absorb_mul_`'s `apply_scale` and `_get_module_info` (teq_util.py:134-143): they call into the `awq` package. `Teq.Block.ApiAbsorbMul` returns the scale list that `apply_scale` would receive, and `Teq.Block.ApiReplace` takes the pair list directly.
- The `Test` class of teq_util.py: it loads real checkpoints. Its assertions are the properties `Teq.TrainableCountAfterReplace` and `Teq.ForwardUnchangedAfterReplace` state.
- Tensor broadcasting, dtype casts and device moves.
- Floating point: reals carry no rounding error, and the float maximum is a constant.
- `calib` truncates only `input_ids` while the model is fed the whole batch, so the buffer can hold more rows than `n_samples`. The model keeps that behaviour; `quantize` resizes `n_samples` to the captured rows (`AutoRound.Resized`).
- Pipeline.PostPassFromSpec: assumes the distinct names `named_modules()` yields.
- Teq.Block.ReplaceThenAbsorb: states only the outcome of a replace that succeeded.
- Teq.ForwardUnchangedAfterReplace: states the forward on one row and assumes the `ScaleMod`s present before the call are ones, as fresh ones are.
- Teq.TrainableCountAfterReplace: assumes every slot is a plain layer listed by some pair, as in the LLaMA decoder layer of the module's self-check.
- Calib.EveryCountedBatchIsFed: a text batch stands for its tokenized dict; the tokenizer itself is not modelled.
- `quant_block`'s call of `wrapper_block`: its failure is the parameter `wrapOf` of `AutoRound.AutoRound.Quantize`; `LayerWrappers.WrapFailure` gives its value for a block.
- `quant_block`'s call of `unwrapper_block` (autoround.py:1090): its failure under the chosen snapshot is the parameter `unwrapOf` of `AutoRound.AutoRound.Quantize` and `unwrapFailure` of `AutoRound.AutoRound.QuantBlock`; `LayerWrappers.UnwrapPlan` gives its value for a block's slots and snapshot, but the two are not linked by a lemma, because the snapshot index of the tuning loop and the snapshot maps of the wrappers are separate types.
- The shared default `weight_config={}` (autoround.py:439): `AutoRound.AutoRound.Create` returns the caller's dict after the merge, and a later construction that relies on the default takes it as its `wc`.
- The `model.to(self.amp_dtype)` and device moves of the constructor.
- AutoRound.AutoRound.Quantize: the layers as block tuning leaves them are a parameter (`tuned`), not derived from each block's unwrap.
- Quantizer.AdaForward: requires a positive step `delta`; with a zero step the source divides by zero.
- Capture.KwargEffects: states the effect of keyword arguments for calls that did not raise while storing.

## Findings

| source | as written | input that shows it | evidently intended | confidence | as-written member | corrected member |
|---|---|---|---|---|---|---|
| auto_round/autoround.py:776-805 | A plain tensor batch sets only `input_ids`, so `data_new` is undefined or stale. The model call raises, the broad `except` swallows it, and the batch is still counted. | one batch `torch.Tensor` of shape 2×8, `seqlen` 8, `n_samples` 2: 2 samples counted, nothing fed, then KeyError at line 840 | every counted batch is fed to the model | not executed | Calib.TensorBatchesNeverReachModelAsWritten | Calib.EveryCountedBatchIsFed |
| auto_round/autoround.py:187-202 | `WrapperTransformerConv1d.__init__` never sets `self.scale_dtype`, which `forward` and `unwrapper` read (218, 246). | any `Conv1D` layer wrapped in AutoRound mode: AttributeError | copy `scale_dtype` from the layer as `WrapperLinear` does (86) | not executed | LayerWrappers.Conv1DWrapperFailsAsWritten | LayerWrappers.Wrapper.constructor |
| auto_round/autoround.py:1266-1273 | `g_idx` divides by the run-wide `self.group_size`, not the layer's own merged group size. | a 64-column layer with `group_size` 32 in `weight_config`, run-wide 128: column 32 gets group 0 | `g_idx[k] = k // layer_group_size` | not executed | Pipeline.GIdxAsWrittenMisgroups | Pipeline.LayerGIdx |
