# Pred_Model bookkeeping in Dafny

This project models the deterministic integer and list logic of `model.py`, the latent-space weather
prediction model `Pred_Model`. The neural-network numerics are not modelled. The parts that are modelled:

- the recurrence controllers:
  - `_predict`: the training path, which splits the horizon into chunks;
  - `_predict_pangu2`: the inference path, a hierarchical schedule over the intervals 4, 2 and 1;
- the one-step function `forward_recur`;
- the mode dispatch of `forward`;
- the architecture-construction arithmetic of `sampling_generator`, `ConvSC`, `Encoder`, `Decoder`
  and `Pred_Model.__init__`.

Tensors are seen along their channel axis (dim 1). A latent is a sequence of channel planes, and one
time step is `hid_S` consecutive channels. A plane is a symbolic term: `Out(layer, input, c)` is channel
`c` of a layer applied to `input`. So every learned layer is an uninterpreted function, and its only
contract is how many channels it emits. Layers that PyTorch rejects for a wrong input width fail with
`ShapeError`. Constructing a `GroupNorm(2, C)` with an odd C raises `ValueError`, so the
constructor plans are `Result`s too. Python's exceptions become `Err` values of a `Result`.
Python slicing is modelled exactly by `PyOps.PySlice`: negative bounds, clamping, and `-0 == 0`.

Modules:

- `PyOps`: Python built-ins.
- `Tensors`: latents, layers, broadcasting addition and noise.
- `Arch`: the constructor plans.
- `Blocks`: the forward passes of BasicConv2d, ConvSC, Encoder and Decoder.
- `Recur`: `forward_recur` and the configuration.
- `Predict`: `_predict`.
- `Pangu`: `_predict_pangu2`.
- `Model`: the `forward` dispatch.

The parts of the source that change state are methods. Each method is proved equal to a specification
function, and the properties are lemmas about that function:

- the chunk loop of `_predict`;
- the buffer loop of `_predict_pangu2`;
- the loops of `Encoder.forward` and `Decoder.forward`.

Each method returns the list of `forward_recur` calls it made, so call counts and the time windows
read can be stated.

Each interval sub-model `self.hid[i]` is built for `hid_S*(T+1)` input channels, where T is the
frame count of `in_shape` (model.py:26, 58-59). `forward_recur` applies it as the layer
`SubModel(i, hid_S*(T+1), hid_S)`. That layer accepts exactly the widths the built sub-model
accepts, fails with the same exception, and emits the same number of channels
(`Blocks.SubModelLayer`, `Recur.ForwardRecurBuilt`). `Recur.Config` therefore carries T as `frames`.
Two consequences are proved:

- The training path keeps running only while its window stays accepted. In shrink mode this
  needs T >= 2. In replace mode it needs T == 1. In any other case the second chunk raises a
  shape error (`Model.EmbeddedWindowKept`, `Predict.PredictWindowDrifts`).
- The inference path feeds two steps to every call. So its first call can succeed only when the
  sub-models were built for T == 2, and when its two time columns fit the time embedding (below).
  This is `Pangu.PairAcceptedFrames`. Otherwise that call raises a shape error
  (`Pangu.Pangu2PairRejected`).

The time embedding has its own width check. Its first Linear takes
`input_time_length*time_emb_num` features (model.py:43). `forward_recur` gives it the time window
flattened, which is `time_features` covariates for each column of the window (model.py:178).
`Config.timeFeatures` is that covariate count, dim 1 of the caller's time tensor. A window fits
when `time_features*columns == input_time_length*time_emb_num` (`Recur.TimeFits`). This check runs
before the sub-model lookup. When each column carries time_emb_num covariates, a window fits
exactly when it has input_time_length columns (`Recur.TimeFitsColumns`). Two consequences are
proved:

- The remainder window `[-(m+I+pre):-m]` of `_predict` has I + pre columns when the time data
  is long enough. So with time_emb_num covariates per column it is rejected, and a horizon that
  is not a multiple of pre raises a shape error at the remainder call (`Predict.RemainderTooWide`,
  `Predict.PredictRemainderRejected`, `Predict.ShrinkRemainderFails`).
- Every call of `_predict_pangu2` passes two time columns. With time_emb_num covariates per
  column, they fit only for input_time_length == 2. The alignment of the schedule is stated for
  input_time_length >= 5, and there the first call raises a shape error (`Pangu.Pangu2TimeRejected`).

The success lemmas of both paths therefore take the fit of the time windows as a precondition.
These are `Predict.ChunkTimesFit`, the remainder's `TimeFits`, and the `TimeFits(cfg, 2)` inside
`Pangu.PairAccepted`.

## Model

| member | source | states |
|---|---|---|
| `PyOps.FloorDiv` | model.py:261 | `N // 2` rounds toward minus infinity: `b*q <= a < b*q + b` for b > 0, mirrored for b < 0 |
| `PyOps.FloorMod` | model.py:112 | `pred_i % max_inte` takes the sign of the divisor, and `a == b*(a//b) + a%b` |
| `PyOps.FloorModSmall` | model.py:112 | `pred_i % max_inte` is pred_i itself while `0 <= pred_i < max_inte` |
| `PyOps.SliceBound` | model.py:176 | a `PySlice` bound counts from the end when negative and is clamped to the sequence |
| `PyOps.SliceTail` | model.py:176 | `PySlice` `s[-k:]` is the last k elements for 0 < k <= len, and all of `s` for k == 0 |
| `PyOps.SliceFromEnd` | model.py:114-116 | `PySlice` `s[-a:-b]` is the block between a and b elements from the end |
| `PyOps.SliceHead` | model.py:145 | `PySlice` `s[:k]` keeps the first k elements, or all of them |
| `PyOps.SliceDrop` | model.py:136 | `PySlice` `s[k:]` drops the first k elements while `0 <= k <= len(s)` |
| `PyOps.NormIndex` | model.py:179 | `hid[hid_i]` exists iff `-n <= hid_i < n`, and names hid_i or hid_i + n; otherwise IndexError |
| `PyOps.PyIndex` | model.py:308 | `samplings[-1]` succeeds iff the index is in range, and yields the element it names; otherwise IndexError |
| `PyOps.PyGather` | model.py:118-120 | `time_data[:, :, [i, j]]` succeeds iff every index is in range (IndexError otherwise); entry k is column `idx[k]`, counted from the end when negative |
| `PyOps.GatherPair` | model.py:118-120 | gathering two in-range columns `[i, j]` yields exactly those two columns |
| `PyOps.Repeat` | model.py:261 | `[False, False] * k` has 2k entries (none for k <= 0), each taken from the list |
| `PyOps.Reversed` | model.py:262 | `list(reversed(s))` has the same length, with entry i equal to `s[len-1-i]` |
| `PyOps.PyMax` | model.py:106 | `max(time_inte)` is an element that bounds every element; ValueError on an empty list |
| `PyOps.LastIndexOf` | model.py:107 | `dict(zip(time_inte, arange))[v]` is the LAST position of v; KeyError iff v is absent |
| `Tensors.Apply` | model.py:221-223 | the definition of the layer abstraction: a layer applied to x emits the given number of channels, channel c being the symbolic `Out(layer, x, c)` |
| `Tensors.BroadcastAdd` | model.py:181 | `Y + x_res` adds planewise on equal widths, repeats a width-1 operand on either side, and otherwise fails with ShapeError |
| `Tensors.Perturb` | model.py:155 | the definition of the noise abstraction: `cur_seq + randn/100` keeps the width and adds the symbolic draw i to each channel |
| `Arch.SamplingGeneratorShape` | model.py:260-263 | `SamplingGenerator` has `2*(N//2)` entries (none for N < 2), all False, and reversing it changes nothing |
| `Arch.BuildBasicConv` | model.py:185-211 | BasicConv2d is built iff C_out is even, since `GroupNorm(2, C_out)` is always constructed (ValueError otherwise); its conv is `Conv2d(C_in, 4*C_out, k, 1)` (then PixelShuffle(2)) when upsampling and `Conv2d(C_in, C_out, k, stride)` otherwise, both circular; it keeps that GroupNorm, the upsampling flag and act_norm |
| `Arch.BuildConvSC` | model.py:229-251 | ConvSC is built iff C_out is even (ValueError otherwise); it records C_in and C_out, fuses `2*C_out -> C_out` with a 1x1 conv, and has a residual conv iff `C_in != C_out` |
| `Arch.PlainConvSCShape` | model.py:239-251 | with no sampling: built iff C_out is even; stride 1; padding `(k-1+1)//2` and 2; GroupNorm(2, C_out); 1x1 fusion; the residual is the identity iff `C_in == C_out` |
| `Arch.BuildStackShape` | model.py:282-283 | `BuildStack`, the ConvSC comprehension, builds one block per flag in order, unless C_out is odd and there is a block, when it raises ValueError |
| `Arch.EncoderBlocks` | model.py:277-283 | with N_S >= 2 and even widths, `BuildEncoder` keeps the gate and builds `2*(N_S//2)` blocks: `C_in -> (C_in+C_hid)//2`, then `-> C_hid`, then `C_hid -> C_hid` |
| `Arch.EncoderPlanShape` | model.py:266-284 | `BuildEncoder` succeeds iff N_S >= 2 and `(C_in+C_hid)//2` and C_hid are even; IndexError for N_S < 2 (`samplings[0]`), ValueError for an odd width; the blocks chain C_in to C_hid |
| `Arch.OpeningChain` | model.py:277-284 | a stack `C_in -> mid -> C_hid` followed by `C_hid -> C_hid` blocks chains C_in to C_hid with plain blocks |
| `Arch.MidChannelsEven` | model.py:304 | `MidChannels` is even and exceeds `(C_hid+C_out)//2` by at most one |
| `Arch.DecoderPlanShape` | model.py:301-311 | `BuildDecoder` succeeds iff N_S >= 2 and C_hid is even; IndexError for N_S < 2 (`samplings[-1]`), ValueError for odd C_hid; all blocks but the last are `C_hid -> C_hid`, the last is `C_hid -> mid_ch`, the readout `mid_ch -> C_out` |
| `Arch.BuildSubModels` | model.py:58-65 | the comprehension builds `len(time_inte)` sub-models, each equal to `BuildSubModel`, and fails with its error iff there is one to build and it fails |
| `Arch.SubModelPlanShape` | model.py:58-64 | `BuildSubModel` succeeds iff `(hid_S*(T+1) + 2*hid_S)//2` is even (ValueError otherwise); its Encoder maps `hid_S*(T+1) -> 2*hid_S` and its Decoder `2*hid_S -> hid_S` |
| `Arch.ModelPlanShape` | model.py:22-66 | `BuildModel` succeeds iff N_S >= 2 and every GroupNorm width is even; IndexError for N_S < 2, ValueError otherwise; a built model holds `len(time_inte)` sub-models, and the constant and time embeddings emit `hid_S//2` channels |
| `Arch.ModelPlanBuilt` | model.py:34-66 | when those conditions hold, every part is built: the encoder chains C to hid_S, the constant embedding chain_num_const to `hid_S//2`, the time embedding ends at `hid_S//2`, with one sub-model per entry of time_inte |
| `Blocks.LayerForward` | model.py:220-224 | Conv2d, GroupNorm and a sub-model succeed iff the input has their input width, PixelShuffle(r) iff r*r divides it, and emit their output width; SiLU, the gate and the ViT keep the width; failure is always ShapeError |
| `Blocks.BasicConvShape` | model.py:220-224 | `BasicConvForward` on a built BasicConv2d succeeds iff the input has C_in channels, and emits C_out, with or without PixelShuffle |
| `Blocks.ConvSCShape` | model.py:253-257 | `ConvSCForward` on a built ConvSC succeeds iff the input has C_in channels; output channel c is the fusion's channel c plus input channel c (identity) or the residual conv's channel c |
| `Blocks.RunBlocksStopsAtError` | model.py:293-295 | once a block fails, `RunBlocks` of the whole stack fails with that error |
| `Blocks.RunBlocksShape` | model.py:293-295 | `RunBlocks` of a chained stack of plain ConvSC blocks turns `cIn` channels into `cOut` |
| `Blocks.EncoderForward` | model.py:286-296 | the Encoder loop returns the optional gate followed by `enc[0]`..`enc[-1]` in order (`Encode`) |
| `Blocks.DecoderForward` | model.py:313-318 | the Decoder loop returns `dec[0]`..`dec[-1]` followed by the readout (`Decode`) |
| `Blocks.EncodeShape` | model.py:265-296 | `Encode` on a built Encoder turns C_in channels into C_hid |
| `Blocks.EncodeRejects` | model.py:293-295 | `Encode` on a built Encoder fails with ShapeError on any other input width |
| `Blocks.DecodeShape` | model.py:299-318 | `Decode` on a built Decoder turns C_hid channels into C_out |
| `Blocks.SubModelShape` | model.py:58-65 | `SubModelForward` on a built sub-model succeeds iff the input has `hid_S*(T+1)` channels (ShapeError otherwise), and emits one step of `hid_S` |
| `Blocks.SubModelLayer` | model.py:179 | a built sub-model and the layer `SubModel(j, hid_S*(T+1), hid_S)` accept the same inputs, fail alike, and emit the same width |
| `Recur.TimeEmbedding` | model.py:42-48 | the time embedding (applied at model.py:178) succeeds iff the flattened window has `input_time_length*time_emb_num` features (`TimeFits`), ShapeError otherwise; it then emits `hid_S//2` planes of that window |
| `Recur.TimeFitsColumns` | model.py:43 | with time_emb_num covariates per column, a window flattened at model.py:178 fits the time embedding iff it has input_time_length columns |
| `Recur.SubModelInput` | model.py:179 | `cat[x, const_emb, time_emb]` has `|x| + |const_emb| + hid_S//2` channels, with x and then const_emb first |
| `Recur.BuiltAccepts` | model.py:179 | a built sub-model takes `cat[x, const_emb, time_emb]` iff `Accepts` holds, and then emits `hid_S` channels |
| `Recur.ForwardRecurShape` | model.py:174-181 | `ForwardRecur` succeeds iff the time window fits, hid_i names a sub-model, the input has the sub-models' width and the residual broadcasts; the errors come in the source's order: the time embedding's ShapeError, then IndexError for a bad hid_i, then the sub-model's ShapeError; result channel c is the sub-model's channel c plus channel c of the last step of x |
| `Recur.ForwardRecurNoChannels` | model.py:176-179 | with hid_S == 0, `x[:, -0:]` is all of x; the call succeeds iff the time window fits, hid_i is valid and x and const_emb are empty, and then gives nothing |
| `Recur.ForwardRecurBuilt` | model.py:174-181 | on a built model, the sub-model forward_recur calls accepts its input iff `Accepts`, and whenever `ForwardRecur` succeeds it has emitted `hid_S` channels |
| `Predict.ConcatUniform` | model.py:171 | `Concat` of chunks of k channels each has k channels per chunk |
| `Predict.SlideWindowShape` | model.py:158 | `SlideWindow` keeps the window's length while the chunk is shorter than it; a chunk as long as the window doubles it (`-0`) |
| `Predict.RunChunks` | model.py:151-165 | the `for i in range(d)` loop ends in the state, and with the exception, that `ChunkLoop` gives |
| `Predict.Predict` | model.py:138-172 | `_predict` returns exactly the result and calls of `PredictSpec`, on all three branches and every error path (`Finish`, `RemainderCall`) |
| `Predict.ChunkLoopRuns` | model.py:151-165 | when every call can succeed (a kept window, `WindowKept`, and time windows that fit, `ChunkTimesFit`), the `ChunkLoop` succeeds, iteration k calls on time window k and emits one step, and window k+1 comes from window k and its output (`ChunksRan`) |
| `Predict.ChunksRanStep` | model.py:151-165 | a run from iteration i+1 that began with chunk i's call and window is a run from iteration i |
| `Predict.FinishRuns` | model.py:167-171 | with an accepted window and, when m != 0, a remainder time window that fits, `Finish` succeeds, adds one call iff m != 0, and the concatenation is d steps plus `min(m, hid_S)` channels |
| `Predict.FinishRejected` | model.py:167-169 | a remainder time window that does not fit makes `Finish` raise ShapeError after the remainder's call |
| `Predict.PredictUnfold` | model.py:146-171 | for aft > pre > 0, a kept window and chunk time windows that fit, `PredictSpec` is the chunk loop, which succeeds, followed by `Finish` |
| `Predict.ChunkDivision` | model.py:148-149 | Python's `//` and `%` by pre > 0 give `d*pre + m == aft`, `0 <= m < pre` and d >= 1 |
| `Predict.ChunkLoopLengths` | model.py:151-165 | from a kept window with chunk time windows that fit, the loop makes d calls and d step-sized chunks, and the window stays kept |
| `Predict.PredictChunkCount` | model.py:146-171 | aft > pre, kept window, chunk and remainder time windows that fit: success with exactly d calls, plus one iff m != 0; the prediction has `d*hid_S + min(m, hid_S)` channels |
| `Predict.PredictChunkWindows` | model.py:151-165 | with a kept window and chunk time windows that fit, chunk k reads `ChunkTime`: `[k*pre, k*pre+I)` in shrink mode and `[k*I, (k+1)*I)` otherwise, with hid_i, on the window the previous chunk left (`NextWindow`), perturbed in train mode |
| `Predict.PredictRemainderWindow` | model.py:167-169 | with a kept window and chunk time windows that fit, the remainder call reads `[-(m+I+pre):-m]` with sub-model 0 on the window the last chunk left |
| `Predict.PredictWindowDrifts` | model.py:153-165 | an accepted first window, whose time window fits, that is not kept (replaced by a step of another width, or doubled by `-0`) makes the second call raise ShapeError: two calls in all |
| `Predict.PredictSingleCall` | model.py:140-145 | aft == pre: one call on time `[0, I)` with hid_i, result as is; aft < pre: one call on all time data with sub-model 0, first aft channels kept |
| `Predict.TimeWindowWidths` | model.py:153-168 | with enough time data, each full chunk reads I columns but the remainder reads I + pre |
| `Predict.ChunkTimesFitLong` | model.py:153-165 | with time_emb_num covariates per column and time data reaching the end of the last chunk's window, every chunk's time window fits (`ChunkTimesFit`) |
| `Predict.RemainderTooWide` | model.py:167-168 | with time_emb_num covariates per column and time data holding `[-(m+I+pre):-m]`, the remainder's time window does not fit |
| `Predict.PredictRemainderRejected` | model.py:146-171 | aft > pre, m != 0, kept window, chunk time windows that fit and a remainder window that does not: ShapeError after d + 1 calls |
| `Predict.ShrinkRemainderFails` | model.py:146-171 | in shrink mode, with time data of I + aft columns carrying time_emb_num covariates each, a horizon that is not a multiple of pre raises ShapeError at the remainder, after d + 1 calls |
| `Pangu.PredictPangu2` | model.py:100-136 | `_predict_pangu2` returns exactly the result and calls of `Pangu2Spec` (via `StepLoop`, `StepCall`, `Gather`), including ValueError, ZeroDivisionError, IndexError, KeyError and ShapeError |
| `Pangu.ScheduleIntervals` | model.py:112-133 | with `max(time_inte) >= 3`, `Schedule` gives steps 1, 2 and 3 intervals 1, 2 and 1, and every later step 4 |
| `Pangu.ScheduleMaxTwo` | model.py:112-121 | with `max(time_inte) == 2`, step 2 of `Schedule` has `pred_pos == 0`: it reads the OLDEST step twice, with column I-1 twice and interval 0 |
| `Pangu.StepFromEnd` | model.py:114-116 | `[-a*h:-(a-1)*h]` on a buffer of n steps is step n-a, and `[-h:]` is the last step |
| `Pangu.LastTwoSteps` | model.py:123 | `[-2*h:]` is the last two steps |
| `Pangu.FirstStepsAligned` | model.py:113-121 | steps 1 and 2 read steps p-2iv and p-iv, and their time columns are those positions |
| `Pangu.ThirdStepAligned` | model.py:122-127 | step 3 reads steps I and I+1, with those columns |
| `Pangu.LaterStepAligned` | model.py:128-133 | steps >= 4 read the steps eight and four back, with those columns |
| `Pangu.StepAligned` | model.py:112-133 | every step of `Schedule` reads two steps spaced by its interval, the second one interval before the step it appends, with their positions as time columns |
| `Pangu.DropSteps` | model.py:136 | `pred_y[:, in_len_val*hid_S:]` on n steps drops the first in_len_val steps, leaving `(n-k)*hid_S` channels |
| `Pangu.StepAtPrefix` | model.py:134 | appending to the buffer leaves earlier steps unchanged |
| `Pangu.StepAtAppend` | model.py:134 | the appended output becomes the buffer's newest step |
| `Pangu.AlignedCallPrefix` | model.py:134 | an aligned call stays aligned as the buffer grows |
| `Pangu.CallReadsAppend` | model.py:134 | a call that reads the aligned steps still reads them after the append, and the output becomes the newest step |
| `Pangu.AppendAligned` | model.py:134 | a call reading the aligned steps whose output is one step is aligned on the grown buffer |
| `Pangu.PairAcceptedFrames` | model.py:58-59 | with an even hid_S and the `hid_S//2`-channel constant embedding, every step's call is accepted (`PairAccepted`) iff the sub-models were built for T == 2 and two time columns fit the Linear of model.py:43; with time_emb_num covariates per column, iff T == 2 and input_time_length == 2 |
| `Pangu.StepCallAligned` | model.py:112-133 | with its interval in time_inte, `StepCall` for step pred_i succeeds, reads the aligned steps and columns, and uses the LAST sub-model of its interval |
| `Pangu.StepCallMissing` | model.py:118-133 | with its interval missing from time_inte, `StepCall` gathers its columns and then raises KeyError |
| `Pangu.StepRuns` | model.py:112-134 | with its interval present and the pair of steps and time columns accepted (`PairAccepted`), step pred_i's call succeeds and appends exactly one aligned step |
| `Pangu.StepsRanStep` | model.py:109-134 | a run from step pred_i+1 on the grown buffer, with step pred_i's call aligned, is a run from step pred_i |
| `Pangu.StepAdvances` | model.py:109-134 | under the same conditions one iteration of `StepLoop` succeeds: the loop continues from a buffer one step longer with one more call |
| `Pangu.StepLoopRuns` | model.py:109-134 | with every interval present and `PairAccepted`, iterations pred_i..aft all succeed, with one call and one appended step each, the buffer and calls so far as prefixes, and every call aligned (`StepsRan`) |
| `Pangu.StepLoopMissing` | model.py:109-133 | from an aligned step with `PairAccepted` (so the calls before step q succeed), when steps up to q-1 have their intervals and step q's is missing, `StepLoop` raises KeyError at step q after the calls for the steps before it |
| `Pangu.Pangu2Aligned` | model.py:104-134 | with I >= 5 steps of input, {1, 2, 4} within time_inte, `max >= 3` and `PairAccepted`, the loop makes exactly aft calls, grows the buffer to I+aft steps with the input as its prefix, and every call is aligned |
| `Pangu.Pangu2Result` | model.py:104-136 | under the same conditions, the prediction succeeds with those calls and is the buffer without its first in_len_val steps, `(I+aft-in_len_val)*hid_S` channels |
| `Pangu.FinalSteps` | model.py:136 | a successful run of I+aft steps returns its buffer from channel `in_len_val*hid_S` on, `(I+aft-in_len_val)*hid_S` channels, with the run's aft calls |
| `Pangu.StepLoopCount` | model.py:109-134 | for any inputs, a loop that finishes makes one call per step and only appends to the buffer |
| `Pangu.Pangu2Count` | model.py:109-136 | for any inputs, a successful prediction makes exactly `max(aft, 0)` calls |
| `Pangu.Pangu2MissingInterval` | model.py:106-133 | with `PairAccepted`, when step q is the first step whose interval is missing from time_inte, `time_inte_dict[...]` raises KeyError at step q after exactly q-1 calls |
| `Pangu.Pangu2MissingCases` | model.py:106-133 | with `PairAccepted`: without 1 the prediction raises KeyError before any call; with 1 but not 2, after one call; with 1 and 2 but not 4, after three calls |
| `Pangu.Pangu2PairRejected` | model.py:113-121 | when two time columns do not fit, or two steps with the embeddings do not have the sub-models' width, the first call raises ShapeError and the prediction fails after one call |
| `Pangu.Pangu2TimeRejected` | model.py:113-121 | with time_emb_num covariates per column and I >= 5, two time columns do not fit, so the first call (on columns I-2 and I-1) raises ShapeError in the time embedding (model.py:178) and the prediction fails |
| `Model.Forward` | model.py:68-97 | mode 'train' runs `_predict` and keeps the label outputs; any other mode runs `_predict_pangu2` and has no label outputs |
| `Model.TrainingChunksPerturbed` | model.py:151-163 | in training, from a kept window with chunk time windows that fit, every chunk of a chunked horizon reads its window plus a fresh noise draw |
| `Model.EmbeddedWindowKept` | model.py:84-88 | the window `z` of T steps, with the `hid_S//2`-channel constant embedding, is accepted; it is kept iff T >= 2 in shrink mode and T == 1 otherwise |

## Left out

- `cross_att_matrix` and the correlation gate of an Encoder with `tar_dim` (model.py:10-19, 271-276,
  289-291): floating-point statistics. The gate is one uninterpreted layer that keeps the channel count.
- The values computed by Conv2d, GroupNorm, SiLU, LeakyReLU, Linear, Sigmoid, PixelShuffle and the
  VisionTransformer. These are library floating-point numerics and an external module. Each is an
  uninterpreted function with a channel-count contract only.
- The values of the time covariates. A time column is an opaque value. Only the number of
  columns and `Config.timeFeatures` are modelled. The covariate count is taken to be the same
  for every column, as in a tensor.
- The VisionTransformer is an external module whose code is not part of this model. It is taken
  to accept any channel count and keep it.
- Gaussian noise: the i-th `randn` draw is the symbolic plane `Noise(i, c)`. Device placement and dtype
  casts are left out.
- Weight initialisation (model.py:213-218): random.
- Batch, height and width, and all `view`/`reshape` calls. These are fixed and not represented.
  Spatial size arithmetic is left out too.
- `Model.Forward`: it receives the encoder's output `z` and the repeated constant embedding as inputs
  and returns `hid` before the final `self.dec(hid)`. The `self.enc` calls and the label
  encode/decode of the training branch (model.py:70-85, 93-97) are tensor plumbing around the
  learned networks, so their values are a caller-given `LabelOutputs`.
- `Recur.TimeEmbedding` and the constant width `int(hid_S*0.5)`: read as `hid_S // 2` for a
  nonnegative integer hid_S.
- Pangu.StepLoopRuns: stated for an input of at least five steps (I >= 5), where every slice of
  the schedule lies inside the buffer. With fewer steps `pred_y[:, -8*hid_S:-7*hid_S]` clamps, and
  the steps read are not stated.
- Pangu.Pangu2Aligned: stated for I >= 5, for the same reason.
- Pangu.Pangu2Result: stated for I >= 5, for the same reason.
- The unused imports and the `diff_ori`, `batch_y`, `device` and `**kwargs` parameters.
