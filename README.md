# Balanced model offload and the masked-token scheduler, in Dafny

This project models two parts of an image-generation web UI:

- **The balanced offload manager** (`modules/sd_offload.py`). This manager keeps a diffusers pipeline's large components (text encoders, transformer, VAE) on the GPU while memory allows. It moves them to the CPU when GPU usage goes above a low watermark. It does this through an accelerate hook that it attaches to every component. The model covers:
  - the settings the manager reads and corrects (watermarks, the CPU and GPU ceilings);
  - the test that decides whether the one live manager is reused or rebuilt;
  - the size cache and how it is filled;
  - the largest-first listing of a pipeline's modules;
  - the eviction loop and its running estimate of GPU usage;
  - the detach/move/reattach cycle, with the attributes it saves and restores;
  - the device-map choice of `pre_forward` (with the DirectML rewrite);
  - the eviction after each forward pass in `post_forward`;
  - `set_accelerate`, `disable_offload` and `dtype_byte_size`.
- **The discrete part of the Meissonic masked-token scheduler** (`modules/meissonic/scheduler.py`). This covers:
  - the descending timesteps and the temperature ramp of `set_timesteps`;
  - the unknown-token map, the `where` selections and the mask-length clamp of `step`;
  - the reshaping of 2-D token grids;
  - the masked copy of `add_noise`.

The project has four modules:

- `Common`: option and result types, substring tests, integer rendering, and `int()` truncation.
- `OffloadPolicy`: the manager's decisions as pure functions, with lemmas about them.
- `Offload`: the stateful side, as classes whose fields change in place:
  - `Opts`: the settings.
  - `Module`: a pipeline component.
  - `Pipe`: a pipeline, with its nested `pipe`, `prior_pipe` and `decoder_pipe`.
  - `OffloadHook`: the manager.
  - `Session`: the module-level slot `offload_hook_instance`.

  Each method is proved against the specification functions in `OffloadPolicy` and `Offload`.
- `Meissonic`: the scheduler. `Scheduler` is a class holding `timesteps` and `temperatures`. `step` and `add_noise` are methods proved against the functions `StepResult` and `MaskedCopy`.

How calls into torch and accelerate are modelled:

- **Values passed in as parameters:**
  - memory readings (`torch_gc`, `gpu_memory`);
  - the map `infer_auto_device_map` would produce;
  - the device a module reports after `dispatch_model`;
  - the message `module.to(cpu)` raises;
  - the tokens `torch.multinomial` draws;
  - the masking `mask_by_random_topk` selects;
  - the uniform draws of `torch.rand`;
  - the value of the cosine schedule.
- **Field updates:** attaching and removing hooks, and moving a module.

## Model

| member | source | states |
|---|---|---|
| Common.Trunc | modules/sd_offload.py:143-144 | `int()` of a float truncates toward zero. A non-negative value loses less than 1. A negative value gains less than 1. |
| Common.IntToString | modules/sd_offload.py:190 | A device index is rendered in decimal, with a leading '-' only for negatives. |
| OffloadPolicy.CeilingClamped | modules/sd_offload.py:135-138 | A GPU or CPU maximum above 1 becomes 0.75. Any other value is kept. The result is never above 1. |
| OffloadPolicy.Validated | modules/sd_offload.py:152-163 | Outside balanced mode the watermarks are untouched. In balanced mode the result is always a valid pair (0 <= low <= high, 0.1 <= high <= 1), and an already valid pair is left alone. An out-of-range high becomes 0.7 and an in-range high is kept. Low never increases unless it was negative. |
| OffloadPolicy.RebuildIgnoresCpuWatermark | modules/sd_offload.py:245 | Changing only the CPU watermark never changes whether the live manager is rebuilt. |
| OffloadPolicy.CorrectedSettingsRebuildOnce | modules/sd_offload.py:245-247 | Settings that the constructor had to correct leave the new manager remembering the uncorrected values, so the next call rebuilds it. Correction is idempotent, and the manager built from corrected settings is then reused. |
| OffloadPolicy.ValidSettingsReuse | modules/sd_offload.py:245-247 | Valid settings are not changed by the constructor, and the manager built from them passes the reuse test. |
| OffloadPolicy.DtypeByteSize | modules/sd_offload.py:22-28 | The four float8 types get accelerate's FP8 width. Every other type gets accelerate's own width for it. |
| OffloadPolicy.Float8WidthsAgree | modules/sd_offload.py:24-25 | All float8 variants have one and the same byte width. |
| OffloadPolicy.ByteCount | modules/sd_offload.py:263 | The byte total fails exactly when some parameter's element size cannot be obtained. |
| OffloadPolicy.ModuleSize | modules/sd_offload.py:263-267 | A module's size in GiB is non-negative, and the computation fails exactly when some element size fails. |
| OffloadPolicy.ParamCount | modules/sd_offload.py:264 | A parameter count in units of 1024**3 is non-negative. |
| OffloadPolicy.SizeAtLeastParams | modules/sd_offload.py:263-264 | When every element is at least one byte, the size computes and is at least the parameter count. |
| OffloadPolicy.BytesAtLeastNumel | modules/sd_offload.py:263-264 | When every element is at least one byte, the byte total computes and is at least the element count. |
| OffloadPolicy.SumSizesNonNegative | modules/sd_offload.py:167-168 | With no negative cached size, `model_size()` is non-negative. |
| OffloadPolicy.SumSizesExtend | modules/sd_offload.py:268 | Caching the size of a new name adds exactly that size to `model_size()`. |
| OffloadPolicy.SumSizesAtLeastEntry | modules/sd_offload.py:203-208 | `model_size()`, which `post_forward` subtracts for one moved module, is at least that module's own cached size. |
| OffloadPolicy.FilterNames | modules/sd_offload.py:254 | A name is a candidate exactly when it is a key, is not excluded and does not start with "_". Distinct keys give distinct candidates. |
| OffloadPolicy.InsertBySize | modules/sd_offload.py:271 | Inserting into a listing that is non-increasing by size keeps it non-increasing. The result is the old entries plus the new one, as a multiset, and distinct names stay distinct. |
| OffloadPolicy.SortBySize | modules/sd_offload.py:271 | The sorted listing is non-increasing by size and is a permutation of its input. Distinct names stay distinct. |
| OffloadPolicy.Classify | modules/sd_offload.py:213-219 | An error is out-of-memory exactly when its message contains "out of memory". It is ignored exactly when it does not, but contains "bitsandbytes". It is logged in every other case. |
| OffloadPolicy.Decide | modules/sd_offload.py:291-297 | A move is attempted exactly when the module is present, used/gpu_memory exceeds the low watermark, and the module is not on the CPU. The move completes exactly when it is attempted and raises nothing. The result is absent exactly when no module is there. |
| OffloadPolicy.PlanAt | modules/sd_offload.py:282-297 | Each iteration of the loop decides from the estimate the previous iteration left behind. The final estimate is what the last iteration leaves. |
| OffloadPolicy.PlanNonIncreasing | modules/sd_offload.py:293-297 | The running GPU estimate never increases from one module to the next, and never exceeds the starting reading. |
| OffloadPolicy.PlanStopsBelowWatermark | modules/sd_offload.py:291-297 | Once the estimate is at or below the low watermark, no later module is moved. |
| OffloadPolicy.FinalUsedIsEvictedTotal | modules/sd_offload.py:295-297 | The estimate after the loop is the starting reading minus the sizes of the modules actually moved. |
| OffloadPolicy.MaxMemoryFor | modules/sd_offload.py:174-178 | The budget dictionary is keyed by the execution device's index (0 when it has none) and carries the GPU and CPU budgets. |
| OffloadPolicy.DirectMlRewrite | modules/sd_offload.py:186-190 | The rewrite keeps the keys and the named values. Every integer value becomes "<type>:<index>". Afterwards no value is an integer. |
| OffloadPolicy.DirectMlRewriteIdempotent | modules/sd_offload.py:186-190 | Rewriting an already rewritten map changes nothing. |
| Offload.Module.RemoveHooks | modules/sd_offload.py:290 | Removing hooks drops every hook, and with them the execution device, network_layer_name, the stored device map and max_memory. Nothing else changes. |
| Offload.Module.AddHook | modules/sd_offload.py:314-315 | Appending a hook chains one more hook, owned by the manager, and sets its execution device. Nothing else changes. |
| Offload.Pipe.Stages | modules/sd_offload.py:324-330 | The walk starts with the model itself. It visits only the model and its pipe, prior_pipe and decoder_pipe. |
| Offload.Detached | modules/sd_offload.py:43-49 | A detached module has no hooks, no stored map and no max_memory. A non-empty network_layer_name is kept and an empty one is gone. Device, offload_post and has_accelerate are unchanged. |
| Offload.SetAccelerateTo | modules/sd_offload.py:54-61 | After the walk down the `pipe` chain, exactly the modules named in each pipeline's `_internal_dict` along it gain has_accelerate. Every other field of every module is unchanged. |
| Offload.MarkComponents | modules/sd_offload.py:57-61 | Every module among the pipeline's keys gains has_accelerate. Nothing else about it changes. |
| Offload.SetAccelerate | modules/sd_offload.py:53-68 | The model is marked. A module gains has_accelerate exactly when the walk from the model, prior_pipe or decoder_pipe reaches it. Other fields do not change. |
| Offload.MarkStage | modules/sd_offload.py:64-68 | Marking an optional nested pipeline marks its reachable modules and nothing else. A missing pipeline marks nothing. |
| Offload.DisableOffload | modules/sd_offload.py:36-50 | Without has_accelerate nothing changes. Otherwise every component is detached as `Detached` states, and the model is unmarked. |
| Offload.DetachComponents | modules/sd_offload.py:43-49 | Every component among the keys ends up detached from its own previous state. |
| Offload.DetachModule | modules/sd_offload.py:44-49 | One module's hooks are removed, and a non-empty network_layer_name is put back. |
| Offload.SizeFor | modules/sd_offload.py:257-267 | A name with no cached size gets a freshly computed size that is non-negative (0 when the computation raises). |
| Offload.ListedUpTo | modules/sd_offload.py:254-270 | After i names, the collected pairs are exactly the names among them that are cached or are modules, each with its cached or computed size. Distinct names give distinct entries. |
| Offload.Listed | modules/sd_offload.py:254-270 | Before sorting, `get_pipe_modules` lists exactly the candidates that are cached or are modules, each with its size. |
| Offload.FillCached | modules/sd_offload.py:257-270 | A cached name is listed with its cached size. Nothing is written, and the loop invariant is kept. |
| Offload.FillSkip | modules/sd_offload.py:259-261 | A name with no cache entry and no module behind it is skipped, and the loop invariant is kept. |
| Offload.FillNew | modules/sd_offload.py:258-270 | A new module gets its computed size. When param_num is assigned, it also gets param_num's current value (possibly left over from an earlier module), and the loop invariant is kept. |
| Offload.AppliedAt | modules/sd_offload.py:282-321 | After the loop, every listed module is reattached with its own step's action, and every other module is untouched. |
| Offload.AppliedStep | modules/sd_offload.py:282-321 | Handling the next entry changes only that entry's module, starting from its state before the loop. |
| Offload.RewriteForDirectMl | modules/sd_offload.py:186-190 | The in-place loop over the device map computes exactly the DirectML rewrite. |
| Offload.DispatchMap | modules/sd_offload.py:179-190 | The stored map is used exactly when there is one and it was built for the same max_memory; otherwise the inferred map is used. On DirectML that same choice is made and then rewritten by `DirectMlRewrite`, so every index becomes a device name. |
| Offload.OffloadHook.constructor | modules/sd_offload.py:134-150 | The caches start empty. The manager remembers the settings as they were after clamping and before validation. The budgets are int(memory × clamped fraction × 1024³). The settings end up clamped and then validated. |
| Offload.OffloadHook.Validate | modules/sd_offload.py:152-165 | The stored watermarks become exactly `Validated` of the old ones. The CPU maximum, the mode and te_hijack are untouched. |
| Offload.OffloadHook.ModelSize | modules/sd_offload.py:167-168 | The total of the size cache is non-negative. |
| Offload.OffloadHook.ModelSizeCoversEntry | modules/sd_offload.py:167-168 | The total is at least any one cached size. |
| Offload.OffloadHook.PreForward | modules/sd_offload.py:173-196 | A module already on the execution device is untouched. Any other module is dispatched with `DispatchMap` and gets the execution device. It records that map and the max_memory it was built for. The arguments come back unchanged. |
| Offload.OffloadHook.PostForward | modules/sd_offload.py:198-222 | Only a module flagged offload_post and off the CPU is considered. It is moved exactly when `Decide` says so. A completed move subtracts the whole cache's total. An unclassified failure raises. The output comes back unchanged. |
| Offload.OffloadHook.AddSize | modules/sd_offload.py:268 | A new size entry is appended at the end of the cache's order, and the cache stays valid. |
| Offload.OffloadHook.AddParams | modules/sd_offload.py:269 | The parameter count is recorded for a name the size cache holds, and nothing else changes. |
| Offload.OffloadHook.FillName | modules/sd_offload.py:256-270 | One iteration keeps the fill invariant. Or it fails exactly on a new module whose size raises while param_num is still unassigned. |
| Offload.OffloadHook.GetPipeModules | modules/sd_offload.py:249-272 | Cache entries are never changed or removed. The call fails exactly when some new module is reached while param_num is unassigned, and names that module. On success the listing is `Listed` sorted largest first, with distinct names, and every new cache entry agrees with the fill specification. |
| Offload.OffloadHook.ReattachModule | modules/sd_offload.py:284-321 | The action is `Decide` on the module as found. The estimate drops by the size only for a completed move. The module ends up as `Reattached` states: one hook owned by this manager, the saved attributes restored when truthy, and offload_post set. |
| Offload.OffloadHook.DetachAndMove | modules/sd_offload.py:287-297 | Hooks are removed, and the module moves to the CPU exactly when `Decide` says the move completes. |
| Offload.OffloadHook.Restore | modules/sd_offload.py:313-321 | The manager's hook is appended. The saved network_layer_name goes back when it is non-empty, and the saved map and max_memory go back when both are set. offload_post is assigned. |
| Offload.OffloadHook.ApplyToPipe | modules/sd_offload.py:274-322 | On failure the modules are untouched, and the error names a candidate module whose size could not be computed. On success the listing is the sorted cache listing, the actions are `Plan` over it from the GPU reading, and the modules end up as `Applied` states. |
| Offload.OffloadHook.ApplyStages | modules/sd_offload.py:324-330 | The cache stays valid and only grows. An error names a candidate module of one of the stages whose size could not be computed. |
| Offload.OffloadHook.HandleEntry | modules/sd_offload.py:282-321 | A name with no module is skipped. A module is detached, possibly moved, and reattached, and no other module changes. |
| Offload.OffloadHook.ReattachNext | modules/sd_offload.py:282-321 | Handling entry i extends the `Applied` state by exactly that entry. Its action is `Decide` on the module as it was before the loop. |
| Offload.OffloadHook.ReattachAll | modules/sd_offload.py:282-321 | The loop's actions are exactly `Plan` over the listing, and the modules end up as `Applied` over the whole listing. |
| Offload.Target | modules/sd_offload.py:232-237 | The given model is used. Without one, the shared model is used when one is loaded, else nothing. |
| Offload.CheckpointOf | modules/sd_offload.py:242-244 | The manager is keyed by the checkpoint info's name when present, else by the pipeline's class name. |
| Offload.Session.EnsureManager | modules/sd_offload.py:245-247 | A new manager is built exactly when `NeedsRebuild` holds. A new manager is fresh, has empty caches and remembers the unvalidated settings. Otherwise the live manager and the settings are kept. |
| Offload.Session.ApplyBalancedOffload | modules/sd_offload.py:228-340 | Outside balanced mode, with no model, or for an excluded class, nothing changes. Otherwise the manager is rebuilt exactly when `NeedsRebuild` holds for the model's checkpoint. When no stage fails, the model and every module `set_accelerate` reaches are marked. |
| Meissonic.Arange | modules/meissonic/scheduler.py:81 | `arange(n)` holds 0 to n - 1 in order. |
| Meissonic.Flip | modules/meissonic/scheduler.py:81 | Flipping keeps the length. |
| Meissonic.FlipAt | modules/meissonic/scheduler.py:81 | Position i of the flip is position n - 1 - i of the input. |
| Meissonic.TimestepsDescend | modules/meissonic/scheduler.py:81 | The timesteps are n - 1 down to 0, strictly descending. |
| Meissonic.Linspace | modules/meissonic/scheduler.py:83-86 | The ramp has the requested number of values. It starts at the start value, and ends at the end value when there are at least two. |
| Meissonic.LinspaceDescends | modules/meissonic/scheduler.py:83-86 | From a higher start to a lower end, the temperatures never rise. |
| Meissonic.Temperatures | modules/meissonic/scheduler.py:83-86 | A number ramps from itself to 0.01. A tuple or list ramps from its first value to its second. It fails exactly when a tuple or list has fewer than two values. |
| Meissonic.StepIndex | modules/meissonic/scheduler.py:127 | The index found is the first position holding the timestep, and there is none exactly when the timestep is absent. |
| Meissonic.StepIndexOfTimestep | modules/meissonic/scheduler.py:127-128 | In the schedule set_timesteps builds, timestep t sits at index n - 1 - t. |
| Meissonic.MaskRatio | modules/meissonic/scheduler.py:128-135 | With ratio = (idx + 1) / n, "cosine" gives cos(ratio·π/2) and "linear" gives 1 - ratio. Any other name fails with that name. |
| Meissonic.LinearRatioOfTimestep | modules/meissonic/scheduler.py:128-133 | Under the linear schedule, timestep t of n keeps t / n of the tokens masked, a value in [0, 1). |
| Meissonic.UnknownCount | modules/meissonic/scheduler.py:141 | The masked count is at most the row length, and it is zero exactly when the mask id does not occur. |
| Meissonic.MaskLen | modules/meissonic/scheduler.py:139-143 | The mask length is always at least 1. With two or more masked tokens it is below the masked count. With at most one masked token it is 1. |
| Meissonic.MaskLenFollowsRatio | modules/meissonic/scheduler.py:139-143 | Between the bounds, the length is exactly floor(seq_len × ratio). Below 1 it is 1. Above the cap it is the masked count minus one. |
| Meissonic.MaskLens | modules/meissonic/scheduler.py:139-143 | There is one mask length per row, each computed from that row's own masked count. |
| Meissonic.KeepGiven | modules/meissonic/scheduler.py:121 | The prediction has the batch's shape. |
| Meissonic.GivenTokensSurvive | modules/meissonic/scheduler.py:121 | Every given token survives into the prediction, and every masked position holds the drawn token. |
| Meissonic.Remask | modules/meissonic/scheduler.py:152 | prev_sample has the batch's shape. |
| Meissonic.RemaskIsMaskOrPred | modules/meissonic/scheduler.py:152 | prev_sample holds the mask id exactly where masking holds, and the prediction elsewhere. |
| Meissonic.Unflatten | modules/meissonic/scheduler.py:155-156 | Reshaping a row of height × width tokens gives height rows of width tokens. |
| Meissonic.FlattenLength | modules/meissonic/scheduler.py:101 | Flattening a grid of width-long rows gives rows × width tokens. |
| Meissonic.UnflattenFlatten | modules/meissonic/scheduler.py:101-156 | A grid flattened for step and reshaped back is the same grid. |
| Meissonic.FlattenUnflatten | modules/meissonic/scheduler.py:101-156 | A row reshaped to a grid and flattened is the same row. |
| Meissonic.RowsShape | modules/meissonic/scheduler.py:97-102 | The (batch, seq_len) view of a well-shaped input has rows of seq_len tokens. |
| Meissonic.ReshapedRows | modules/meissonic/scheduler.py:97-156 | Viewing an input as rows and reshaping back gives the input, for flat rows and for grids. |
| Meissonic.GeneratorCount | modules/meissonic/scheduler.py:109-112 | A single generator, or a one-element list, is replicated per batch item. A longer list is used as given. |
| Meissonic.LastStepKeepsPrediction | modules/meissonic/scheduler.py:123-124 | At timestep 0 step succeeds on a non-empty batch whose generators match it, and prev_sample equals pred_original_sample. |
| Meissonic.UnknownScheduleFails | modules/meissonic/scheduler.py:130-135 | With an unknown schedule name, every step except the last fails with that name (on a non-empty batch whose generators match it). |
| Meissonic.EmptyBatchFails | modules/meissonic/scheduler.py:109-120 | An empty batch always fails: with the default generator because there are no rows to stack, otherwise possibly because the generator list does not match. |
| Meissonic.StepTokens | modules/meissonic/scheduler.py:104-152 | A successful step on flat input keeps every given token, puts the drawn token at every masked position, and leaves only the mask id or the prediction in prev_sample. Every mask length is at least 1, and below the masked count when two or more tokens were masked. |
| Meissonic.Scheduler.constructor | modules/meissonic/scheduler.py:67-73 | A new scheduler has its mask id and schedule name, and neither timesteps nor temperatures. |
| Meissonic.Scheduler.SetTimesteps | modules/meissonic/scheduler.py:75-86 | The timesteps become n - 1 down to 0. The temperatures become `Temperatures`. A too-short tuple fails after the timesteps were already replaced, leaving the temperatures as they were. |
| Meissonic.Scheduler.Step | modules/meissonic/scheduler.py:88-161 | The loop over generators and the rest of step compute exactly `StepResult`: a generator count that does not match the batch fails, an empty batch fails, and otherwise the outcome is the one `StepTokens`, `LastStepKeepsPrediction` and `UnknownScheduleFails` describe. |
| Meissonic.Scheduler.AddNoise | modules/meissonic/scheduler.py:163-185 | With the generator handling corrected (see Findings), it fails exactly when `NoiseRatioFor` fails, with the same error. Otherwise it returns a fresh array equal to `MaskedCopy` of the sample, and the sample itself is untouched. |
| Meissonic.NoiseRatio | modules/meissonic/scheduler.py:164-172 | Without timesteps it fails with TimestepsNotSet. With an unknown schedule name it fails with that name. |
| Meissonic.AddNoiseAsWrittenNeverDraws | modules/meissonic/scheduler.py:174-179 | As written, add_noise fails before its draw for every generator argument; with the default None it fails on `generator[0]`. |
| Meissonic.DefaultGeneratorCounterexample | modules/meissonic/scheduler.py:163-179 | For the linear schedule of two steps at timestep 1 with the default generator, the mask ratio is 0.5, yet the code as written fails, while the corrected handling reaches the draw with 0.5. |
| Meissonic.NoiseRatioFor | modules/meissonic/scheduler.py:164-179 | With None or one generator, add_noise reaches the draw with exactly the schedule's mask ratio; a generator list is refused by torch.rand; schedule and timestep errors are kept. |
| Meissonic.NoiseRatioForCorrects | modules/meissonic/scheduler.py:164-179 | The correction changes only the generator failures: where the ratio itself fails, and for a non-empty list, it agrees with the code as written. |
| Meissonic.MaskedCopy | modules/meissonic/scheduler.py:181-183 | The masked copy has the sample's length. |
| Meissonic.MaskedCopyChangesOnlySelected | modules/meissonic/scheduler.py:174-183 | A position becomes the mask id exactly when its draw is below the ratio. Every other position keeps its token. |
| Meissonic.MaskedCopyIdempotent | modules/meissonic/scheduler.py:181-183 | Masking again with the same draws changes nothing. |

## Left out

- Every offload mode other than "balanced" in `set_diffuser_offload` (model and sequential CPU offload). These are calls into accelerate and diffusers with no logic of their own to model.
- The internals of accelerate: `infer_auto_device_map`, `dispatch_model`, the hook classes, and the replacement of accelerate's `dtype_byte_size`. The inferred map, the device after dispatch and accelerate's byte-width table are parameters.
- `get_signature`: the component names of a pipeline (from `_internal_dict` or from `__init__`'s signature) are given as its `keys`.
- `torch_gc`, logging, debug tracing, timers, layerwise quantisation, the offload directory path and the low-memory warning. None of them affects a decision. Memory readings are parameters; the orchestrator takes one per stage as `usedGpu(k)`.
- Floating-point rounding: sizes, watermarks and ratios are real numbers.
- Meissonic.Linspace: exact arithmetic, not float32, so it states the end points and the ordering, not rounding.
- Python attributes that are not `torch.nn.Module` instances. A pipeline's `components` holds only its modules, and any other attribute counts as missing. This matches `get_pipe_modules` for names it has not cached yet (sd_offload.py:259-261). It differs for a name cached from an earlier stage whose attribute in this pipeline is set but is not a module: sd_offload.py:285-286 skips only None, so the Python code lists it and calls `remove_hook_from_module` on it outside the try, while the model skips it.
- Offload.Pipe.Valid: requires that no module sits under two names of one pipeline. sd_offload.py does not rule out such aliasing, but diffusers pipelines do not create it.
- Offload.Module.RemoveHooks: accelerate's `remove_hook_from_module` is taken to drop the attributes sd_offload.py saves and restores around it (network_layer_name, device map, max_memory). This is the worst case the restore code guards against.
- OffloadPolicy.SameDevice: `devices.same_device` is not part of this model. It is taken to compare device type and index, with a missing index counting as 0.
- OffloadPolicy.ParamCount: only non-negativity is stated. The value itself is what the fill specification stores.
- Offload.OffloadHook.PostForward: `gpu_memory > 0` is required, because sd_offload.py divides by it without a guard. The same holds for `Decide`, `Plan`, `ApplyToPipe`, `ApplyStages` and `ApplyBalancedOffload`.
- Offload.OffloadHook.GetPipeModules: when param_num is unassigned, Python raises `UnboundLocalError`. The model returns an error naming the module instead. The module's size entry has already been written, as in sd_offload.py.
- Offload.OffloadHook.ApplyStages: states only that the size cache grows and stays valid. What each stage does to its pipeline's modules is stated per stage by `ApplyToPipe`.
- Offload.Session.ApplyBalancedOffload: states the rebuild decision, the settings and the marking by `set_accelerate`. It does not restate each stage's effect on the modules (see `ApplyToPipe`).
- Meissonic.Scheduler.Step: the softmax, `torch.multinomial`, the Gumbel noise and `mask_by_random_topk` are inputs (`sampled`, `masking`). `starting_mask_ratio` multiplies the schedule value as given.
- Meissonic.MaskRatio: `torch.cos` is a parameter function (`cosine`).
- Meissonic.StepAfterSampling: a timestep missing from the schedule is an error here. In scheduler.py the empty index tensor flows on into an empty result or a shape error.
- Meissonic.WellShaped: a 3-D sample with logits that are not 4-D is not modelled; scheduler.py skips the reshape for it and fails later. The grid's height and width are the sample's own; scheduler.py:100 takes them from the logits and reshapes both outputs to that grid (154-156), so the model assumes the logits' grid equals the sample's.
- Meissonic.Scheduler.SetTimesteps: `num_inference_steps` is a natural number; negative counts are not modelled.
- Meissonic.Scheduler.AddNoise: the uniform draws of `torch.rand` are an input. The generator argument only decides whether the draw is reached (`NoiseRatioFor`); its seeding is not modelled.

## Findings

| source | as written | input that shows it | evidently intended | confidence | as-written member | corrected member |
|---|---|---|---|---|---|---|
| modules/meissonic/scheduler.py:174-179 | add_noise reads `generator[0].device` and passes `generator` to `torch.rand`. None (the default) and a single generator cannot be indexed, and `torch.rand` takes no list as its generator, so no call reaches the draw. | `add_noise(sample, 1)` after `set_timesteps(2)` with the linear schedule: the ratio is 0.5, then `generator[0]` on None raises TypeError. | Use the generator itself: its device when given, the sample's otherwise, as `torch.rand` expects one generator or None. | high; not executed | Meissonic.AddNoiseAsWritten, Meissonic.AddNoiseAsWrittenNeverDraws, Meissonic.DefaultGeneratorCounterexample | Meissonic.Scheduler.AddNoise, Meissonic.NoiseRatioFor |
