# Pico: shape, cache and step-schedule model

Pico is a small decoder-only transformer. It comes with a HuggingFace wrapper and a
Lightning Fabric training script. This project models the two discrete parts of it and proves
their behaviour.

**The model's bookkeeping (`src/model/pico.py`):**

- the causal mask `Pico.forward` builds;
- the `start_pos` each layer derives from its key/value cache;
- the concatenation of the past cache with the new keys and values in `Attention.forward`;
- the threading of one cache per layer through the stack, and the record `PicoHF.forward` returns;
- the RoPE frequency table: its construction, slicing and shape assertion, the
  adjacent-channel pairing, and the class-level table that only the first `RoPE` writes;
- the head reshapes and the grouped-query ratio;
- `PicoHFConfig.from_dict` / `from_dataclass`;
- the `"pico."` renaming of `convert_to_hf_model`.

Tensor elements and table entries are abstract values. Every numeric kernel is a function
parameter: projections, norms, SwiGLU, the residual add, attention, and the complex multiply.

**The training loop's schedule (`train.py`):**

- gradient-accumulation gating;
- `gradient_step` counting;
- the interval loss accumulators and their reset after logging;
- periodic checkpoints, and the final-checkpoint and stop rule.

Every fabric, optimizer, scheduler, checkpoint and logging call is an abstract `Event`.

Modules, in dependency order:

- `Wrappers`: the `Option` datatype.
- `Tensors`: row-major view/flatten, transpose, complex pairing.
- `Config`: the model hyperparameters and the floor-divided quantities derived from them.
- `CausalMask`.
- `Rope`.
- `Attention`.
- `Pico`: block, stack and HF forward.
- `HfConfig`: config merge, state-dict prefixing and the parameter names the conversion loads.
- `Training`: the schedule as specification functions, plus a `Trainer` class whose methods
  update the loop's counters in place.

The imperative parts of the source are methods, each proved against a specification function:

- the layer loop of `Pico.forward`: `Pico.RunLayerLoop`, `Pico.Forward`;
- the `setattr` loop of `from_dict`: `HfConfig.FromDict`;
- the first-writer update of `RoPE._freqs_cis`: `Rope.FreqRegistry.NewRoPE`, repeated by `Rope.ConstructInOrder`;
- the training loop: `Training.Trainer`.

## Model

| member | source | states |
|---|---|---|
| Tensors.Chunk | src/model/pico.py:290-292 | a row-major `view(rows, width)` has `rows` rows of `width` entries each |
| Tensors.ChunkAt | src/model/pico.py:290-292 | entry (i, j) of the view is entry `i * width + j` of the flat vector |
| Tensors.FlattenLength | src/model/pico.py:332 | flattening `n` rows of width `w` gives `n * w` entries |
| Tensors.FlattenChunk | src/model/pico.py:290-292 | flattening a view gives the original vector back |
| Tensors.ChunkFlatten | src/model/pico.py:332 | viewing a flattened rectangular block with its own width gives the block back |
| Tensors.Transpose | src/model/pico.py:313-315 | the transpose swaps the two leading axes: output (j, i) is input (i, j), with the shape swapped |
| Tensors.TransposeTwice | src/model/pico.py:313-315 | transposing twice is the identity |
| Tensors.Pairs | src/model/pico.py:180-183 | channels (2k, 2k+1) become complex number k, and there are half as many |
| Tensors.Unpairs | src/model/pico.py:199-200 | complex number k becomes channels (2k, 2k+1), and there are twice as many |
| Tensors.UnpairsPairs | src/model/pico.py:180-200 | unpairing (`view_as_real`, `flatten(3)`) undoes pairing (`view_as_complex`) |
| Tensors.PairsUnpairs | src/model/pico.py:180-200 | pairing undoes unpairing |
| Config.GqaRatio | src/model/pico.py:251 | with an integral ratio, `n_rep * n_kv_heads == n_heads` and `n_rep >= 1`; `enable_gqa` (line 329) is set iff there are fewer key/value heads than query heads |
| Config.RatioWithoutDivisibility | src/model/pico.py:251 | without divisibility the floor division loses heads (3 query heads over 2 key/value heads give `n_rep == 1`) |
| CausalMask.Build | src/model/pico.py:501-502 | no mask exactly when `seq_len <= 1`, with or without a cache |
| CausalMask.BuildPattern | src/model/pico.py:505-516 | for `seq_len > 1`: `seq_len` rows and `start_pos + seq_len` columns (start 0 without a cache); entry (i, j) is -inf iff `j > start_pos + i` |
| CausalMask.CachedColumnsOpen | src/model/pico.py:512-516 | every cached column is open to every new token |
| CausalMask.CountZeroPrefix | src/model/pico.py:509 | a row that is open exactly on its first `k` columns opens `k` columns |
| CausalMask.VisibleKeys | src/model/pico.py:505-516 | new token i sees exactly `start_pos + i + 1` keys |
| Rope.SetupFreqsCis | src/model/pico.py:146-149 | the table has one row per position below `seq_len` and `dim // 2` columns, and entry (p, k) is the angle of position p and pair k (`torch.outer` of the positions and the pair frequencies) |
| Rope.PySlice | src/model/pico.py:159 | Python slicing clamps both bounds to the length; element i of the slice is element `lo + i` |
| Rope.GetFreqsCis | src/model/pico.py:150-166 | the slice of the table and the assertion of line 162, with no contract of its own: `GetFreqsCisWindow` states when it passes and which rows it returns |
| Rope.GetFreqsCisWindow | src/model/pico.py:159-166 | the assertion passes iff the window `[start_pos, start_pos + seq_len)` fits in `max_seq_len` (or is empty) and the last axis is `dim // 2`; slice row r is then absolute position `start_pos + r` |
| Rope.RotateHead | src/model/pico.py:180-200 | pair k of the output is pair k of the input rotated by table entry k |
| Rope.RotateTokens | src/model/pico.py:199-200 | rotation keeps the position, head and channel shape |
| Rope.Forward | src/model/pico.py:180-201 | fails when the `-1` reshape has no elements (no tokens, heads or channels) or the shape assertion fails; otherwise rotated queries and keys keep their shapes |
| Rope.ForwardPositions | src/model/pico.py:180-191 | with the config's table, rotation succeeds iff there is at least one token, head and channel and the window fits; local token t of queries and keys is rotated at absolute position `start_pos + t` |
| Rope.ForwardSuffix | src/model/pico.py:180-191 | rotating a non-empty suffix at its own start position gives that suffix of the full rotation; the empty suffix fails in the reshape, as the whole input does exactly when it is empty |
| Rope.FreqRegistry.constructor | src/model/pico.py:115 | the class-level table starts unset |
| Rope.FreqRegistry.NewRoPE | src/model/pico.py:124-133 | the instance keeps `theta` and `d_model // n_heads`; the shared table is written only if it was unset |
| Rope.ConstructInOrder | src/model/pico.py:124-133 | constructing one `RoPE` per config in order leaves the class-level table at `SharedAfter` of its old value and the configs, and each instance keeps its config's theta and head width |
| Rope.SharedAfter | src/model/pico.py:124-133 | the shared table after one construction per config, with no contract of its own: `ConstructInOrder` shows the `NewRoPE` updates compute it, `FirstWriterWins` that it is the first writer's table |
| Rope.FirstWriterWins | src/model/pico.py:130-131 | after any sequence of constructions the table is the first one's, whatever later configs say |
| Rope.LaterLongerModelFails | src/model/pico.py:130-162 | a later model with a longer `max_seq_len` keeps the short table, and a window its own config allows fails the assertion of line 162 |
| Attention.SplitHeads | src/model/pico.py:290-292 | each position's projection is split into `heads` rows of `head_dim` entries |
| Attention.MergeHeads | src/model/pico.py:332 | merging gives one row per position |
| Attention.MergeUndoesSplit | src/model/pico.py:290-332 | transposing the split heads (lines 290-292, 313) and merging them back (line 332) gives the projections back |
| Attention.QueryHeads | src/model/pico.py:284-290 | queries have `n_heads` heads of `head_dim` entries at every position |
| Attention.KeyHeads | src/model/pico.py:285-291 | row t is `k_proj(x[t])` split into `n_kv_heads` heads |
| Attention.ValueHeads | src/model/pico.py:286-292 | row t is `v_proj(x[t])` split into `n_kv_heads` heads |
| Attention.Forward | src/model/pico.py:282-335 | on success: one output row per input row; a cache exactly with `use_cache`, the past cache extended by `seq_len` rows with the past rows unchanged; the past keys and values are equally long and the mask broadcasts to `seq_len` queries by `start_pos + seq_len` keys |
| Attention.ForwardSucceeds | src/model/pico.py:297-330 | the layer fails exactly when there are no new rows or `head_dim` is 0 (RoPE's reshape of an empty tensor, line 181), the RoPE window from `start_pos` (the past keys' length) overruns `max_seq_len`, the past cache has the wrong head shape for `torch.cat`, the past keys and values differ in length (SDPA needs as many values as keys), or the mask does not broadcast to `seq_len` queries by `start_pos + seq_len` keys |
| Attention.CacheIs | src/model/pico.py:302-311 | the kept cache is the past keys followed by the rotated new keys, and the past values followed by the new values |
| Attention.NewValueRows | src/model/pico.py:292-304 | new cached value row t is exactly the `v_proj` heads of token t (values are not rotated) |
| Attention.NewKeyRows | src/model/pico.py:297-303 | new cached key row `start_pos + t` is the `k_proj` heads of token t rotated at position `start_pos + t` |
| Attention.AppendedRotated | src/model/pico.py:303 | appending rotated rows after the past keys puts row t at index `past_len + t` |
| Pico.BlockForward | src/model/pico.py:413-423 | the block fails iff its attention does, keeps the row count, and returns the attention's cache unchanged; on success SDPA accepted the shapes of its mask, keys and values |
| Pico.LayerStepAccepts | src/model/pico.py:528-530 | every block of the stack that succeeds had SDPA accept its mask, keys and values |
| Pico.LayerStepBehaves | src/model/pico.py:528-530 | every block of the stack keeps the row count and extends its own past cache by the new rows |
| Pico.RunLayers | src/model/pico.py:520-533 | the layer loop as a recursion, with no contract of its own: `RunLayersLengths`, `RunLayersExtend`, `RunLayersCacheAt` and `RunLayersAccepted` state its properties, and `RunLayerLoop` is proved equal to it |
| Pico.RunLayersLengths | src/model/pico.py:520-533 | the layer loop keeps the row count; with `use_cache` it collects one cache per layer, without it none; a past tuple shorter than the stack fails |
| Pico.CachesExtendCons | src/model/pico.py:532-533 | prepending a layer's cache keeps the collected caches aligned with the layers |
| Pico.RunLayersExtend | src/model/pico.py:523-533 | collected cache idx extends layer idx's own past cache by the new rows |
| Pico.RunLayersCacheAt | src/model/pico.py:523-533 | with `use_cache`, collected cache i of a successful run is the cache layer `from + i` returned on the rows the layers before it produced, with its own past entry |
| Pico.RunLayersProduced | src/model/pico.py:520-533 | with `use_cache`, every collected cache of a successful run is the one its layer returned, in layer order |
| Pico.RunLayersAccepted | src/model/pico.py:523-530 | a successful layer run gave every layer a past entry that SDPA accepted under the stack's single mask |
| Pico.BuiltMaskFixesStart | src/model/pico.py:505-516 | for `seq_len > 1` with a cache, the mask built from `start_pos` broadcasts over `keys + seq_len` keys only if `keys == start_pos`, because it has exactly `start_pos + seq_len` columns |
| Pico.AcceptedPastsAgree | src/model/pico.py:498-530 | if every layer's past was accepted under the mask built from `past[0][0]`'s length, then every layer has as many values as keys and, with more than one token, as many keys as layer 0 |
| Pico.Embed | src/model/pico.py:493 | one embedding row per token id |
| Pico.Logits | src/model/pico.py:536-537 | one logit row per position: the output norm, then the projection |
| Pico.ForwardSpec | src/model/pico.py:492-539 | one logit row per token; a model cache exactly with `use_cache`, with `n_layers` entries, entry idx extending `past[idx]` by `seq_len` rows and being the cache block idx returned on the rows blocks 0..idx-1 passed on, with `past[idx]` and the stack's mask; a pass with a past succeeds only if every layer's past has as many values as keys and, with more than one token, the `start_pos` keys of layer 0 |
| Pico.ResumeStep | src/model/pico.py:528-533 | one loop turn moves one layer's cache from the remaining run into the tuple |
| Pico.RunLayerLoop | src/model/pico.py:520-533 | the imperative loop (rebinding `h`, appending to the tuple) computes the recursive layer run |
| Pico.Forward | src/model/pico.py:492-539 | the method equals the specification; its cache has `n_layers` entries, each extending its past cache and each the cache its block returned on the previous blocks' output, and a successful pass had consistent past shapes |
| Pico.SharedStartPos | src/model/pico.py:498 | with equal cache lengths, every layer's `start_pos` (line 297) is the stack's; the mask's width (line 514) equals each extended cache's key count |
| Pico.HfForward | src/model/pico.py:616-625 | the wrapper fails iff `Pico` does, returns the same logits, and includes `past_key_values` (the model cache) iff `use_cache` |
| Pico.ConstructRoPEs | src/model/pico.py:450-452 | `n_layers` RoPEs (one per block, line 258) with the config's theta and head width; the shared table is filled by the first if it was unset, and is otherwise unchanged |
| HfConfig.UnusedKwargs | src/model/pico.py:580-583 | a key is unused iff it is a keyword argument other than `return_unused_kwargs` that is not an attribute of the finished config; its value is the keyword's |
| HfConfig.PicoHFConfig.constructor | src/model/pico.py:573 | the attributes are what the base constructor makes of the keywords |
| HfConfig.PicoHFConfig.SetAttr | src/model/pico.py:578 | `setattr` overrides exactly one attribute |
| HfConfig.FromDict | src/model/pico.py:569-587 | attributes are the base constructor's, overridden by every `config_dict` entry; the unused map is returned iff `return_unused_kwargs` is truthy |
| HfConfig.ConfigDictKeysUsed | src/model/pico.py:577-583 | no `config_dict` key and no base attribute is ever reported unused |
| HfConfig.AsDict | src/model/pico.py:591 | `asdict` yields exactly the config's field names |
| HfConfig.AttrReadAfterWrite | src/model/pico.py:577-578 | after `setattr`, a non-negative integer reads back as a count, an integer or a real reads back as a real, any other value reads as missing, and every other attribute reads as before |
| HfConfig.ReadIgnoresOtherAttrs | src/model/pico.py:577-578 | setting an attribute the model code does not read leaves the model config a `Pico` sees unchanged |
| HfConfig.ReadModelConfig | src/model/pico.py:449-456 | the model config a `Pico` reads from the attributes, with no contract of its own: `FromDataclassRoundTrip` reads back the dataclass, `ReadIgnoresOtherAttrs` shows other attributes do not matter |
| HfConfig.FromDataclassRoundTrip | src/model/pico.py:589-591 | whatever the base constructor sets, the merged attributes carry every field of the dataclass, and reading them back gives the dataclass |
| HfConfig.FromDataclass | src/model/pico.py:589-591 | the resulting config reads back exactly the given model config |
| HfConfig.Prefixed | src/model/pico.py:467 | every parameter appears under `prefix + name` with its value, and every key of the result is such a name |
| HfConfig.PrefixRoundTrip | src/model/pico.py:467 | stripping the prefix again (the `pico` submodule of line 602) gives the original state dict back |
| HfConfig.PrefixedKeys | src/model/pico.py:467 | the renamed state dict's names are the original names with the prefix in front |
| HfConfig.PrefixAllInjective | src/model/pico.py:467 | two name sets with the same prefixed names are equal |
| HfConfig.LoadStrict | src/model/pico.py:467 | a strict `load_state_dict` succeeds iff the names are exactly the target's, and then loads the given values |
| HfConfig.ConvertKeepsParameters | src/model/pico.py:458-469 | the `PicoHF` built from `from_dataclass(c)` expects the parameter names of a `Pico` with `c.n_layers` blocks under `pico.` (its own embedding, norms, projections and nine parameters per block); the strict load of the renamed state dict succeeds iff the state dict has those names, and the wrapped model then holds exactly the original parameters |
| HfConfig.ConvertToHfModel | src/model/pico.py:458-469 | the converted model's config reads back as the original config, and the wrapped model's parameters are the original ones under `pico.` |
| Training.Average | train.py:134-137 | the average is finite iff there were finite steps, and then `avg * steps == loss_sum` |
| Training.MultipleMod | train.py:109 | the repeated-subtraction test agrees with `% k == 0` |
| Training.Optimize | train.py:129-173 | the code after the `continue`, with no contract of its own: `ClosingStep` shows a window-closing micro-batch is the synced backward pass followed by it, `StepShape` lists its events, and `Trainer.Step` is proved equal to it |
| Training.MicroStep | train.py:104-173 | one loop body, with no contract of its own: `AccumulationGating`, `StepCounting`, `IntervalAccounting`, `CheckpointRule` and `StopRule` state its properties, and `Trainer.MicroBatch` is proved equal to it |
| Training.StepShape | train.py:122-173 | an unfolding lemma used by the gating and checkpoint proofs: a window-closing micro-batch emits one synced backward pass, logging, the four optimizer calls, then the checkpoint and eval tail |
| Training.ClosingStep | train.py:109-173 | an unfolding lemma used by `Trainer.MicroBatch`: on a window boundary the body runs the synced backward pass, then the optimizer part on the tallied counters |
| Training.AccumulationGating | train.py:109-153 | each optimizer call happens exactly once on micro-batches with `(batch_idx + 1) % G == 0`, and never on the others |
| Training.StepCounting | train.py:104-155 | every micro-batch advances `batch_idx` by one; `gradient_step` grows by one exactly on a window boundary; other micro-batches only do an unsynced backward pass and never break |
| Training.IntervalAccounting | train.py:116-141 | each micro-batch adds to exactly one of `interval_steps` (with its loss) and `interval_inf_or_nan_count`; a logging step reports the interval at the pre-increment step and zeroes all three accumulators; otherwise the count grows by one |
| Training.StepTailSaves | train.py:159-172 | after a step, checkpoint k is saved once iff k is the new step and a multiple of `save_every` or `training_steps` |
| Training.CheckpointRule | train.py:155-172 | a micro-batch saves checkpoint k exactly when it steps to k and k is a multiple of `save_every` or `training_steps`, and then exactly once |
| Training.StopRule | train.py:168-173 | the loop breaks iff an optimizer step reaches `training_steps`, and then `gradient_step == training_steps` |
| Training.Run | train.py:104-173 | the `for` loop over the micro-batches up to the `break`, with no contract of its own: `RunCounts`, `CheckpointsOnce` and `NoStopPastLimit` state its properties, and `Trainer.Loop` is proved equal to it |
| Training.RunCounts | train.py:104-173 | over a run: `batch_idx` advances by the micro-batches consumed and `gradient_step` by the windows they close; all data is consumed unless the loop breaks, which happens only at `training_steps` on a window boundary |
| Training.NoStopPastLimit | train.py:168 | a resumed run starting at or past `training_steps` never breaks and consumes all its data |
| Training.CheckpointsOnce | train.py:155-172 | over a run, checkpoint k is saved exactly once if the run steps to k and k is a multiple of `save_every` or `training_steps`, and otherwise never |
| Training.BoundariesFromZero | train.py:104-109 | from index 0, `n` micro-batches close `n / G` windows |
| Training.Begin | train.py:78-98 | both counters start at the loaded step (0 when fresh); a fresh run first saves the config and checkpoint 0; "training from" is logged iff start < `training_steps` |
| Training.ReachesLimit | train.py:155-173 | below `training_steps`, a run that closes enough windows to reach it breaks |
| Training.FreshRunSteps | train.py:84-155 | a fresh run that does not break performs `n / G` gradient steps over `n` micro-batches |
| Training.FreshRunStops | train.py:84-173 | a fresh run over at least `training_steps * G` micro-batches breaks after exactly that many, at `training_steps` |
| Training.Trainer.constructor | train.py:78-102 | the trainer's counters and first events are those of the start-up lines |
| Training.Trainer.TallyLoss | train.py:104-120 | the in-place updates equal the tally of one loss |
| Training.Trainer.LogBlock | train.py:129-146 | the logging block emits the log event and resets the accumulators exactly as specified |
| Training.Trainer.TailBlock | train.py:159-173 | the checkpoint, eval and stop tests emit the specified tail; the result is the break condition |
| Training.Trainer.Step | train.py:129-173 | the code after the `continue` performs the specified optimizer step on the trainer's state |
| Training.Trainer.MicroBatch | train.py:105-173 | one pass of the loop body updates the counters and events as the one-micro-batch specification says, and reports the `break` |
| Training.Trainer.Accumulate | train.py:109-123 | inside a window: one unsynced backward pass, the tally, then `continue` |
| Training.Trainer.CloseWindow | train.py:109-173 | on a window boundary: one synced backward pass, the tally, then the optimizer step |
| Training.Trainer.Turn | train.py:104-173 | one turn of the loop consumes one micro-batch of the remaining specified run |
| Training.Trainer.Loop | train.py:104-173 | the `for` loop with its `break` ends in the state and events of the specified run |
| Training.Trainer.Train | train.py:104-176 | the loop, then the final evaluation |
| Training.LoopStep | train.py:104-173 | one loop turn either breaks with the run's result or leaves the rest of the run to do |

## Left out

- Floating point: RMSNorm, SwiGLU, the linear projections, embedding values, residual adds,
  scaled dot-product attention, the polar values of the RoPE table and the complex rotation
  multiply, the `.float()` / `type_as` casts, cross-entropy and the NaN/Inf test. Each kernel is
  a function parameter and each table entry a symbolic angle; the loss and its finiteness are
  inputs.
- Training.Average: the average uses exact reals rather than float32 tensors.
- The batch axis: one sequence is modelled, and `bsz` only enters the RoPE shape assertion (as 1).
- The GQA head mapping and broadcast inside attention are library code. Only `n_rep` and the
  `enable_gqa` flag are modelled.
- Attention.Forward: requires `n_heads % n_kv_heads == 0` and an even `head_dim`
  (`Config.Supported`). The source floor-divides without checking these;
  `Config.RatioWithoutDivisibility` shows what is lost without them.
- Attention.Forward: the `torch.cat` failure is modelled only as a shape mismatch in the head
  axes of the past cache. Device and dtype mismatches are not modelled.
- Attention.Forward: a mask is a list of rows, and SDPA's broadcast test is applied to its row
  count and to each row's width. A ragged mask cannot occur as a tensor; the masks
  `Pico.forward` builds are rectangular.
- Pico.ForwardSpec: token ids are natural numbers. An id at or past `vocab_size` or an empty
  past tuple is modelled as an error.
- Device placement (`fabric.to_device`, `.to(device)`) and the SDPA backend choice do not change
  the bookkeeping. They are left out.
- The concurrent initialisation race on `RoPE._freqs_cis`: construction is sequential, first
  writer wins.
- HuggingFace internals are parameters or left out: the `PretrainedConfig` constructor is a
  function from keywords to attributes, and the names the class defines are a set. The
  `PreTrainedModel` base and auto-class registration are left out. `load_state_dict` is modelled
  as a strict name match on parameter names; tensor shapes are not compared. `PicoHF`'s
  parameters are those its single submodule `pico` registers. The names follow PyTorch's
  `named_parameters` convention: attribute names joined by `.`, and list indices in decimal.
- HfConfig.ReadModelConfig: every size field must be a non-negative integer and `norm_eps` and
  `position_emb_theta` an integer or a real; anything else reads as missing. The source is
  laxer: a negative `n_layers` gives an empty `range` and so a model with no layers, a `bool`
  counts as an integer, and a negative size only fails inside `torch`. These cases are outside
  the model.
- `src/config/model_config.py` is not part of this model. The ten model-config fields are those
  the model code reads.
- Python's `hasattr` is modelled as "an instance attribute or a class-level name". Properties
  computed by the base class count as class-level names.
- Fabric, optimizer, scheduler, data loading, checkpoint bodies and logging appear only as
  events. This covers `setup`, `backward`, `no_backward_sync`, `clip_gradients`, `log`,
  `save_checkpoint` / `load_checkpoint` and the data iterator. A resumed run's loaded step is
  an input, and the micro-batches are the input sequence of losses.
- `fabric.all_reduce` is taken over a single process: the logged sums are the local ones.
- The schedule parameters are plain integers. `train.py` reads `training_steps`,
  `logging.log_every_n_steps` and `checkpointing.save_every_n_steps`, none of which the
  training config dataclass defines.
- The model call in the training loop: `Pico.forward` returns the pair `(logits,
  cached_key_values)`, and `train.py:106` calls `.transpose(1, 2)` on that pair. A tuple has no
  `transpose`, so by its text the first micro-batch raises `AttributeError`. The model takes the
  micro-batch losses as inputs and does not connect the two parts.
- A layer's cache `None` stands for the `(None, None)` pair `Attention.forward` returns without
  `use_cache` (`src/model/pico.py:310-311`), which `PicoBlock.forward` passes through unchanged.
- The intervals (G, `log_every`, `save_every`, `eval_every`) are required to be positive; zero
  raises `ZeroDivisionError` in the source.
