/**
 * `PicoBlock`, `Pico` and `PicoHF`: the decoder block's cache pass-through, the stack's
 * `start_pos`, mask and per-layer cache threading, and the HuggingFace wrapper's choice of
 * output record. Embedding, norms, SwiGLU, residual adds and the output projection are
 * uninterpreted functions on one position's vector.
 */
module Pico {
  import opened Wrappers
  import opened Tensors
  import opened Config
  import opened CausalMask
  import Rope
  import Attention

  type Vec = Attention.Vec
  type LayerCache = Attention.LayerCache

  /** One `PicoBlock`: its two RMSNorms, its attention weights and its SwiGLU. */
  datatype Block = Block(attentionNorm: Vec -> Vec, attention: Attention.Weights,
                         swigluNorm: Vec -> Vec, swiglu: Vec -> Vec)

  /** The kernels shared by every layer, plus the elementwise residual add. */
  datatype Ops = Ops(kernels: Attention.Kernels, add: (Vec, Vec) -> Vec)

  datatype BlockOut = BlockOut(output: seq<Vec>, cache: Option<LayerCache>)

  ghost predicate BlockReady(c: ModelConfig, b: Block, ops: Ops, table: Rope.FreqTable)
  {
    Attention.Ready(c, b.attention, ops.kernels, table)
  }

  /** The normalised input the block hands to its attention. */
  function AttentionInput(b: Block, x: seq<Vec>): seq<Vec>
  {
    seq(|x|, t requires 0 <= t < |x| => b.attentionNorm(x[t]))
  }

  /**
   * `PicoBlock.forward`: `h = x + attention(norm(x))`, `out = h + swiglu(norm(h))`; the
   * attention's cache is returned untouched.
   */
  function BlockForward(c: ModelConfig, b: Block, ops: Ops, table: Rope.FreqTable, x: seq<Vec>,
                        mask: Option<Mask>, past: Option<LayerCache>, useCache: bool): (r: Option<BlockOut>)
    requires BlockReady(c, b, ops, table)
    ensures var a := Attention.Forward(c, b.attention, ops.kernels, table, AttentionInput(b, x), mask, past, useCache);
      && (r.Some? <==> a.Some?)
      && (r.Some? ==> |r.value.output| == |x| && r.value.cache == a.value.cache)
    ensures r.Some? ==> (r.value.cache.Some? <==> useCache)
    ensures r.Some? && useCache ==> Attention.Extends(r.value.cache.value, past, |x|)
    ensures r.Some? ==> Attention.SdpaAccepts(mask, |x|, Attention.StartPos(past) + |x|, |Attention.PastValues(past)| + |x|)
  {
    match Attention.Forward(c, b.attention, ops.kernels, table, AttentionInput(b, x), mask, past, useCache)
    case None => None
    case Some(a) =>
      var h := seq(|x|, t requires 0 <= t < |x| => ops.add(x[t], a.output[t]));
      var out := seq(|x|, t requires 0 <= t < |x| => ops.add(h[t], b.swiglu(b.swigluNorm(h[t]))));
      Some(BlockOut(out, a.cache))
  }

  /** The whole `Pico` module: embedding table, layers, final norm, de-embedding projection. */
  datatype PicoModel = PicoModel(embedding: nat -> Vec, layers: seq<Block>,
                                 outputNorm: Vec -> Vec, deEmbedding: Vec -> Vec)

  ghost predicate ModelReady(c: ModelConfig, m: PicoModel, ops: Ops, table: Rope.FreqTable)
  {
    forall i :: 0 <= i < |m.layers| ==> BlockReady(c, m.layers[i], ops, table)
  }

  /** `past_key_values[idx] if past_key_values is not None else None` (in range). */
  function LayerPast(past: Option<seq<LayerCache>>, idx: nat): Option<LayerCache>
    requires past.Some? ==> idx < |past.value|
  {
    if past.None? then None else Some(past.value[idx])
  }

  /** One call `layer(h, mask, past_key_values=..., use_cache)` of layer `idx` in the stack. */
  type LayerFn = (nat, seq<Vec>, Option<LayerCache>) --> Option<BlockOut>

  /** The layers of a model with the mask and `use_cache` of one forward pass fixed. */
  function LayerStep(c: ModelConfig, layers: seq<Block>, ops: Ops, table: Rope.FreqTable,
                     mask: Option<Mask>, useCache: bool): LayerFn
    requires forall i :: 0 <= i < |layers| ==> BlockReady(c, layers[i], ops, table)
  {
    (idx: nat, x: seq<Vec>, lp: Option<LayerCache>) requires idx < |layers| =>
      BlockForward(c, layers[idx], ops, table, x, mask, lp, useCache)
  }

  /**
   * What the stack relies on from each of its `n` layers: it accepts any rows and past cache,
   * keeps the number of rows, returns a cache exactly with `use_cache`, and that cache extends
   * the layer's past cache by the new rows.
   */
  ghost predicate Behaves(step: LayerFn, n: nat, useCache: bool)
  {
    forall idx: nat, x: seq<Vec>, lp: Option<LayerCache> :: idx < n ==>
      && step.requires(idx, x, lp)
      && (step(idx, x, lp).Some? ==>
            && |step(idx, x, lp).value.output| == |x|
            && (step(idx, x, lp).value.cache.Some? <==> useCache)
            && (useCache ==> Attention.Extends(step(idx, x, lp).value.cache.value, lp, |x|)))
  }

  /** Every `PicoBlock` of a model behaves as the stack relies on. */
  lemma LayerStepBehaves(c: ModelConfig, layers: seq<Block>, ops: Ops, table: Rope.FreqTable,
                         mask: Option<Mask>, useCache: bool)
    requires forall i :: 0 <= i < |layers| ==> BlockReady(c, layers[i], ops, table)
    ensures Behaves(LayerStep(c, layers, ops, table, mask, useCache), |layers|, useCache)
  {
    var step := LayerStep(c, layers, ops, table, mask, useCache);
    forall idx: nat, x: seq<Vec>, lp: Option<LayerCache> | idx < |layers|
      ensures step.requires(idx, x, lp)
      ensures step(idx, x, lp) == BlockForward(c, layers[idx], ops, table, x, mask, lp, useCache)
    {
    }
  }

  /**
   * What the stack learns from a layer that succeeds: its past keys and values have the same
   * length, and the mask broadcasts against the new rows and all of its keys.
   */
  ghost predicate Accepts(step: LayerFn, n: nat, mask: Option<Mask>)
  {
    forall idx: nat, x: seq<Vec>, lp: Option<LayerCache> :: idx < n && step.requires(idx, x, lp) ==>
      step(idx, x, lp).Some? ==>
        Attention.SdpaAccepts(mask, |x|, Attention.StartPos(lp) + |x|, |Attention.PastValues(lp)| + |x|)
  }

  /** Every `PicoBlock` of a model succeeds only on shapes scaled dot-product attention accepts. */
  lemma LayerStepAccepts(c: ModelConfig, layers: seq<Block>, ops: Ops, table: Rope.FreqTable,
                         mask: Option<Mask>, useCache: bool)
    requires forall i :: 0 <= i < |layers| ==> BlockReady(c, layers[i], ops, table)
    ensures Accepts(LayerStep(c, layers, ops, table, mask, useCache), |layers|, mask)
  {
    var step := LayerStep(c, layers, ops, table, mask, useCache);
    forall idx: nat, x: seq<Vec>, lp: Option<LayerCache> | idx < |layers| && step.requires(idx, x, lp)
      ensures step(idx, x, lp) == BlockForward(c, layers[idx], ops, table, x, mask, lp, useCache)
    {
    }
  }

  /** The hidden rows after the layers, and the caches collected on the way. */
  datatype Threaded = Threaded(h: seq<Vec>, caches: seq<LayerCache>)

  /**
   * Layers `from ..` of the loop in `Pico.forward`: each layer gets the previous layer's rows
   * and its own past cache; with `use_cache` its new cache is collected in layer order.
   * `None` is an error inside a layer, or a past cache with too few entries (`IndexError`).
   */
  function RunLayers(n: nat, step: LayerFn, from: nat, h: seq<Vec>,
                     past: Option<seq<LayerCache>>, useCache: bool): Option<Threaded>
    requires from <= n
    requires Behaves(step, n, useCache)
    decreases n - from
  {
    if from == n then Some(Threaded(h, []))
    else if past.Some? && from >= |past.value| then None
    else
      match step(from, h, LayerPast(past, from))
      case None => None
      case Some(b) =>
        match RunLayers(n, step, from + 1, b.output, past, useCache)
        case None => None
        case Some(rest) =>
          Some(Threaded(rest.h, (if useCache then [b.cache.value] else []) + rest.caches))
  }

  /**
   * The threaded rows keep their length; with `use_cache` there is one cache per remaining
   * layer and without it none. A run that gets past a layer had a past entry for it.
   */
  lemma {:induction false} RunLayersLengths(n: nat, step: LayerFn, from: nat, h: seq<Vec>,
                                            past: Option<seq<LayerCache>>, useCache: bool)
    requires from <= n
    requires Behaves(step, n, useCache)
    ensures var r := RunLayers(n, step, from, h, past, useCache);
      && (r.Some? ==> |r.value.h| == |h|)
      && (r.Some? ==> |r.value.caches| == if useCache then n - from else 0)
      && (r.Some? && past.Some? && from < n ==> n <= |past.value|)
    decreases n - from
  {
    if from < n && !(past.Some? && from >= |past.value|) {
      var b := step(from, h, LayerPast(past, from));
      if b.Some? {
        RunLayersLengths(n, step, from + 1, b.value.output, past, useCache);
      }
    }
  }

  /** Cache `i` of `caches` is layer `from + i`'s past cache extended by `rows` new rows. */
  ghost predicate CachesExtend(caches: seq<LayerCache>, past: Option<seq<LayerCache>>, from: nat, rows: nat)
  {
    forall i :: 0 <= i < |caches| ==>
      (past.Some? ==> from + i < |past.value|) &&
      Attention.Extends(caches[i], LayerPast(past, from + i), rows)
  }

  /** Collecting one more layer's cache in front keeps the caches in step with the layers. */
  lemma CachesExtendCons(head: LayerCache, rest: seq<LayerCache>, past: Option<seq<LayerCache>>, from: nat, rows: nat)
    requires past.Some? ==> from < |past.value|
    requires Attention.Extends(head, LayerPast(past, from), rows)
    requires CachesExtend(rest, past, from + 1, rows)
    ensures CachesExtend([head] + rest, past, from, rows)
  {
    var all := [head] + rest;
    forall i | 0 <= i < |all|
      ensures (past.Some? ==> from + i < |past.value|)
      ensures Attention.Extends(all[i], LayerPast(past, from + i), rows)
    {
      if i == 0 {
        assert all[0] == head;
      } else {
        var j := i - 1;
        assert all[i] == rest[j];
        assert from + 1 + j == from + i;
        assert (past.Some? ==> from + 1 + j < |past.value|)
          && Attention.Extends(rest[j], LayerPast(past, from + 1 + j), rows);
      }
    }
  }

  /** With `use_cache`, the cache collected for layer `from + i` extends that layer's own past cache by the new rows. */
  lemma {:induction false} RunLayersExtend(n: nat, step: LayerFn, from: nat, h: seq<Vec>,
                                           past: Option<seq<LayerCache>>, useCache: bool)
    requires from <= n
    requires Behaves(step, n, useCache)
    ensures var r := RunLayers(n, step, from, h, past, useCache);
      r.Some? && useCache ==> CachesExtend(r.value.caches, past, from, |h|)
    decreases n - from
  {
    if useCache && from < n && !(past.Some? && from >= |past.value|) {
      var b := step(from, h, LayerPast(past, from));
      if b.Some? {
        var rest := RunLayers(n, step, from + 1, b.value.output, past, useCache);
        RunLayersExtend(n, step, from + 1, b.value.output, past, useCache);
        if rest.Some? {
          CachesExtendCons(b.value.cache.value, rest.value.caches, past, from, |h|);
        }
      }
    }
  }

  /**
   * Layer `from + i`, run on the rows that layers `from .. from + i - 1` passed on and on its own
   * past entry, succeeds and returns `cache`.
   */
  ghost predicate ProducedAt(step: LayerFn, from: nat, h: seq<Vec>, past: Option<seq<LayerCache>>,
                             i: nat, cache: LayerCache)
  {
    && Behaves(step, from + i, true) && Behaves(step, from + i + 1, true)
    && (past.Some? ==> from + i < |past.value|)
    && var before := RunLayers(from + i, step, from, h, past, true);
       && before.Some?
       && var out := step(from + i, before.value.h, LayerPast(past, from + i));
          out.Some? && out.value.cache == Some(cache)
  }

  /** Cache `i` of `caches` is the one layer `from + i` returned in the run from `h`. */
  ghost predicate CachesProduced(step: LayerFn, from: nat, h: seq<Vec>, past: Option<seq<LayerCache>>,
                                 caches: seq<LayerCache>)
  {
    forall i :: 0 <= i < |caches| ==> ProducedAt(step, from, h, past, i, caches[i])
  }

  /**
   * With `use_cache`, collected cache `i` of a successful run is what layer `from + i` returned
   * on the output of the layers before it.
   */
  lemma {:induction false} RunLayersCacheAt(n: nat, step: LayerFn, from: nat, h: seq<Vec>,
                                            past: Option<seq<LayerCache>>, i: nat)
    requires from <= n && Behaves(step, n, true)
    requires RunLayers(n, step, from, h, past, true).Some?
    requires i < n - from
    ensures |RunLayers(n, step, from, h, past, true).value.caches| == n - from
    ensures ProducedAt(step, from, h, past, i, RunLayers(n, step, from, h, past, true).value.caches[i])
    decreases i
  {
    RunLayersLengths(n, step, from, h, past, true);
    var b := step(from, h, LayerPast(past, from));
    if i == 0 {
      assert RunLayers(from, step, from, h, past, true) == Some(Threaded(h, []));
    } else {
      RunLayersCacheAt(n, step, from + 1, b.value.output, past, i - 1);
      assert from + 1 + (i - 1) == from + i;
    }
  }

  /** With `use_cache`, every cache of a successful run is the one its layer returned. */
  lemma RunLayersProduced(n: nat, step: LayerFn, h: seq<Vec>, past: Option<seq<LayerCache>>, useCache: bool)
    requires Behaves(step, n, useCache)
    ensures var r := RunLayers(n, step, 0, h, past, useCache);
      r.Some? && useCache ==> CachesProduced(step, 0, h, past, r.value.caches)
  {
    var r := RunLayers(n, step, 0, h, past, useCache);
    if r.Some? && useCache {
      RunLayersLengths(n, step, 0, h, past, useCache);
      forall i | 0 <= i < |r.value.caches|
        ensures ProducedAt(step, 0, h, past, i, r.value.caches[i])
      {
        RunLayersCacheAt(n, step, 0, h, past, i);
      }
    }
  }

  /** Every layer `from .. n - 1` had a past entry, and attention accepted its shapes on `rows` new rows. */
  ghost predicate PastsAccepted(past: Option<seq<LayerCache>>, from: nat, n: nat, rows: nat, mask: Option<Mask>)
  {
    forall i :: from <= i < n ==>
      (past.Some? ==> i < |past.value|) &&
      Attention.SdpaAccepts(mask, rows, Attention.StartPos(LayerPast(past, i)) + rows,
                            |Attention.PastValues(LayerPast(past, i))| + rows)
  }

  /** A run that gets through the layers got through attention in every one of them. */
  lemma {:induction false} RunLayersAccepted(n: nat, step: LayerFn, from: nat, h: seq<Vec>,
                                             past: Option<seq<LayerCache>>, useCache: bool, mask: Option<Mask>)
    requires from <= n
    requires Behaves(step, n, useCache) && Accepts(step, n, mask)
    ensures RunLayers(n, step, from, h, past, useCache).Some? ==> PastsAccepted(past, from, n, |h|, mask)
    decreases n - from
  {
    if from < n && !(past.Some? && from >= |past.value|) {
      var b := step(from, h, LayerPast(past, from));
      if b.Some? {
        RunLayersAccepted(n, step, from + 1, b.value.output, past, useCache, mask);
        RunLayersLengths(n, step, from + 1, b.value.output, past, useCache);
      }
    }
  }

  /**
   * A mask built for two or more tokens over a cache of `start_pos` rows broadcasts only
   * against a layer whose own cache has `start_pos` rows.
   */
  lemma BuiltMaskFixesStart(seqLen: nat, startPos: nat, keys: nat)
    requires seqLen > 1
    requires Attention.MaskBroadcasts(CausalMask.Build(seqLen, true, startPos), seqLen, keys + seqLen)
    ensures keys == startPos
  {
    CausalMask.BuildPattern(seqLen, true, startPos);
    assert |CausalMask.Build(seqLen, true, startPos).value[0]| == startPos + seqLen;
  }

  /**
   * The past caches of the first `n` layers as a successful pass finds them: each has as many
   * values as keys, and with two or more new tokens each has the stack's `start_pos` keys.
   */
  ghost predicate PastShapesAgree(past: seq<LayerCache>, n: nat, seqLen: nat)
  {
    && |past| > 0
    && forall idx :: 0 <= idx < n ==>
         && idx < |past|
         && |past[idx].values| == |past[idx].keys|
         && (seqLen > 1 ==> |past[idx].keys| == |past[0].keys|)
  }

  lemma AcceptedPastsAgree(past: seq<LayerCache>, n: nat, seqLen: nat)
    requires 0 < |past| && n <= |past|
    requires PastsAccepted(Some(past), 0, n, seqLen, CausalMask.Build(seqLen, true, |past[0].keys|))
    ensures PastShapesAgree(past, n, seqLen)
  {
    var mask := CausalMask.Build(seqLen, true, |past[0].keys|);
    forall idx | 0 <= idx < n
      ensures idx < |past| && |past[idx].values| == |past[idx].keys|
      ensures seqLen > 1 ==> |past[idx].keys| == |past[0].keys|
    {
      var lp := LayerPast(Some(past), idx);
      assert idx < |past| && Attention.SdpaAccepts(mask, seqLen, Attention.StartPos(lp) + seqLen,
                                                   |Attention.PastValues(lp)| + seqLen);
      if seqLen > 1 {
        BuiltMaskFixesStart(seqLen, |past[0].keys|, |past[idx].keys|);
      }
    }
  }

  /** `start_pos = 0 if past_key_values is None else past_key_values[0][0].shape[1]`. */
  function ModelStartPos(past: Option<seq<LayerCache>>): nat
    requires past.Some? ==> |past.value| > 0
  {
    if past.None? then 0 else |past.value[0].keys|
  }

  /** `embedding_proj(input_ids)`: one embedding row per token. */
  function Embed(m: PicoModel, ids: seq<nat>): (h: seq<Vec>)
    ensures |h| == |ids| && forall t :: 0 <= t < |ids| ==> h[t] == m.embedding(ids[t])
  {
    seq(|ids|, t requires 0 <= t < |ids| => m.embedding(ids[t]))
  }

  /** `de_embedding_proj(output_norm(h))`, position by position. */
  function Logits(m: PicoModel, h: seq<Vec>): (l: seq<Vec>)
    ensures |l| == |h| && forall t :: 0 <= t < |h| ==> l[t] == m.deEmbedding(m.outputNorm(h[t]))
  {
    seq(|h|, t requires 0 <= t < |h| => m.deEmbedding(m.outputNorm(h[t])))
  }

  datatype ForwardOut = ForwardOut(logits: seq<Vec>, cache: Option<seq<LayerCache>>)

  /** Every token id indexes a row of the embedding table. */
  predicate InVocab(c: ModelConfig, ids: seq<nat>)
  {
    forall t :: 0 <= t < |ids| ==> ids[t] < c.vocabSize
  }

  /**
   * `Pico.forward(input_ids, past_key_values, use_cache)` for one sequence of the batch.
   * `None` is a raised error: an id outside the vocabulary, an empty past tuple, a past tuple
   * shorter than the layer stack, or an error inside a layer.
   */
  function ForwardSpec(c: ModelConfig, m: PicoModel, ops: Ops, table: Rope.FreqTable, ids: seq<nat>,
                       past: Option<seq<LayerCache>>, useCache: bool): (r: Option<ForwardOut>)
    requires ModelReady(c, m, ops, table)
    ensures r.Some? ==> |r.value.logits| == |ids|
    ensures r.Some? ==> (r.value.cache.Some? <==> useCache)
    ensures r.Some? && past.Some? && |m.layers| > 0 ==> |m.layers| <= |past.value|
    ensures r.Some? && useCache ==> (
      && |r.value.cache.value| == |m.layers|
      && forall idx :: 0 <= idx < |m.layers| ==>
           (past.Some? ==> idx < |past.value|) &&
           Attention.Extends(r.value.cache.value[idx], LayerPast(past, idx), |ids|))
    ensures r.Some? && past.Some? ==> PastShapesAgree(past.value, |m.layers|, |ids|)
    ensures r.Some? && useCache ==>
      && (past.Some? ==> |past.value| > 0)
      && CachesProduced(LayerStep(c, m.layers, ops, table, CausalMask.Build(|ids|, past.Some?, ModelStartPos(past)), useCache),
                        0, Embed(m, ids), past, r.value.cache.value)
  {
    if !InVocab(c, ids) then None
    else if past.Some? && |past.value| == 0 then None
    else
      var mask := CausalMask.Build(|ids|, past.Some?, ModelStartPos(past));
      var step := LayerStep(c, m.layers, ops, table, mask, useCache);
      LayerStepBehaves(c, m.layers, ops, table, mask, useCache);
      RunLayersLengths(|m.layers|, step, 0, Embed(m, ids), past, useCache);
      RunLayersExtend(|m.layers|, step, 0, Embed(m, ids), past, useCache);
      LayerStepAccepts(c, m.layers, ops, table, mask, useCache);
      RunLayersAccepted(|m.layers|, step, 0, Embed(m, ids), past, useCache, mask);
      RunLayersProduced(|m.layers|, step, Embed(m, ids), past, useCache);
      match RunLayers(|m.layers|, step, 0, Embed(m, ids), past, useCache)
      case None => None
      case Some(th) =>
        var out := Some(ForwardOut(Logits(m, th.h), if useCache then Some(th.caches) else None));
        if past.Some? then AcceptedPastsAgree(past.value, |m.layers|, |ids|); out else out
  }

  /** The caches collected so far followed by those of the remaining layers. */
  ghost function Resume(acc: seq<LayerCache>, rest: Option<Threaded>): Option<Threaded>
  {
    if rest.None? then None else Some(Threaded(rest.value.h, acc + rest.value.caches))
  }

  /** One turn of the layer loop moves a layer's cache from the remaining run to the tuple. */
  lemma ResumeStep(n: nat, step: LayerFn, idx: nat, h: seq<Vec>, past: Option<seq<LayerCache>>,
                   useCache: bool, acc: seq<LayerCache>, b: BlockOut)
    requires idx < n
    requires Behaves(step, n, useCache)
    requires past.Some? ==> idx < |past.value|
    requires step(idx, h, LayerPast(past, idx)) == Some(b)
    ensures Resume(acc, RunLayers(n, step, idx, h, past, useCache))
         == Resume(acc + (if useCache then [b.cache.value] else []),
                   RunLayers(n, step, idx + 1, b.output, past, useCache))
  {
    var rest := RunLayers(n, step, idx + 1, b.output, past, useCache);
    if rest.Some? {
      var mine := if useCache then [b.cache.value] else [];
      assert acc + (mine + rest.value.caches) == (acc + mine) + rest.value.caches;
    }
  }

  /**
   * The layer loop of `Pico.forward` as the source runs it: `h` is rebound layer by layer and,
   * with `use_cache`, each layer's cache is appended to the tuple `cached_key_values`.
   */
  method RunLayerLoop(n: nat, step: LayerFn, h0: seq<Vec>, past: Option<seq<LayerCache>>, useCache: bool)
    returns (r: Option<Threaded>)
    requires Behaves(step, n, useCache)
    ensures r == RunLayers(n, step, 0, h0, past, useCache)
  {
    ghost var whole := RunLayers(n, step, 0, h0, past, useCache);
    if whole.Some? {
      assert [] + whole.value.caches == whole.value.caches;
    }
    var cached: Option<seq<LayerCache>> := if useCache then Some([]) else None;
    ghost var acc: seq<LayerCache> := [];
    var h := h0;
    var idx := 0;
    while idx < n
      invariant 0 <= idx <= n
      invariant cached == if useCache then Some(acc) else None
      invariant !useCache ==> acc == []
      invariant Resume(acc, RunLayers(n, step, idx, h, past, useCache)) == whole
      decreases n - idx
    {
      if past.Some? && idx >= |past.value| {
        return None;
      }
      var layerPast := if past.None? then None else Some(past.value[idx]);
      var out := step(idx, h, layerPast);
      if out.None? {
        return None;
      }
      ResumeStep(n, step, idx, h, past, useCache, acc, out.value);
      if useCache {
        cached := Some(cached.value + [out.value.cache.value]);
        acc := acc + [out.value.cache.value];
      } else {
        assert acc + [] == acc;
      }
      h := out.value.output;
      idx := idx + 1;
    }
    assert acc + [] == acc;
    r := Some(Threaded(h, if useCache then cached.value else []));
  }

  /** `Pico.forward`: embedding, `start_pos`, mask, the layer loop, final norm and projection. */
  method Forward(c: ModelConfig, m: PicoModel, ops: Ops, table: Rope.FreqTable, ids: seq<nat>,
                 past: Option<seq<LayerCache>>, useCache: bool) returns (r: Option<ForwardOut>)
    requires ModelReady(c, m, ops, table)
    ensures r == ForwardSpec(c, m, ops, table, ids, past, useCache)
    ensures r.Some? && past.Some? ==> PastShapesAgree(past.value, |m.layers|, |ids|)
    ensures r.Some? ==> |r.value.logits| == |ids| && (r.value.cache.Some? <==> useCache)
    ensures r.Some? && useCache ==> (
      && |r.value.cache.value| == |m.layers|
      && forall idx :: 0 <= idx < |m.layers| ==>
           (past.Some? ==> idx < |past.value|) &&
           Attention.Extends(r.value.cache.value[idx], LayerPast(past, idx), |ids|))
    ensures r.Some? && useCache ==>
      && (past.Some? ==> |past.value| > 0)
      && CachesProduced(LayerStep(c, m.layers, ops, table, CausalMask.Build(|ids|, past.Some?, ModelStartPos(past)), useCache),
                        0, Embed(m, ids), past, r.value.cache.value)
  {
    if !InVocab(c, ids) {
      return None;
    }
    if past.Some? && |past.value| == 0 {
      return None;
    }
    var startPos := if past.None? then 0 else |past.value[0].keys|;
    var mask := CausalMask.Build(|ids|, past.Some?, startPos);
    LayerStepBehaves(c, m.layers, ops, table, mask, useCache);
    var out := RunLayerLoop(|m.layers|, LayerStep(c, m.layers, ops, table, mask, useCache), Embed(m, ids), past, useCache);
    if out.None? {
      return None;
    }
    r := Some(ForwardOut(Logits(m, out.value.h), if useCache then Some(out.value.caches) else None));
  }

  /**
   * Every layer derives `start_pos` from its own cache; when the cached lengths are equal they
   * all agree with the stack's `start_pos`, and a mask built for more than one token has one
   * column per key of every layer's extended cache.
   */
  lemma SharedStartPos(past: seq<LayerCache>, idx: nat, seqLen: nat, extended: LayerCache)
    requires 0 < |past| && idx < |past|
    requires forall i :: 0 <= i < |past| ==> |past[i].keys| == |past[0].keys|
    requires Attention.Extends(extended, Some(past[idx]), seqLen)
    requires seqLen > 1
    ensures Attention.StartPos(Some(past[idx])) == ModelStartPos(Some(past))
    ensures forall i :: 0 <= i < seqLen ==>
      |CausalMask.Build(seqLen, true, ModelStartPos(Some(past))).value[i]| == |extended.keys|
  {
    CausalMask.BuildPattern(seqLen, true, ModelStartPos(Some(past)));
  }

  /** `PicoHF.forward`'s two output records. */
  datatype HfOutput =
    | CausalLMOutputWithPast(logits: seq<Vec>, pastKeyValues: seq<LayerCache>)
    | CausalLMOutput(logits: seq<Vec>)

  /**
   * `PicoHF.forward`: the same logits as the wrapped `Pico`, with `past_key_values` present in
   * the record exactly when `use_cache` is set.
   */
  function HfForward(c: ModelConfig, m: PicoModel, ops: Ops, table: Rope.FreqTable, ids: seq<nat>,
                     past: Option<seq<LayerCache>>, useCache: bool): (r: Option<HfOutput>)
    requires ModelReady(c, m, ops, table)
    ensures var p := ForwardSpec(c, m, ops, table, ids, past, useCache);
      && (r.Some? <==> p.Some?)
      && (r.Some? ==> r.value.logits == p.value.logits)
      && (r.Some? ==> (r.value.CausalLMOutputWithPast? <==> useCache))
      && (r.Some? && useCache ==> r.value.pastKeyValues == p.value.cache.value)
  {
    match ForwardSpec(c, m, ops, table, ids, past, useCache)
    case None => None
    case Some(out) =>
      if useCache then Some(CausalLMOutputWithPast(out.logits, out.cache.value))
      else Some(CausalLMOutput(out.logits))
  }

  /**
   * The RoPE part of `Pico(config)`: one `RoPE(config)` per layer, in order, all against the
   * shared table; only the first ever construction in the process fills it.
   */
  method ConstructRoPEs(registry: Rope.FreqRegistry, c: ModelConfig) returns (ropes: seq<Rope.RoPE>)
    requires c.nHeads > 0
    modifies registry
    ensures |ropes| == c.nLayers
    ensures forall i :: 0 <= i < |ropes| ==> ropes[i] == Rope.RoPE(c.theta, HeadDim(c))
    ensures registry.freqsCis == if old(registry.freqsCis).None? && c.nLayers > 0
      then Some(Rope.SetupFreqsCis(c.maxSeqLen, c.theta, HeadDim(c)))
      else old(registry.freqsCis)
  {
    ropes := [];
    var i := 0;
    while i < c.nLayers
      invariant 0 <= i <= c.nLayers
      invariant |ropes| == i
      invariant forall j :: 0 <= j < i ==> ropes[j] == Rope.RoPE(c.theta, HeadDim(c))
      invariant registry.freqsCis == if old(registry.freqsCis).None? && i > 0
        then Some(Rope.SetupFreqsCis(c.maxSeqLen, c.theta, HeadDim(c)))
        else old(registry.freqsCis)
    {
      var rope := registry.NewRoPE(c);
      ropes := ropes + [rope];
      i := i + 1;
    }
  }
}
