/**
 * `Attention.forward`, shape and cache parts: splitting the projections into heads, deriving
 * `start_pos` from the past cache, rotating at that position, concatenating the past cache in
 * front of the new keys and values, keeping the result when `use_cache` is set, and merging the
 * heads back after attention. The projections and the attention kernel are uninterpreted.
 */
module Attention {
  import opened Wrappers
  import opened Tensors
  import opened Config
  import opened CausalMask
  import Rope

  /** One position's vector of `d_model` (or projection-width) entries. */
  type Vec = seq<Scalar>

  /** A layer cache `(keys, values)`, each `[position][kv head][channel]`. */
  datatype LayerCache = LayerCache(keys: seq<Rope.Heads>, values: seq<Rope.Heads>)

  /** The four bias-free linear maps of one attention layer, applied to one position. */
  datatype Weights = Weights(qProj: Vec -> Vec, kProj: Vec -> Vec, vProj: Vec -> Vec, oProj: Vec -> Vec)

  /**
   * The numeric kernels: the complex multiply of a channel pair by a table entry, and
   * `scaled_dot_product_attention(q, k, v, attn_mask, enable_gqa)` on head-major blocks.
   */
  datatype Kernels = Kernels(
    rotate: (Complex<Scalar>, Rope.Angle) -> Complex<Scalar>,
    sdpa: (seq<seq<Vec>>, seq<seq<Vec>>, seq<seq<Vec>>, Option<Mask>, bool) -> seq<seq<Vec>>
  )

  /** `q_proj`, `k_proj`, `v_proj` produce `n_heads * head_dim` and `n_kv_heads * head_dim` entries. */
  ghost predicate ProjShapes(w: Weights, c: ModelConfig)
    requires c.nHeads > 0
  {
    forall v :: |w.qProj(v)| == c.nHeads * HeadDim(c)
      && |w.kProj(v)| == c.nKvHeads * HeadDim(c)
      && |w.vProj(v)| == c.nKvHeads * HeadDim(c)
  }

  /** Attention output has the queries' head and position axes. */
  ghost predicate SdpaKeepsShape(k: Kernels)
  {
    forall q, kk, vv, m, g :: |k.sdpa(q, kk, vv, m, g)| == |q|
      && forall h :: 0 <= h < |q| ==> |k.sdpa(q, kk, vv, m, g)[h]| == |q[h]|
  }

  /** `view(bsz, seq_len, heads, head_dim)` of every position's projection. */
  function SplitHeads(xs: seq<Vec>, heads: nat, width: nat): (r: seq<Rope.Heads>)
    requires forall t :: 0 <= t < |xs| ==> |xs[t]| == heads * width
    ensures |r| == |xs| && Rope.IsTokens(r, heads, width)
  {
    seq(|xs|, t requires 0 <= t < |xs| => Chunk(xs[t], heads, width))
  }

  /** `transpose(1, 2).contiguous().view(bsz, seq_len, -1)` of a head-major block. */
  function MergeHeads(headMajor: seq<seq<Vec>>, seqLen: nat): (r: seq<Vec>)
    requires Rect(headMajor, seqLen)
    ensures |r| == seqLen
  {
    var tokenMajor := Transpose(headMajor, seqLen);
    seq(seqLen, t requires 0 <= t < seqLen => Flatten(tokenMajor[t]))
  }

  /** Merging after transposing to head-major undoes the split: the two reshapes are inverse. */
  lemma MergeUndoesSplit(xs: seq<Vec>, heads: nat, width: nat)
    requires forall t :: 0 <= t < |xs| ==> |xs[t]| == heads * width
    ensures var split := SplitHeads(xs, heads, width);
      MergeHeads(Transpose(split, heads), |xs|) == xs
  {
    var split := SplitHeads(xs, heads, width);
    var hm := Transpose(split, heads);
    TransposeTwice(split, heads);
    var m := MergeHeads(hm, |xs|);
    forall t | 0 <= t < |xs| ensures m[t] == xs[t] {
      FlattenChunk(xs[t], heads, width);
    }
  }

  /** `past_key_values[0].shape[1] if past_key_values is not None else 0` */
  function StartPos(past: Option<LayerCache>): nat
  {
    if past.None? then 0 else |past.value.keys|
  }

  function PastKeys(past: Option<LayerCache>): seq<Rope.Heads>
  {
    if past.None? then [] else past.value.keys
  }

  function PastValues(past: Option<LayerCache>): seq<Rope.Heads>
  {
    if past.None? then [] else past.value.values
  }

  /** `torch.cat` along the sequence axis needs the cached rows to have the new rows' head shape. */
  predicate CatCompatible(past: Option<LayerCache>, kvHeads: nat, width: nat)
  {
    past.Some? ==> Rope.IsTokens(past.value.keys, kvHeads, width) && Rope.IsTokens(past.value.values, kvHeads, width)
  }

  /** `q_proj(x).view(bsz, seq_len, n_heads, head_dim)` */
  function QueryHeads(c: ModelConfig, w: Weights, x: seq<Vec>): (r: seq<Rope.Heads>)
    requires c.nHeads > 0 && ProjShapes(w, c)
    ensures |r| == |x| && Rope.IsTokens(r, c.nHeads, HeadDim(c))
  {
    SplitHeads(seq(|x|, t requires 0 <= t < |x| => w.qProj(x[t])), c.nHeads, HeadDim(c))
  }

  /** `k_proj(x).view(bsz, seq_len, n_kv_heads, head_dim)`: row t is `k_proj(x[t])` split into heads. */
  function KeyHeads(c: ModelConfig, w: Weights, x: seq<Vec>): (r: seq<Rope.Heads>)
    requires c.nHeads > 0 && ProjShapes(w, c)
    ensures |r| == |x| && Rope.IsTokens(r, c.nKvHeads, HeadDim(c))
    ensures forall t :: 0 <= t < |x| ==> r[t] == Chunk(w.kProj(x[t]), c.nKvHeads, HeadDim(c))
  {
    SplitHeads(seq(|x|, t requires 0 <= t < |x| => w.kProj(x[t])), c.nKvHeads, HeadDim(c))
  }

  /** `v_proj(x).view(bsz, seq_len, n_kv_heads, head_dim)`: row t is `v_proj(x[t])` split into heads. */
  function ValueHeads(c: ModelConfig, w: Weights, x: seq<Vec>): (r: seq<Rope.Heads>)
    requires c.nHeads > 0 && ProjShapes(w, c)
    ensures |r| == |x| && Rope.IsTokens(r, c.nKvHeads, HeadDim(c))
    ensures forall t :: 0 <= t < |x| ==> r[t] == Chunk(w.vProj(x[t]), c.nKvHeads, HeadDim(c))
  {
    SplitHeads(seq(|x|, t requires 0 <= t < |x| => w.vProj(x[t])), c.nKvHeads, HeadDim(c))
  }

  /**
   * The layer's output rows and, when `use_cache` is set, its new cache. `cache == None` stands
   * for the `(None, None)` pair the source returns without `use_cache`.
   */
  datatype AttnOut = AttnOut(output: seq<Vec>, cache: Option<LayerCache>)

  /** The cache `c` is the past cache with `n` rows appended to keys and to values. */
  ghost predicate Extends(c: LayerCache, past: Option<LayerCache>, n: nat)
  {
    && |c.keys| == |PastKeys(past)| + n && c.keys[..|PastKeys(past)|] == PastKeys(past)
    && |c.values| == |PastValues(past)| + n && c.values[..|PastValues(past)|] == PastValues(past)
  }

  ghost predicate Ready(c: ModelConfig, w: Weights, k: Kernels, table: Rope.FreqTable)
  {
    Supported(c) && Rope.WellFormed(table) && ProjShapes(w, c) && SdpaKeepsShape(k)
  }

  /**
   * The mask broadcasts against the `(rows, cols)` attention scores: it has `rows` rows or one,
   * and each row has `cols` entries or one.
   */
  predicate MaskBroadcasts(mask: Option<Mask>, rows: nat, cols: nat)
  {
    mask.Some? ==>
      && (|mask.value| == rows || |mask.value| == 1)
      && forall i :: 0 <= i < |mask.value| ==> |mask.value[i]| == cols || |mask.value[i]| == 1
  }

  /**
   * The shape checks of `scaled_dot_product_attention` on `queries` new rows against `keys`
   * key rows and `values` value rows: keys and values have the same length, and the mask
   * broadcasts against the scores.
   */
  predicate SdpaAccepts(mask: Option<Mask>, queries: nat, keys: nat, values: nat)
  {
    keys == values && MaskBroadcasts(mask, queries, keys)
  }

  /**
   * `Attention.forward(x, mask, past_key_values, use_cache)` on the normalised rows `x`.
   * `None` is a raised error: RoPE's reshape of an empty tensor or its shape assertion, a `torch.cat` of mismatched shapes, or
   * the shape checks of scaled dot-product attention.
   */
  function Forward(c: ModelConfig, w: Weights, k: Kernels, table: Rope.FreqTable, x: seq<Vec>,
                   mask: Option<Mask>, past: Option<LayerCache>, useCache: bool): (r: Option<AttnOut>)
    requires Ready(c, w, k, table)
    ensures r.Some? ==> |r.value.output| == |x|
    ensures r.Some? ==> (r.value.cache.Some? <==> useCache)
    ensures r.Some? && useCache ==> Extends(r.value.cache.value, past, |x|)
    ensures r.Some? ==> CatCompatible(past, c.nKvHeads, HeadDim(c))
    ensures r.Some? ==> |PastKeys(past)| == |PastValues(past)| && MaskBroadcasts(mask, |x|, StartPos(past) + |x|)
  {
    var hd := HeadDim(c);
    var queries := QueryHeads(c, w, x);
    var keys := KeyHeads(c, w, x);
    var values := ValueHeads(c, w, x);
    var startPos := StartPos(past);
    match Rope.Forward(table, queries, keys, startPos, 1, c.nHeads, c.nKvHeads, hd, k.rotate)
    case None => None
    case Some(rotated) =>
      if !CatCompatible(past, c.nKvHeads, hd) then None
      else if !SdpaAccepts(mask, |x|, |PastKeys(past)| + |rotated.keys|, |PastValues(past)| + |values|) then None
      else
        var allKeys := PastKeys(past) + rotated.keys;
        var allValues := PastValues(past) + values;
        var cache := if useCache then Some(LayerCache(allKeys, allValues)) else None;
        var attn := k.sdpa(Transpose(rotated.queries, c.nHeads), Transpose(allKeys, c.nKvHeads),
                           Transpose(allValues, c.nKvHeads), mask, EnableGqa(c));
        var merged := MergeHeads(attn, |x|);
        Some(AttnOut(seq(|x|, t requires 0 <= t < |x| => w.oProj(merged[t])), cache))
  }

  /**
   * With the table built for this config, the layer fails exactly when there are no new rows
   * or no channels per head (RoPE's reshape has no elements to infer its `-1` from), the RoPE window
   * `[start_pos, start_pos + seq_len)` runs past `max_seq_len`, the past cache cannot be
   * concatenated, the past keys and values differ in length, or the mask does not broadcast
   * against `seq_len` queries and `start_pos + seq_len` keys; `start_pos` is the past keys' length.
   */
  lemma ForwardSucceeds(c: ModelConfig, w: Weights, k: Kernels, x: seq<Vec>,
                        mask: Option<Mask>, past: Option<LayerCache>, useCache: bool)
    requires Supported(c) && ProjShapes(w, c) && SdpaKeepsShape(k)
    ensures var table := Rope.SetupFreqsCis(c.maxSeqLen, c.theta, HeadDim(c));
      Forward(c, w, k, table, x, mask, past, useCache).Some? <==>
        && 0 < |x| && HeadDim(c) > 0 && StartPos(past) + |x| <= c.maxSeqLen
        && CatCompatible(past, c.nKvHeads, HeadDim(c))
        && |PastKeys(past)| == |PastValues(past)|
        && MaskBroadcasts(mask, |x|, StartPos(past) + |x|)
  {
    Rope.ForwardPositions(c.maxSeqLen, c.theta, QueryHeads(c, w, x), KeyHeads(c, w, x), StartPos(past),
                          1, c.nHeads, c.nKvHeads, HeadDim(c), k.rotate);
  }

  /** The kept cache is the past cache followed by the rotated new keys and the raw new values. */
  lemma CacheIs(c: ModelConfig, w: Weights, k: Kernels, table: Rope.FreqTable, x: seq<Vec>,
                mask: Option<Mask>, past: Option<LayerCache>)
    requires Ready(c, w, k, table)
    ensures var r := Forward(c, w, k, table, x, mask, past, true);
      var rot := Rope.Forward(table, QueryHeads(c, w, x), KeyHeads(c, w, x), StartPos(past),
                              1, c.nHeads, c.nKvHeads, HeadDim(c), k.rotate);
      r.Some? ==> (rot.Some?
        && r.value.cache == Some(LayerCache(PastKeys(past) + rot.value.keys, PastValues(past) + ValueHeads(c, w, x))))
  {
  }

  /** The new value rows are the raw `v_proj` heads: values are never rotated. */
  lemma NewValueRows(c: ModelConfig, w: Weights, k: Kernels, table: Rope.FreqTable, x: seq<Vec>,
                     mask: Option<Mask>, past: Option<LayerCache>)
    requires Ready(c, w, k, table)
    ensures var r := Forward(c, w, k, table, x, mask, past, true);
      r.Some? ==> forall t :: 0 <= t < |x| ==>
        r.value.cache.value.values[|PastValues(past)| + t] == Chunk(w.vProj(x[t]), c.nKvHeads, HeadDim(c))
  {
    CacheIs(c, w, k, table, x, mask, past);
    var values := ValueHeads(c, w, x);
    var r := Forward(c, w, k, table, x, mask, past, true);
    if r.Some? {
      forall t | 0 <= t < |x|
        ensures r.value.cache.value.values[|PastValues(past)| + t] == values[t]
      {
      }
    }
  }

  /**
   * The new key rows are the `k_proj` heads rotated at their absolute positions: new token t
   * at `start_pos + t`, where `start_pos` is the past cache's length.
   */
  lemma NewKeyRows(c: ModelConfig, w: Weights, k: Kernels, x: seq<Vec>,
                   mask: Option<Mask>, past: Option<LayerCache>)
    requires Supported(c) && ProjShapes(w, c) && SdpaKeepsShape(k)
    ensures var table := Rope.SetupFreqsCis(c.maxSeqLen, c.theta, HeadDim(c));
      var r := Forward(c, w, k, table, x, mask, past, true);
      r.Some? ==> KeysRotated(r.value.cache.value.keys, StartPos(past), KeyHeads(c, w, x),
                              c.theta, HeadDim(c), c.nKvHeads, k.rotate)
  {
    var table := Rope.SetupFreqsCis(c.maxSeqLen, c.theta, HeadDim(c));
    var hd := HeadDim(c);
    var keys := KeyHeads(c, w, x);
    var p := StartPos(past);
    Rope.ForwardPositions(c.maxSeqLen, c.theta, QueryHeads(c, w, x), keys, p, 1, c.nHeads, c.nKvHeads, hd, k.rotate);
    CacheIs(c, w, k, table, x, mask, past);
    var r := Forward(c, w, k, table, x, mask, past, true);
    if r.Some? {
      var rotated := Rope.Forward(table, QueryHeads(c, w, x), keys, p, 1, c.nHeads, c.nKvHeads, hd, k.rotate).value;
      AppendedRotated(r.value.cache.value.keys, PastKeys(past), rotated.keys, keys, p, c.theta, hd, c.nKvHeads, k.rotate);
    }
  }

  /**
   * Rows `p ..` of `all` hold the raw key heads `raw`, each head of width `width` and rotated
   * by the angles of its absolute position.
   */
  ghost predicate KeysRotated(all: seq<Rope.Heads>, p: nat, raw: seq<Rope.Heads>, theta: real, width: nat,
                              heads: nat, rotate: (Complex<Scalar>, Rope.Angle) -> Complex<Scalar>)
  {
    && p + |raw| <= |all|
    && forall t, h :: 0 <= t < |raw| && 0 <= h < heads ==>
         h < |all[p + t]| && h < |raw[t]| && |all[p + t][h]| == width && |raw[t][h]| == width
         && Rope.RotatedAt(all[p + t][h], raw[t][h], theta, width, p + t, rotate)
  }

  lemma AppendedRotated(all: seq<Rope.Heads>, pastKeys: seq<Rope.Heads>, rotKeys: seq<Rope.Heads>,
                        raw: seq<Rope.Heads>, p: nat, theta: real, width: nat, heads: nat,
                        rotate: (Complex<Scalar>, Rope.Angle) -> Complex<Scalar>)
    requires all == pastKeys + rotKeys && p == |pastKeys|
    requires |rotKeys| == |raw| && Rope.IsTokens(rotKeys, heads, width) && Rope.IsTokens(raw, heads, width)
    requires forall t, h :: 0 <= t < |raw| && 0 <= h < heads ==>
      Rope.RotatedAt(rotKeys[t][h], raw[t][h], theta, width, p + t, rotate)
    ensures KeysRotated(all, p, raw, theta, width, heads, rotate)
  {
    forall t, h | 0 <= t < |raw| && 0 <= h < heads
      ensures h < |all[p + t]| && h < |raw[t]| && |all[p + t][h]| == width && |raw[t][h]| == width
      ensures Rope.RotatedAt(all[p + t][h], raw[t][h], theta, width, p + t, rotate)
    {
      assert all[p + t] == rotKeys[t];
    }
  }
}
