/**
 * Rotary position embedding, index and shape parts: the frequency table built by
 * `_setup_freqs_cis`, its slicing and shape assertion in `get_freqs_cis`, the channel pairing
 * and rotation of `forward`, and the class-level table `RoPE._freqs_cis` that only the first
 * constructor in a process writes.
 */
module Rope {
  import opened Wrappers
  import opened Tensors
  import opened Config

  /**
   * One table entry, kept symbolic: it stands for `polar(1, pos * theta^(-2 * pair / dim))`,
   * the unit complex number for absolute position `pos` and channel pair `pair`.
   */
  datatype Angle = Angle(theta: real, dim: nat, pos: nat, pair: nat)

  /** A `(rows, cols)` tensor of angles; `cols` is kept so that an empty slice keeps its width. */
  datatype FreqTable = FreqTable(rows: seq<seq<Angle>>, cols: nat)

  ghost predicate WellFormed(t: FreqTable)
  {
    Rect(t.rows, t.cols)
  }

  /**
   * `_setup_freqs_cis(seq_len, theta, dim)`: one row per position `0 .. seq_len - 1`, one column
   * per pair index `0 .. dim // 2 - 1` (`arange(0, dim, 2)[: dim // 2]`).
   */
  function SetupFreqsCis(seqLen: nat, theta: real, dim: nat): (t: FreqTable)
    ensures WellFormed(t) && |t.rows| == seqLen && t.cols == dim / 2
    ensures forall p, k :: 0 <= p < seqLen && 0 <= k < dim / 2 ==> t.rows[p][k] == Angle(theta, dim, p, k)
  {
    FreqTable(seq(seqLen, p requires 0 <= p < seqLen => seq(dim / 2, k requires 0 <= k < dim / 2 => Angle(theta, dim, p, k))), dim / 2)
  }

  /** Python's `s[lo:hi]` for non-negative bounds: both bounds are clamped to the length. */
  function PySlice<T>(s: seq<T>, lo: nat, hi: nat): (r: seq<T>)
    ensures |r| == if hi <= |s| && lo <= hi then hi - lo else if lo <= hi && lo <= |s| then |s| - lo else 0
    ensures forall i :: 0 <= i < |r| ==> r[i] == s[lo + i]
  {
    var a := if lo <= |s| then lo else |s|;
    var b := if hi <= |s| then hi else |s|;
    if a <= b then s[a..b] else []
  }

  /**
   * `get_freqs_cis(input_shape, start_pos, end_pos)`: rows `[start_pos, end_pos)` of the table;
   * `None` is an `AssertionError` (fewer than two axes, or a slice whose shape is not
   * `(input_shape[1], input_shape[-1])`). The final `view` only adds broadcast axes and is
   * not represented.
   */
  function GetFreqsCis(table: FreqTable, inputShape: seq<nat>, startPos: nat, endPos: nat): Option<seq<seq<Angle>>>
  {
    var slice := PySlice(table.rows, startPos, endPos);
    if |inputShape| < 2 then None
    else if |slice| == inputShape[1] && table.cols == inputShape[|inputShape| - 1] then Some(slice)
    else None
  }

  /**
   * For the table of `max_seq_len` positions the assertion passes exactly when the window
   * `[start_pos, start_pos + seq_len)` lies inside the table (or is empty) and the last axis is
   * `dim // 2`; row r of the slice is then the row of absolute position `start_pos + r`.
   */
  lemma {:induction false} GetFreqsCisWindow(maxSeqLen: nat, theta: real, dim: nat,
                                            bsz: nat, seqLen: nat, heads: nat, pairs: nat, startPos: nat)
    ensures var r := GetFreqsCis(SetupFreqsCis(maxSeqLen, theta, dim), [bsz, seqLen, heads, pairs], startPos, startPos + seqLen);
      && (r.Some? <==> (seqLen == 0 || startPos + seqLen <= maxSeqLen) && pairs == dim / 2)
      && (r.Some? ==> |r.value| == seqLen && Rect(r.value, dim / 2)
                      && forall i, k :: 0 <= i < seqLen && 0 <= k < dim / 2 ==>
                           r.value[i][k] == Angle(theta, dim, startPos + i, k))
  {
    var t := SetupFreqsCis(maxSeqLen, theta, dim);
    var slice := PySlice(t.rows, startPos, startPos + seqLen);
    if seqLen > 0 && startPos + seqLen > maxSeqLen {
      assert |slice| < seqLen;
    }
  }

  /** What `RoPE.__init__` keeps on the instance: `theta` and `dim = d_model // n_heads`. */
  datatype RoPE = RoPE(theta: real, dim: nat)

  /** Token-major activations of one attention input: `[position][head][channel]`. */
  type Heads = seq<seq<Scalar>>

  predicate IsTokens(x: seq<Heads>, heads: nat, width: nat)
  {
    forall t :: 0 <= t < |x| ==> |x[t]| == heads && Rect(x[t], width)
  }

  /** Rotate one head: pair its channels, multiply pair k by entry k, unpair. */
  function RotateHead(v: seq<Scalar>, freqs: seq<Angle>, rotate: (Complex<Scalar>, Angle) -> Complex<Scalar>): (r: seq<Scalar>)
    requires |v| % 2 == 0 && |freqs| == |v| / 2
    ensures |r| == |v|
    ensures forall k :: 0 <= k < |v| / 2 ==>
      Complex(r[2 * k], r[2 * k + 1]) == rotate(Complex(v[2 * k], v[2 * k + 1]), freqs[k])
  {
    var p := Pairs(v);
    var rotated := seq(|p|, k requires 0 <= k < |p| => rotate(p[k], freqs[k]));
    Unpairs(rotated)
  }

  /** Rotate every head of every position; position t uses row t of the sliced table. */
  function RotateTokens(x: seq<Heads>, freqs: seq<seq<Angle>>, heads: nat, width: nat,
                        rotate: (Complex<Scalar>, Angle) -> Complex<Scalar>): (r: seq<Heads>)
    requires IsTokens(x, heads, width) && width % 2 == 0
    requires |freqs| == |x| && Rect(freqs, width / 2)
    ensures |r| == |x| && IsTokens(r, heads, width)
  {
    seq(|x|, t requires 0 <= t < |x| =>
      seq(heads, h requires 0 <= h < heads => RotateHead(x[t][h], freqs[t], rotate)))
  }

  datatype Rotated = Rotated(queries: seq<Heads>, keys: seq<Heads>)

  /**
   * `reshape(*shape[:-1], -1, 2)` can infer its `-1` only for a tensor with elements: queries of
   * shape `(bsz, seq_len, n_heads, head_dim)` and keys with `n_kv_heads` heads.
   */
  predicate ReshapeInfers(bsz: nat, seqLen: nat, nHeads: nat, nKvHeads: nat, headDim: nat)
  {
    bsz > 0 && seqLen > 0 && nHeads > 0 && nKvHeads > 0 && headDim > 0
  }

  /**
   * `RoPE.forward(queries, keys, start_pos)`: the slice covers `[start_pos, start_pos +
   * seq_len)` where `seq_len` is the queries' length; keys use the same slice (broadcast over
   * their fewer heads). `None` is the error of the reshape on a tensor with no elements, or the
   * assertion failure of `get_freqs_cis`.
   */
  function Forward(table: FreqTable, queries: seq<Heads>, keys: seq<Heads>, startPos: nat,
                   bsz: nat, nHeads: nat, nKvHeads: nat, headDim: nat,
                   rotate: (Complex<Scalar>, Angle) -> Complex<Scalar>): (r: Option<Rotated>)
    requires WellFormed(table) && headDim % 2 == 0
    requires IsTokens(queries, nHeads, headDim) && IsTokens(keys, nKvHeads, headDim)
    requires |keys| == |queries|
    ensures r.Some? ==> |r.value.queries| == |queries| && IsTokens(r.value.queries, nHeads, headDim)
    ensures r.Some? ==> |r.value.keys| == |keys| && IsTokens(r.value.keys, nKvHeads, headDim)
  {
    var inputShape := [bsz, |queries|, nHeads, headDim / 2];
    if !ReshapeInfers(bsz, |queries|, nHeads, nKvHeads, headDim) then None
    else match GetFreqsCis(table, inputShape, startPos, startPos + |queries|)
    case None => None
    case Some(freqs) =>
      assert Rect(freqs, headDim / 2) by {
        forall i | 0 <= i < |freqs| ensures |freqs[i]| == headDim / 2 {
          assert freqs[i] == table.rows[startPos + i];
        }
      }
      Some(Rotated(RotateTokens(queries, freqs, nHeads, headDim, rotate),
                   RotateTokens(keys, freqs, nKvHeads, headDim, rotate)))
  }

  /** The rotation of one position's head: pair k is rotated by the angle of `pos`, pair k. */
  ghost predicate RotatedAt(out: seq<Scalar>, inp: seq<Scalar>, theta: real, dim: nat, pos: nat,
                            rotate: (Complex<Scalar>, Angle) -> Complex<Scalar>)
    requires |out| == |inp|
  {
    forall k :: 0 <= k < |inp| / 2 ==>
      Complex(out[2 * k], out[2 * k + 1]) == rotate(Complex(inp[2 * k], inp[2 * k + 1]), Angle(theta, dim, pos, k))
  }

  /**
   * With the table of `max_seq_len` positions for `head_dim`, the rotation succeeds exactly when
   * the reshape has elements to work on and the window fits, and then local token t of queries and keys is rotated with absolute
   * position `start_pos + t`.
   */
  lemma ForwardPositions(maxSeqLen: nat, theta: real, queries: seq<Heads>, keys: seq<Heads>, startPos: nat,
                         bsz: nat, nHeads: nat, nKvHeads: nat, headDim: nat,
                         rotate: (Complex<Scalar>, Angle) -> Complex<Scalar>)
    requires headDim % 2 == 0
    requires IsTokens(queries, nHeads, headDim) && IsTokens(keys, nKvHeads, headDim)
    requires |keys| == |queries|
    ensures var r := Forward(SetupFreqsCis(maxSeqLen, theta, headDim), queries, keys, startPos,
                             bsz, nHeads, nKvHeads, headDim, rotate);
      && (r.Some? <==> ReshapeInfers(bsz, |queries|, nHeads, nKvHeads, headDim) && startPos + |queries| <= maxSeqLen)
      && (r.Some? ==> forall t, h :: 0 <= t < |queries| && 0 <= h < nHeads ==>
            RotatedAt(r.value.queries[t][h], queries[t][h], theta, headDim, startPos + t, rotate))
      && (r.Some? ==> forall t, h :: 0 <= t < |keys| && 0 <= h < nKvHeads ==>
            RotatedAt(r.value.keys[t][h], keys[t][h], theta, headDim, startPos + t, rotate))
  {
    var table := SetupFreqsCis(maxSeqLen, theta, headDim);
    GetFreqsCisWindow(maxSeqLen, theta, headDim, bsz, |queries|, nHeads, headDim / 2, startPos);
    var r := Forward(table, queries, keys, startPos, bsz, nHeads, nKvHeads, headDim, rotate);
    if r.Some? {
      var freqs := GetFreqsCis(table, [bsz, |queries|, nHeads, headDim / 2], startPos, startPos + |queries|).value;
      forall t, h | 0 <= t < |queries| && 0 <= h < nHeads
        ensures RotatedAt(r.value.queries[t][h], queries[t][h], theta, headDim, startPos + t, rotate)
      {
        assert r.value.queries[t][h] == RotateHead(queries[t][h], freqs[t], rotate);
      }
      forall t, h | 0 <= t < |keys| && 0 <= h < nKvHeads
        ensures RotatedAt(r.value.keys[t][h], keys[t][h], theta, headDim, startPos + t, rotate)
      {
        assert r.value.keys[t][h] == RotateHead(keys[t][h], freqs[t], rotate);
      }
    }
  }

  /**
   * Rotating a non-empty suffix at its own start position gives the suffix of rotating the whole
   * input: a cached decode step rotates new tokens exactly as a full pass would. An empty input
   * fails in the reshape.
   */
  lemma ForwardSuffix(table: FreqTable, queries: seq<Heads>, keys: seq<Heads>, startPos: nat, j: nat,
                      bsz: nat, nHeads: nat, nKvHeads: nat, headDim: nat,
                      rotate: (Complex<Scalar>, Angle) -> Complex<Scalar>)
    requires WellFormed(table) && headDim % 2 == 0
    requires IsTokens(queries, nHeads, headDim) && IsTokens(keys, nKvHeads, headDim)
    requires |keys| == |queries| && j <= |queries|
    requires startPos + |queries| <= |table.rows|
    requires table.cols == headDim / 2
    ensures var whole := Forward(table, queries, keys, startPos, bsz, nHeads, nKvHeads, headDim, rotate);
      var part := Forward(table, queries[j..], keys[j..], startPos + j, bsz, nHeads, nKvHeads, headDim, rotate);
      && (whole.Some? <==> ReshapeInfers(bsz, |queries|, nHeads, nKvHeads, headDim))
      && (part.Some? <==> ReshapeInfers(bsz, |queries| - j, nHeads, nKvHeads, headDim))
      && (part.Some? ==>
            && whole.Some?
            && part.value.queries == whole.value.queries[j..]
            && part.value.keys == whole.value.keys[j..])
  {
    var n := |queries|;
    var shapeW := [bsz, n, nHeads, headDim / 2];
    var shapeP := [bsz, n - j, nHeads, headDim / 2];
    var fw := GetFreqsCis(table, shapeW, startPos, startPos + n);
    var fp := GetFreqsCis(table, shapeP, startPos + j, startPos + j + (n - j));
    assert fw.Some? && fp.Some?;
    assert fp.value == fw.value[j..];
  }

  /**
   * The process-wide `RoPE._freqs_cis`: `None` until the first `RoPE` is constructed, then that
   * constructor's table for the rest of the process.
   */
  class FreqRegistry {
    var freqsCis: Option<FreqTable>

    /** The class attribute's initial value `None`. */
    constructor ()
      ensures freqsCis == None
    {
      freqsCis := None;
    }

    /** `RoPE(config)`: the table is written only when it is still unset. */
    method NewRoPE(config: ModelConfig) returns (rope: RoPE)
      requires config.nHeads > 0
      modifies this
      ensures rope == RoPE(config.theta, HeadDim(config))
      ensures freqsCis == if old(freqsCis).None?
        then Some(SetupFreqsCis(config.maxSeqLen, config.theta, HeadDim(config)))
        else old(freqsCis)
    {
      rope := RoPE(config.theta, HeadDim(config));
      if freqsCis.None? {
        freqsCis := Some(SetupFreqsCis(config.maxSeqLen, rope.theta, rope.dim));
      }
    }
  }

  /** The shared table after constructing one `RoPE` for each config in order. */
  function SharedAfter(init: Option<FreqTable>, configs: seq<ModelConfig>): Option<FreqTable>
    requires forall i :: 0 <= i < |configs| ==> configs[i].nHeads > 0
    decreases configs
  {
    if configs == [] then init
    else
      var c := configs[0];
      var next := if init.None? then Some(SetupFreqsCis(c.maxSeqLen, c.theta, HeadDim(c))) else init;
      SharedAfter(next, configs[1..])
  }

  /**
   * Constructing one `RoPE` per config, in order, against the one class-level table: the
   * `NewRoPE` updates amount to `SharedAfter`.
   */
  method ConstructInOrder(registry: FreqRegistry, configs: seq<ModelConfig>) returns (ropes: seq<RoPE>)
    requires forall i :: 0 <= i < |configs| ==> configs[i].nHeads > 0
    modifies registry
    ensures |ropes| == |configs|
    ensures forall i :: 0 <= i < |configs| ==> ropes[i] == RoPE(configs[i].theta, HeadDim(configs[i]))
    ensures registry.freqsCis == SharedAfter(old(registry.freqsCis), configs)
  {
    ropes := [];
    var i := 0;
    assert configs[0..] == configs;
    while i < |configs|
      invariant 0 <= i <= |configs|
      invariant |ropes| == i
      invariant forall j :: 0 <= j < i ==> ropes[j] == RoPE(configs[j].theta, HeadDim(configs[j]))
      invariant SharedAfter(registry.freqsCis, configs[i..]) == SharedAfter(old(registry.freqsCis), configs)
    {
      assert configs[i..][0] == configs[i] && configs[i..][1..] == configs[i + 1..];
      var rope := registry.NewRoPE(configs[i]);
      ropes := ropes + [rope];
      i := i + 1;
    }
  }

  /** First writer wins: whatever later configs say, the table is the first one's. */
  lemma {:induction false} FirstWriterWins(init: Option<FreqTable>, configs: seq<ModelConfig>)
    requires forall i :: 0 <= i < |configs| ==> configs[i].nHeads > 0
    ensures init.Some? ==> SharedAfter(init, configs) == init
    ensures init.None? && configs != [] ==>
      SharedAfter(init, configs) == Some(SetupFreqsCis(configs[0].maxSeqLen, configs[0].theta, HeadDim(configs[0])))
    ensures init.None? && configs == [] ==> SharedAfter(init, configs) == None
    decreases configs
  {
    if configs != [] {
      var c := configs[0];
      var next := if init.None? then Some(SetupFreqsCis(c.maxSeqLen, c.theta, HeadDim(c))) else init;
      FirstWriterWins(next, configs[1..]);
    }
  }

  /**
   * The hazard this leaves: a second model built with a longer `max_seq_len` keeps the first
   * model's short table, so a window its own config allows fails the shape assertion there.
   */
  lemma LaterLongerModelFails(first: ModelConfig, second: ModelConfig, queries: seq<Heads>, keys: seq<Heads>,
                              rotate: (Complex<Scalar>, Angle) -> Complex<Scalar>)
    requires first.nHeads > 0 && second.nHeads > 0 && HeadDim(first) == HeadDim(second)
    requires HeadDim(second) % 2 == 0
    requires IsTokens(queries, second.nHeads, HeadDim(second)) && IsTokens(keys, second.nKvHeads, HeadDim(second))
    requires |keys| == |queries|
    requires first.maxSeqLen < |queries| <= second.maxSeqLen
    ensures SharedAfter(None, [first, second]) == Some(SetupFreqsCis(first.maxSeqLen, first.theta, HeadDim(first)))
    ensures Forward(SetupFreqsCis(first.maxSeqLen, first.theta, HeadDim(first)), queries, keys, 0, 1,
                    second.nHeads, second.nKvHeads, HeadDim(second), rotate).None?
  {
    FirstWriterWins(None, [first, second]);
    ForwardPositions(first.maxSeqLen, first.theta, queries, keys, 0, 1, second.nHeads, second.nKvHeads,
                     HeadDim(second), rotate);
  }
}
