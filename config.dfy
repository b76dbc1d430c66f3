/**
 * The hyperparameters the model reads from its configuration object (`config.d_model`,
 * `config.attention_n_heads`, ...), and the quantities `Attention.__init__` and `RoPE.__init__`
 * derive from them with floor division.
 */
module Config {

  datatype ModelConfig = ModelConfig(
    dModel: nat,
    nLayers: nat,
    nHeads: nat,
    nKvHeads: nat,
    maxSeqLen: nat,
    vocabSize: nat,
    normEps: real,
    theta: real,
    hiddenDim: nat,
    batchSize: nat
  )

  /** `d_model // attention_n_heads`: the width of one head (also RoPE's `dim`). */
  function HeadDim(c: ModelConfig): nat
    requires c.nHeads > 0
  {
    c.dModel / c.nHeads
  }

  /** `n_heads // n_kv_heads`: how many query heads share one key/value head. */
  function NRep(c: ModelConfig): nat
    requires c.nKvHeads > 0
  {
    c.nHeads / c.nKvHeads
  }

  /** The `enable_gqa` flag handed to scaled dot-product attention. */
  predicate EnableGqa(c: ModelConfig)
    requires c.nKvHeads > 0
  {
    NRep(c) > 1
  }

  /**
   * What the model silently relies on: both head counts positive (the floor divisions would
   * raise otherwise), an integral head-group ratio and an even head width (RoPE pairs channels).
   * There is no check for these at construction.
   */
  predicate Supported(c: ModelConfig)
  {
    c.nHeads > 0 && c.nKvHeads > 0 && c.nHeads % c.nKvHeads == 0 && HeadDim(c) % 2 == 0
  }

  /**
   * With an integral ratio every key/value head serves exactly `n_rep` query heads, and the
   * grouped path is switched on exactly when there are fewer key/value heads than query heads.
   */
  lemma GqaRatio(c: ModelConfig)
    requires Supported(c)
    ensures NRep(c) * c.nKvHeads == c.nHeads
    ensures NRep(c) >= 1
    ensures EnableGqa(c) <==> c.nKvHeads < c.nHeads
  {
    var r := NRep(c);
    assert r * c.nKvHeads == c.nHeads;
    if r == 1 {
      assert c.nKvHeads == c.nHeads;
    }
    if r > 1 {
      assert r * c.nKvHeads >= 2 * c.nKvHeads;
    }
  }

  /** Without the divisibility the floor division silently drops query heads from the count. */
  lemma RatioWithoutDivisibility()
    ensures var c := ModelConfig(8, 1, 3, 2, 16, 32, 0.00001, 10000.0, 32, 1);
      NRep(c) == 1 && !EnableGqa(c) && NRep(c) * c.nKvHeads != c.nHeads
  {
  }
}
