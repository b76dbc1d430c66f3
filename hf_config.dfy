/**
 * `PicoHFConfig.from_dict` / `from_dataclass` and the state-dict renaming in
 * `Pico.convert_to_hf_model`. A config object is a map from attribute names to values; the
 * `PretrainedConfig` constructor is a parameter mapping the keyword arguments to the
 * attributes it sets.
 */
module HfConfig {
  import opened Wrappers
  import Config

  /** The attribute values a config can hold. */
  datatype Value = VInt(i: int) | VReal(r: real) | VBool(b: bool) | VStr(s: string) | VNone

  /** Python truthiness of a value. */
  predicate Truthy(v: Value)
  {
    match v
    case VInt(i) => i != 0
    case VReal(r) => r != 0.0
    case VBool(b) => b
    case VStr(s) => |s| > 0
    case VNone => false
  }

  const ReturnUnusedKey: string := "return_unused_kwargs"

  /** `kwargs.pop("return_unused_kwargs", False)`, read as a flag. */
  predicate WantsUnused(kwargs: map<string, Value>)
  {
    ReturnUnusedKey in kwargs && Truthy(kwargs[ReturnUnusedKey])
  }

  /**
   * The `unused_kwargs` comprehension: the keyword arguments other than
   * `return_unused_kwargs` that the finished config has no attribute for, where an attribute
   * is an instance attribute or one of the class's own names.
   */
  function UnusedKwargs(kwargs: map<string, Value>, attrs: map<string, Value>,
                        classNames: set<string>): (r: map<string, Value>)
    ensures forall k :: k in r <==>
      k in kwargs && k != ReturnUnusedKey && k !in attrs && k !in classNames
    ensures forall k :: k in r ==> r[k] == kwargs[k]
  {
    map k | k in kwargs && k != ReturnUnusedKey && k !in attrs && k !in classNames :: kwargs[k]
  }

  /** A `PicoHFConfig` instance: its attribute dictionary and the names its class defines. */
  class PicoHFConfig {
    var attrs: map<string, Value>
    const classNames: set<string>

    /** `cls(**kwargs)`: the base constructor decides which attributes the keywords produce. */
    constructor (base: map<string, Value> -> map<string, Value>, kwargs: map<string, Value>,
                 classNames: set<string>)
      ensures attrs == base(kwargs) && this.classNames == classNames
    {
      attrs := base(kwargs);
      this.classNames := classNames;
    }

    /** `hasattr(config, key)`. */
    predicate HasAttr(key: string)
      reads this
    {
      key in attrs || key in classNames
    }

    /** `setattr(config, key, value)`. */
    method SetAttr(key: string, value: Value)
      modifies this
      ensures attrs == old(attrs)[key := value]
    {
      attrs := attrs[key := value];
    }
  }

  /**
   * `PicoHFConfig.from_dict(config_dict, **kwargs)`: construct from the keywords, then set every
   * entry of `config_dict` as an attribute, overriding what the constructor produced. The
   * unused-keyword map is returned exactly when `return_unused_kwargs` is truthy.
   */
  method FromDict(configDict: map<string, Value>, kwargs: map<string, Value>,
                  base: map<string, Value> -> map<string, Value>, classNames: set<string>)
    returns (config: PicoHFConfig, unused: Option<map<string, Value>>)
    ensures fresh(config)
    ensures config.attrs == base(kwargs) + configDict
    ensures config.classNames == classNames
    ensures forall k :: k in configDict ==> config.attrs[k] == configDict[k]
    ensures forall k :: k in base(kwargs) && k !in configDict ==> config.attrs[k] == base(kwargs)[k]
    ensures unused.Some? <==> WantsUnused(kwargs)
    ensures unused.Some? ==> unused.value == UnusedKwargs(kwargs, config.attrs, classNames)
  {
    config := new PicoHFConfig(base, kwargs, classNames);
    var remaining := configDict.Keys;
    while remaining != {}
      invariant remaining <= configDict.Keys
      invariant config.classNames == classNames
      invariant config.attrs == base(kwargs) + map k | k in configDict.Keys - remaining :: configDict[k]
      decreases remaining
    {
      var key :| key in remaining;
      config.SetAttr(key, configDict[key]);
      remaining := remaining - {key};
    }
    assert (map k | k in configDict.Keys - remaining :: configDict[k]) == configDict;
    if WantsUnused(kwargs) {
      var u := map k | k in kwargs && k != ReturnUnusedKey && !config.HasAttr(k) :: kwargs[k];
      unused := Some(u);
    } else {
      unused := None;
    }
  }

  /**
   * Whatever the base constructor does, no key of `config_dict` is ever reported unused, and
   * a keyword the base constructor stores as an attribute is not reported either.
   */
  lemma ConfigDictKeysUsed(configDict: map<string, Value>, kwargs: map<string, Value>,
                           baseAttrs: map<string, Value>, classNames: set<string>)
    ensures forall k :: k in configDict ==> k !in UnusedKwargs(kwargs, baseAttrs + configDict, classNames)
    ensures forall k :: k in baseAttrs ==> k !in UnusedKwargs(kwargs, baseAttrs + configDict, classNames)
    ensures (forall k :: k in kwargs ==> k in baseAttrs) ==>
      UnusedKwargs(kwargs, baseAttrs + configDict, classNames) == map[]
  {
    var u := UnusedKwargs(kwargs, baseAttrs + configDict, classNames);
    if forall k :: k in kwargs ==> k in baseAttrs {
      assert forall k :: k !in u;
    }
  }

  /** The attribute names of the model config the model code reads. */
  const DModelKey: string := "d_model"
  const NLayersKey: string := "n_layers"
  const NHeadsKey: string := "attention_n_heads"
  const NKvHeadsKey: string := "attention_n_kv_heads"
  const MaxSeqLenKey: string := "max_seq_len"
  const VocabSizeKey: string := "vocab_size"
  const NormEpsKey: string := "norm_eps"
  const ThetaKey: string := "position_emb_theta"
  const HiddenDimKey: string := "activation_hidden_dim"
  const BatchSizeKey: string := "batch_size"

  /** `dataclasses.asdict(model_config)`, restricted to those fields. */
  function AsDict(c: Config.ModelConfig): (d: map<string, Value>)
    ensures d.Keys == {DModelKey, NLayersKey, NHeadsKey, NKvHeadsKey, MaxSeqLenKey, VocabSizeKey,
                       NormEpsKey, ThetaKey, HiddenDimKey, BatchSizeKey}
  {
    map[DModelKey := VInt(c.dModel), NLayersKey := VInt(c.nLayers), NHeadsKey := VInt(c.nHeads),
        NKvHeadsKey := VInt(c.nKvHeads), MaxSeqLenKey := VInt(c.maxSeqLen),
        VocabSizeKey := VInt(c.vocabSize), NormEpsKey := VReal(c.normEps),
        ThetaKey := VReal(c.theta), HiddenDimKey := VInt(c.hiddenDim),
        BatchSizeKey := VInt(c.batchSize)]
  }

  /**
   * A non-negative integer attribute, if present. The model code uses these as sizes and as the
   * `range` bound of the layer list, so a float or a string there fails.
   */
  function NatAttr(attrs: map<string, Value>, key: string): (r: Option<nat>)
    ensures r.Some? <==> key in attrs && attrs[key].VInt? && attrs[key].i >= 0
    ensures r.Some? ==> attrs[key] == VInt(r.value)
  {
    if key in attrs && attrs[key].VInt? && attrs[key].i >= 0 then Some(attrs[key].i) else None
  }

  /**
   * A real attribute, if present. An integer is accepted too: the model code only does
   * arithmetic with `norm_eps` and `position_emb_theta`, where Python promotes an `int`.
   */
  function RealAttr(attrs: map<string, Value>, key: string): (r: Option<real>)
    ensures r.Some? <==> key in attrs && (attrs[key].VReal? || attrs[key].VInt?)
    ensures r.Some? ==> attrs[key] == VReal(r.value) || attrs[key] == VInt(r.value.Floor)
  {
    if key in attrs && attrs[key].VReal? then Some(attrs[key].r)
    else if key in attrs && attrs[key].VInt? then Some(attrs[key].i as real)
    else None
  }

  /**
   * `setattr` followed by reading the attribute back: a written value is read as itself (an
   * integer also as a real), and every other attribute reads as before.
   */
  lemma AttrReadAfterWrite(attrs: map<string, Value>, key: string, v: Value, other: string)
    requires other != key
    ensures v.VInt? && v.i >= 0 ==> NatAttr(attrs[key := v], key) == Some(v.i)
    ensures !(v.VInt? && v.i >= 0) ==> NatAttr(attrs[key := v], key) == None
    ensures v.VReal? ==> RealAttr(attrs[key := v], key) == Some(v.r)
    ensures v.VInt? ==> RealAttr(attrs[key := v], key) == Some(v.i as real)
    ensures !(v.VReal? || v.VInt?) ==> RealAttr(attrs[key := v], key) == None
    ensures NatAttr(attrs[key := v], other) == NatAttr(attrs, other)
    ensures RealAttr(attrs[key := v], other) == RealAttr(attrs, other)
  {
  }

  /** The attribute names `ReadModelConfig` looks at. */
  const ModelKeys: set<string> := {DModelKey, NLayersKey, NHeadsKey, NKvHeadsKey, MaxSeqLenKey,
                                   VocabSizeKey, NormEpsKey, ThetaKey, HiddenDimKey, BatchSizeKey}

  /**
   * The model config as the model code sees it through the HF config's attributes
   * (`config.d_model`, `config.attention_n_heads`, ...); `None` when one is missing or of the
   * wrong kind (an `AttributeError` or a type error at construction).
   */
  function ReadModelConfig(attrs: map<string, Value>): Option<Config.ModelConfig>
  {
    var dm := NatAttr(attrs, DModelKey);
    var nl := NatAttr(attrs, NLayersKey);
    var nh := NatAttr(attrs, NHeadsKey);
    var nkv := NatAttr(attrs, NKvHeadsKey);
    var msl := NatAttr(attrs, MaxSeqLenKey);
    var vs := NatAttr(attrs, VocabSizeKey);
    var eps := RealAttr(attrs, NormEpsKey);
    var th := RealAttr(attrs, ThetaKey);
    var hd := NatAttr(attrs, HiddenDimKey);
    var bs := NatAttr(attrs, BatchSizeKey);
    if dm.Some? && nl.Some? && nh.Some? && nkv.Some? && msl.Some? && vs.Some? && eps.Some?
       && th.Some? && hd.Some? && bs.Some?
    then Some(Config.ModelConfig(dm.value, nl.value, nh.value, nkv.value, msl.value, vs.value,
                                 eps.value, th.value, hd.value, bs.value))
    else None
  }

  /**
   * Setting an attribute the model code does not read, as `from_dict` does for every entry of
   * the dictionary and a base constructor may do for its own defaults, leaves the model config
   * that a `Pico` built from the config sees unchanged.
   */
  lemma ReadIgnoresOtherAttrs(attrs: map<string, Value>, key: string, v: Value)
    requires key !in ModelKeys
    ensures ReadModelConfig(attrs[key := v]) == ReadModelConfig(attrs)
  {
    var a := attrs[key := v];
    forall k | k in ModelKeys
      ensures NatAttr(a, k) == NatAttr(attrs, k) && RealAttr(a, k) == RealAttr(attrs, k)
    {
      AttrReadAfterWrite(attrs, key, v, k);
    }
  }

  /**
   * `from_dataclass(c)` is `from_dict(asdict(c))` with no keywords: whatever the base
   * constructor sets, the resulting config carries every field of `c` with its value, so a
   * model built from it reads back exactly `c`.
   */
  lemma FromDataclassRoundTrip(c: Config.ModelConfig, baseAttrs: map<string, Value>)
    ensures forall k :: k in AsDict(c) ==> (baseAttrs + AsDict(c))[k] == AsDict(c)[k]
    ensures ReadModelConfig(baseAttrs + AsDict(c)) == Some(c)
  {
    var attrs := baseAttrs + AsDict(c);
    assert NatAttr(attrs, DModelKey) == Some(c.dModel);
    assert NatAttr(attrs, NLayersKey) == Some(c.nLayers);
    assert NatAttr(attrs, NHeadsKey) == Some(c.nHeads);
    assert NatAttr(attrs, NKvHeadsKey) == Some(c.nKvHeads);
    assert NatAttr(attrs, MaxSeqLenKey) == Some(c.maxSeqLen);
    assert NatAttr(attrs, VocabSizeKey) == Some(c.vocabSize);
    assert RealAttr(attrs, NormEpsKey) == Some(c.normEps);
    assert RealAttr(attrs, ThetaKey) == Some(c.theta);
    assert NatAttr(attrs, HiddenDimKey) == Some(c.hiddenDim);
    assert NatAttr(attrs, BatchSizeKey) == Some(c.batchSize);
  }

  /** `PicoHFConfig.from_dataclass(model_config)`. */
  method FromDataclass(c: Config.ModelConfig, base: map<string, Value> -> map<string, Value>,
                       classNames: set<string>) returns (config: PicoHFConfig)
    ensures fresh(config)
    ensures config.attrs == base(map[]) + AsDict(c)
    ensures ReadModelConfig(config.attrs) == Some(c)
  {
    var unused;
    config, unused := FromDict(AsDict(c), map[], base, classNames);
    FromDataclassRoundTrip(c, base(map[]));
  }

  const PicoPrefix: string := "pico."

  /** Two names with the same prefix in front are equal only if the names are. */
  lemma PrefixInjective(prefix: string)
    ensures forall a: string, b: string :: prefix + a == prefix + b ==> a == b
  {
    forall a: string, b: string | prefix + a == prefix + b
      ensures a == b
    {
      assert a == (prefix + a)[|prefix|..];
      assert b == (prefix + b)[|prefix|..];
    }
  }

  /** Names that start with the prefix are determined by what follows it. */
  lemma SuffixInjective(prefix: string)
    ensures forall a: string, b: string ::
      (|prefix| <= |a| && a[..|prefix|] == prefix && |prefix| <= |b| && b[..|prefix|] == prefix &&
       a[|prefix|..] == b[|prefix|..]) ==> a == b
  {
    forall a: string, b: string |
      |prefix| <= |a| && a[..|prefix|] == prefix && |prefix| <= |b| && b[..|prefix|] == prefix &&
      a[|prefix|..] == b[|prefix|..]
      ensures a == b
    {
      assert a == a[..|prefix|] + a[|prefix|..];
      assert b == b[..|prefix|] + b[|prefix|..];
    }
  }

  /** `state_dict(prefix=p)`: every parameter name gets `p` in front. */
  function Prefixed<V>(sd: map<string, V>, prefix: string): (r: map<string, V>)
    ensures forall k :: k in sd ==> prefix + k in r && r[prefix + k] == sd[k]
    ensures forall key :: key in r ==>
      |prefix| <= |key| && key[..|prefix|] == prefix && key[|prefix|..] in sd &&
      r[key] == sd[key[|prefix|..]]
  {
    PrefixInjective(prefix);
    var r := map k | k in sd :: prefix + k := sd[k];
    assert forall k :: k in sd ==> (prefix + k)[..|prefix|] == prefix && (prefix + k)[|prefix|..] == k;
    r
  }

  /** Removing the prefix again: the parameter names a submodule registered under it sees. */
  function Unprefixed<V>(sd: map<string, V>, prefix: string): map<string, V>
  {
    SuffixInjective(prefix);
    map key | key in sd && |prefix| <= |key| && key[..|prefix|] == prefix :: key[|prefix|..] := sd[key]
  }

  /**
   * Stripping the prefix from the renamed state dict gives back the original state dict, so
   * every original name appears under the prefix exactly once.
   */
  lemma PrefixRoundTrip<V>(sd: map<string, V>, prefix: string)
    ensures Unprefixed(Prefixed(sd, prefix), prefix) == sd
  {
    var p := Prefixed(sd, prefix);
    var u := Unprefixed(p, prefix);
    SuffixInjective(prefix);
    forall k | k in sd
      ensures k in u && u[k] == sd[k]
    {
      assert prefix + k in p;
      assert (prefix + k)[..|prefix|] == prefix;
      assert (prefix + k)[|prefix|..] == k;
    }
    assert u == sd;
  }

  /** `load_state_dict` in strict mode: the names must match exactly. */
  function LoadStrict<V>(target: set<string>, sd: map<string, V>): (r: Option<map<string, V>>)
    ensures r.Some? <==> sd.Keys == target
    ensures r.Some? ==> r.value == sd
  {
    if sd.Keys == target then Some(sd) else None
  }

  /** The decimal digits of `n`, as `str(n)` writes a layer index in a parameter name. */
  function Decimal(n: nat): string
    decreases n
  {
    var digit := ['0' + (n % 10) as char];
    if n < 10 then digit else Decimal(n / 10) + digit
  }

  /**
   * The parameters a `Pico` module registers outside its layers: the embedding table, the weight
   * of the output `RMSNorm` and the bias-free output projection.
   */
  const TopNames: set<string> := {"embedding_proj.weight", "output_norm.weight",
                                  "de_embedding_proj.weight"}

  /**
   * The parameters of one `PicoBlock`: the four bias-free projections of its `Attention` (whose
   * `RoPE` registers nothing), the three bias-free linears of its `SwiGLU`, and its two
   * `RMSNorm` weights.
   */
  const BlockNames: set<string> := {"attention.q_proj.weight", "attention.k_proj.weight",
                                    "attention.v_proj.weight", "attention.o_proj.weight",
                                    "swiglu.w_0.weight", "swiglu.w_1.weight", "swiglu.w_2.weight",
                                    "attention_norm.weight", "swiglu_norm.weight"}

  /** The parameter names of a `Pico` with `nLayers` blocks in its `layers` list. */
  function ParamNames(nLayers: nat): set<string>
    decreases nLayers
  {
    if nLayers == 0 then TopNames
    else
      var i := nLayers - 1;
      ParamNames(i) + set b | b in BlockNames :: "layers." + Decimal(i) + "." + b
  }

  /** Prefixing every name of a set. */
  function PrefixAll(names: set<string>, prefix: string): set<string>
  {
    set k | k in names :: prefix + k
  }

  /**
   * The parameter names of `PicoHF(config)`: everything of the wrapped `Pico`, built from the
   * config's attributes, under the submodule name `pico`; `None` when the `Pico` cannot be
   * built from those attributes.
   */
  function HfParamNames(attrs: map<string, Value>): Option<set<string>>
  {
    match ReadModelConfig(attrs)
    case None => None
    case Some(c) => Some(PrefixAll(ParamNames(c.nLayers), PicoPrefix))
  }

  /** The names of a renamed state dict are the original names with the prefix in front. */
  lemma PrefixedKeys<V>(sd: map<string, V>, prefix: string)
    ensures Prefixed(sd, prefix).Keys == PrefixAll(sd.Keys, prefix)
  {
    var p := Prefixed(sd, prefix);
    forall key | key in p
      ensures key in PrefixAll(sd.Keys, prefix)
    {
      assert key == prefix + key[|prefix|..];
    }
  }

  /** Prefixing loses nothing: two name sets with the same prefixed names are equal. */
  lemma PrefixAllInjective(a: set<string>, b: set<string>, prefix: string)
    ensures PrefixAll(a, prefix) == PrefixAll(b, prefix) ==> a == b
  {
    PrefixInjective(prefix);
    if PrefixAll(a, prefix) == PrefixAll(b, prefix) {
      forall k | k in a
        ensures k in b
      {
        assert prefix + k in PrefixAll(b, prefix);
      }
      forall k | k in b
        ensures k in a
      {
        assert prefix + k in PrefixAll(a, prefix);
      }
    }
  }

  /**
   * `convert_to_hf_model`: the `PicoHF` built from `from_dataclass(c)` expects exactly the
   * renamed parameters of a `Pico` with config `c`, so strict loading of
   * `state_dict(prefix="pico.")` succeeds if and only if the state dict has the names of such a
   * model, and the wrapped model then holds exactly the original parameters.
   */
  lemma ConvertKeepsParameters<V>(c: Config.ModelConfig, baseAttrs: map<string, Value>,
                                  sd: map<string, V>)
    ensures HfParamNames(baseAttrs + AsDict(c)) == Some(PrefixAll(ParamNames(c.nLayers), PicoPrefix))
    ensures LoadStrict(HfParamNames(baseAttrs + AsDict(c)).value, Prefixed(sd, PicoPrefix)).Some?
      <==> sd.Keys == ParamNames(c.nLayers)
    ensures sd.Keys == ParamNames(c.nLayers) ==>
      Unprefixed(LoadStrict(HfParamNames(baseAttrs + AsDict(c)).value, Prefixed(sd, PicoPrefix)).value,
                 PicoPrefix) == sd
  {
    FromDataclassRoundTrip(c, baseAttrs);
    var names := ParamNames(c.nLayers);
    assert HfParamNames(baseAttrs + AsDict(c)) == Some(PrefixAll(names, PicoPrefix));
    PrefixedKeys(sd, PicoPrefix);
    PrefixAllInjective(sd.Keys, names, PicoPrefix);
    PrefixRoundTrip(sd, PicoPrefix);
  }

  /**
   * `Pico.convert_to_hf_model()`: build the HF config from the model's config, build the
   * wrapper from it and load the model's parameters under `"pico."`. `params` is the model's
   * own state dict, which has the names of a `Pico` with config `c`.
   */
  method ConvertToHfModel<V>(c: Config.ModelConfig, params: map<string, V>,
                             base: map<string, Value> -> map<string, Value>,
                             classNames: set<string>)
    returns (config: PicoHFConfig, loaded: map<string, V>)
    requires params.Keys == ParamNames(c.nLayers)
    ensures fresh(config)
    ensures ReadModelConfig(config.attrs) == Some(c)
    ensures HfParamNames(config.attrs) == Some(PrefixAll(params.Keys, PicoPrefix))
    ensures loaded.Keys == PrefixAll(params.Keys, PicoPrefix)
    ensures Unprefixed(loaded, PicoPrefix) == params
  {
    config := FromDataclass(c, base, classNames);
    ConvertKeepsParameters(c, base(map[]), params);
    PrefixedKeys(params, PicoPrefix);
    var target := HfParamNames(config.attrs);
    var load := LoadStrict(target.value, Prefixed(params, PicoPrefix));
    loaded := load.value;
  }
}
