/**
 The model that the engine serves, seen through what it may depend on.

 Floating-point values are terms: `Embed` is the embedding of a token at a position, and
 `Layer(self, context)` is what a decoder layer makes of a hidden state and of the keys and
 values it attends to. Two terms are equal exactly when every interpretation of the layers
 gives the same numbers, so an equality of terms is bitwise equality of the results.
 */
module Transformer {
  import opened Prelude

  type Token = int

  datatype Hidden = Embed(tok: Token, pos: int) | Layer(self: Hidden, context: seq<Hidden>)

  /** Whether tokens are drawn at random; `params` stands for `do_sample`, temperature, top-k and top-p. */
  datatype Sampling = Sampling(random: bool, params: int)

  /** The stopping and the sampling fields of `GenerationConfig`. */
  datatype GenConfig = GenConfig(
    eos: Option<Token>, maxLength: Option<int>, maxNew: int, sampling: Sampling, seed: Option<int>)

  /** What requests of one batch must share: equal parameters and, when drawing, all a seed or none. */
  predicate Alike(a: GenConfig, b: GenConfig)
  {
    a.sampling == b.sampling && (a.sampling.random ==> (a.seed.Some? <==> b.seed.Some?))
  }

  /** A model: the number of layers, and a sampler that is a function of the last hidden state, of the
      sampling position, of sampling parameters and of a seed. */
  datatype Model = Model(layers: nat, sample: (Hidden, int, Sampling, Option<int>) -> Token)

  /** The hidden state entering layer `l` at the last position of `s`, computed with no cache. */
  function Ideal(l: nat, s: seq<Token>): Hidden
    requires s != []
    decreases l
  {
    if l == 0 then Embed(s[|s| - 1], |s| - 1)
    else Layer(Ideal(l - 1, s), seq(|s|, i requires 0 <= i < |s| => Ideal(l - 1, s[..i + 1])))
  }

  /** A layer sees every token of the text at its own position: two texts give the same hidden state only if they are
      the same text. Before the first layer only the last token and its position show. */
  lemma {:induction false} HiddenTellsText(l: nat, s: seq<Token>, s': seq<Token>)
    requires s != [] && s' != []
    ensures Ideal(l, s) == Ideal(l, s') <==>
              if l == 0 then |s| == |s'| && s[|s| - 1] == s'[|s| - 1] else s == s'
  {
    if l > 0 && Ideal(l, s) == Ideal(l, s') {
      assert |Ideal(l, s).context| == |s| && |Ideal(l, s').context| == |s'|;
      forall i | 0 <= i < |s| ensures s[i] == s'[i] {
        assert Ideal(l, s).context[i] == Ideal(l, s').context[i];
        HiddenTellsText(l - 1, s[..i + 1], s'[..i + 1]);
      }
    }
  }

  function NextToken(m: Model, cfg: GenConfig, s: seq<Token>): Token
    requires s != []
  {
    m.sample(Ideal(m.layers, s), |s| - 1, cfg.sampling, cfg.seed)
  }

  /** The stopping rule on the whole text: the newest token is EOS, the text has reached
      `max_length`, or `max_new_tokens` tokens have been generated. */
  predicate Stops(cfg: GenConfig, promptLen: int, generated: seq<Token>)
  {
    || (cfg.eos.Some? && generated != [] && generated[|generated| - 1] == cfg.eos.value)
    || (cfg.maxLength.Some? && promptLen + |generated| >= cfg.maxLength.value)
    || |generated| >= cfg.maxNew
  }

  /** The plain one-request loop: no batching, no cache, no preemption. */
  function Decode(m: Model, cfg: GenConfig, prompt: seq<Token>, generated: seq<Token>): seq<Token>
    requires prompt != []
    decreases Max(0, cfg.maxNew - |generated|)
  {
    var g := generated + [NextToken(m, cfg, prompt + generated)];
    if Stops(cfg, |prompt|, g) then g else Decode(m, cfg, prompt, g)
  }

  function Reference(m: Model, cfg: GenConfig, prompt: seq<Token>): seq<Token>
    requires prompt != []
  {
    Decode(m, cfg, prompt, [])
  }

  /** What a finished request must carry, said without any loop: every token is sampled from the prompt and the
      tokens before it, at the position of the last of them. */
  ghost predicate Samples(m: Model, cfg: GenConfig, prompt: seq<Token>, out: seq<Token>)
    requires prompt != []
  {
    forall i :: 0 <= i < |out| ==>
      out[i] == m.sample(Ideal(m.layers, prompt + out[..i]), |prompt| + i - 1, cfg.sampling, cfg.seed)
  }

  /** The output ends at the first token that is EOS or reaches one of the two limits. */
  predicate EndsInTime(cfg: GenConfig, promptLen: int, out: seq<Token>)
  {
    && out != []
    && (forall i :: 0 <= i < |out| - 1 ==> cfg.eos != Some(out[i]))
    && (|out| > 1 ==> |out| - 1 < cfg.maxNew)
    && (|out| > 1 && cfg.maxLength.Some? ==> promptLen + |out| - 1 < cfg.maxLength.value)
    && (|| cfg.eos == Some(out[|out| - 1])
        || |out| >= cfg.maxNew
        || (cfg.maxLength.Some? && promptLen + |out| >= cfg.maxLength.value))
  }

  ghost predicate IsOutput(m: Model, cfg: GenConfig, prompt: seq<Token>, out: seq<Token>)
    requires prompt != []
  {
    Samples(m, cfg, prompt, out) && EndsInTime(cfg, |prompt|, out)
  }

  /** Nothing has stopped the loop after `generated`. */
  predicate Open(cfg: GenConfig, promptLen: int, generated: seq<Token>)
  {
    && (forall i :: 0 <= i < |generated| ==> cfg.eos != Some(generated[i]))
    && (generated != [] ==> |generated| < cfg.maxNew)
    && (generated != [] && cfg.maxLength.Some? ==> promptLen + |generated| < cfg.maxLength.value)
  }

  lemma {:induction false} OneMoreSample(m: Model, cfg: GenConfig, prompt: seq<Token>, out: seq<Token>)
    requires prompt != [] && Samples(m, cfg, prompt, out)
    ensures Samples(m, cfg, prompt, out + [NextToken(m, cfg, prompt + out)])
  {
    var g := out + [NextToken(m, cfg, prompt + out)];
    forall i | 0 <= i < |g|
      ensures g[i] == m.sample(Ideal(m.layers, prompt + g[..i]), |prompt| + i - 1, cfg.sampling, cfg.seed)
    {
      if i < |out| { assert g[..i] == out[..i]; } else { assert g[..i] == out; }
    }
  }

  lemma {:induction false} DecodeIsOutput(m: Model, cfg: GenConfig, prompt: seq<Token>, generated: seq<Token>)
    requires prompt != [] && Samples(m, cfg, prompt, generated) && Open(cfg, |prompt|, generated)
    ensures IsOutput(m, cfg, prompt, Decode(m, cfg, prompt, generated))
    decreases Max(0, cfg.maxNew - |generated|)
  {
    hide NextToken, Samples;
    var g := generated + [NextToken(m, cfg, prompt + generated)];
    OneMoreSample(m, cfg, prompt, generated);
    if !Stops(cfg, |prompt|, g) { DecodeIsOutput(m, cfg, prompt, g); }
  }

  /** From any proper prefix of such an output the loop completes it. */
  lemma {:induction false} DecodeCompletes(m: Model, cfg: GenConfig, prompt: seq<Token>, out: seq<Token>, n: nat)
    requires prompt != [] && IsOutput(m, cfg, prompt, out) && n < |out|
    ensures Decode(m, cfg, prompt, out[..n]) == out
    decreases |out| - n
  {
    var g := out[..n] + [NextToken(m, cfg, prompt + out[..n])];
    assert |prompt + out[..n]| - 1 == |prompt| + n - 1;
    assert g == out[..n + 1];
    if n + 1 == |out| { assert g == out; } else { DecodeCompletes(m, cfg, prompt, out, n + 1); }
  }

  /** The plain loop gives exactly that, and nothing else is an output. */
  lemma {:induction false} ReferenceIsOutput(m: Model, cfg: GenConfig, prompt: seq<Token>, out: seq<Token>)
    requires prompt != []
    ensures out == Reference(m, cfg, prompt) <==> IsOutput(m, cfg, prompt, out)
  {
    hide Samples, EndsInTime, Decode;
    OpenAtFirst(m, cfg, prompt);
    DecodeIsOutput(m, cfg, prompt, []);
    if IsOutput(m, cfg, prompt, out) {
      OutputIsNotEmpty(m, cfg, prompt, out);
      DecodeCompletes(m, cfg, prompt, out, 0);
      assert out[..0] == [];
    }
  }

  lemma {:induction false} OpenAtFirst(m: Model, cfg: GenConfig, prompt: seq<Token>)
    requires prompt != []
    ensures Samples(m, cfg, prompt, []) && Open(cfg, |prompt|, [])
  {
  }

  lemma {:induction false} OutputIsNotEmpty(m: Model, cfg: GenConfig, prompt: seq<Token>, out: seq<Token>)
    requires prompt != [] && IsOutput(m, cfg, prompt, out)
    ensures out != []
  {
  }

  /** The most tokens that the stopping rule lets a request generate; one is always generated. */
  function Longest(cfg: GenConfig, promptLen: int): int
  {
    Max(1, if cfg.maxLength.Some? then Min(cfg.maxNew, cfg.maxLength.value - promptLen) else cfg.maxNew)
  }

  /** The plain loop adds at least one token, and stays within that bound. */
  lemma {:induction false} DecodeLength(m: Model, cfg: GenConfig, prompt: seq<Token>, generated: seq<Token>)
    requires prompt != []
    ensures |Decode(m, cfg, prompt, generated)| > |generated|
    ensures |generated| < Longest(cfg, |prompt|) ==>
              |Decode(m, cfg, prompt, generated)| <= Longest(cfg, |prompt|)
    decreases Max(0, cfg.maxNew - |generated|)
  {
    hide NextToken;
    var g := generated + [NextToken(m, cfg, prompt + generated)];
    if !Stops(cfg, |prompt|, g) { DecodeLength(m, cfg, prompt, g); }
  }

  /** The bound is reached whenever no EOS comes. */
  lemma {:induction false} LongestIsReached(m: Model, cfg: GenConfig, prompt: seq<Token>)
    requires prompt != []
    requires forall i :: 0 <= i < |Reference(m, cfg, prompt)| ==> cfg.eos != Some(Reference(m, cfg, prompt)[i])
    ensures |Reference(m, cfg, prompt)| == Longest(cfg, |prompt|)
  {
    hide Decode, Samples;
    DecodeLength(m, cfg, prompt, []);
    ReferenceIsOutput(m, cfg, prompt, Reference(m, cfg, prompt));
  }
}
