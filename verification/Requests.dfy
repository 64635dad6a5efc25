/** The life of a request as values, and what holds of it in each place it can be. */
module Requests {
  import opened Prelude
  import opened Transformer

  datatype Status = Pending | Running | Finished | Failed

  datatype Config = Config(
    pageSize: nat, maxBlocks: nat, maxTokens: int, maxSeqs: int,
    chunked: bool, fairShare: bool, numSlots: nat)

  predicate ValidConfig(c: Config)
  {
    c.pageSize >= 1 && c.maxTokens >= 1 && c.maxSeqs >= 1 && c.numSlots >= 1
  }

  /** Python's `s[i:]`. */
  function From<T>(s: seq<T>, i: int): seq<T>
  {
    if i >= |s| then [] else if i >= 0 then s[i..] else s[Max(0, |s| + i)..]
  }

  datatype Req = Req(
    id: int, cfg: GenConfig, promptLen: nat, input: seq<Token>, status: Status,
    computed: int, step: int, blocks: seq<int>, generated: seq<Token>)
  {
    function Fold(): Req
    {
      var newTokens := From(generated, |input| - promptLen);
      this.(input := input + newTokens, blocks := [], computed := 0, step := 0, status := Pending)
    }

    function Finish(): Req { this.(status := Finished, blocks := []) }

    function Activate(newBlocks: seq<int>): Req { this.(status := Running, blocks := blocks + newBlocks) }

    predicate ShouldFinish(token: Token)
    {
      || (cfg.eos.Some? && token == cfg.eos.value)
      || (cfg.maxLength.Some? && computed + 1 >= cfg.maxLength.value)
      || |generated| >= cfg.maxNew
    }

    predicate WellFormed() { 1 <= promptLen <= |input| }

    function Prompt(): (p: seq<Token>)
      requires WellFormed()
      ensures |p| == promptLen
    {
      input[..promptLen]
    }

    /** Prompt and everything generated so far. */
    function Text(): (t: seq<Token>)
      requires WellFormed()
      ensures |t| == promptLen + |generated|
    {
      Prompt() + generated
    }
  }

  /** A request as the user submits it. */
  function Fresh(id: int, cfg: GenConfig, prompt: seq<Token>): Req
  {
    Req(id, cfg, |prompt|, prompt, Pending, 0, 0, [], [])
  }

  /** What the user knows a request by: its id, its configuration and its prompt. */
  datatype Key = Key(id: int, cfg: GenConfig, prompt: seq<Token>)

  function KeyOf(r: Req): Key
  {
    Key(r.id, r.cfg, if r.promptLen <= |r.input| then r.input[..r.promptLen] else [])
  }

  /** `ceil(n / page_size)`, the allocator's count of pages for n tokens. */
  function PagesFor(c: Config, n: int): int
    requires ValidConfig(c)
  {
    (n + c.pageSize - 1) / c.pageSize
  }

  /** Holds of every request everywhere before it finishes: the input is the prompt and a prefix of
      the generated tokens, and going on from here gives what the plain loop gives. */
  ghost predicate OnTrack(m: Model, r: Req)
  {
    && r.WellFormed()
    && |r.input| - r.promptLen <= |r.generated|
    && r.input == r.Prompt() + r.generated[..|r.input| - r.promptLen]
    && Decode(m, r.cfg, r.Prompt(), r.generated) == Reference(m, r.cfg, r.Prompt())
    && (r.generated != [] ==> !Stops(r.cfg, r.promptLen, r.generated))
  }

  ghost predicate Waiting(m: Model, r: Req)
  {
    && OnTrack(m, r) && r.status == Pending
    && r.input == r.Text() && r.computed == 0 && r.blocks == []
  }

  ghost predicate HasPages(c: Config, r: Req)
    requires ValidConfig(c)
  {
    |r.blocks| == PagesFor(c, Max(|r.input|, r.computed))
  }

  predicate MidPrefill(r: Req) { r.computed < |r.input| }

  /** In a batch slot, its last output accounted for. */
  ghost predicate Resting(c: Config, m: Model, r: Req)
    requires ValidConfig(c)
  {
    && OnTrack(m, r) && r.status == Running && HasPages(c, r)
    && 0 <= r.computed
    && (MidPrefill(r) ==> c.chunked && r.input == r.Text())
    && (!MidPrefill(r) ==> r.computed == |r.Text()| - 1)
  }

  /** In a batch slot with tokens planned: positions `computed - step .. computed` are this step's. */
  ghost predicate Issued(c: Config, m: Model, r: Req)
    requires ValidConfig(c)
  {
    && OnTrack(m, r) && r.status == Running && HasPages(c, r)
    && 1 <= r.step <= r.computed
    && (r.computed <= |r.input| ==> r.input == r.Text() && (!c.chunked ==> !MidPrefill(r)))
    && (r.computed > |r.input| ==> r.step == 1 && r.computed == |r.Text()|)
  }

  /** Preemption keeps the request on track: every generated token is folded in, exactly once. */
  lemma {:induction false} FoldKeeps(m: Model, r: Req)
    requires OnTrack(m, r)
    ensures Waiting(m, r.Fold())
    ensures KeyOf(r.Fold()) == KeyOf(r) && r.Fold().generated == r.generated
  {
    hide Decode, Stops, Reference;
    var k := |r.input| - r.promptLen;
    assert r.generated == r.generated[..k] + r.generated[k..];
    assert r.Fold().input == r.Prompt() + r.generated;
    assert r.Fold().Prompt() == r.Prompt();
    assert r.generated[..|r.generated|] == r.generated;
  }

  lemma {:induction false} FreshWaits(m: Model, id: int, cfg: GenConfig, prompt: seq<Token>)
    requires prompt != []
    ensures Waiting(m, Fresh(id, cfg, prompt))
  {
    assert prompt[..|prompt|] == prompt;
    assert prompt + [] == prompt;
  }

  /** The token this step's last position must yield: sampled after the whole text. */
  function Expected(m: Model, r: Req): Token
    requires r.WellFormed()
  {
    NextToken(m, r.cfg, r.Text())
  }

  /** What one output does to a request: nothing in the middle of a prefill, else one more token. */
  function Absorb(r: Req, token: Token): Req
  {
    if MidPrefill(r) then r else r.(generated := r.generated + [token])
  }

  predicate Completes(r: Req, token: Token)
  {
    !MidPrefill(r) && Absorb(r, token).ShouldFinish(token)
  }

  /** One correct output leads either to rest or to exactly the reference output. */
  lemma {:induction false} AbsorbKeeps(c: Config, m: Model, r: Req, token: Token)
    requires ValidConfig(c) && Issued(c, m, r)
    requires !MidPrefill(r) ==> token == Expected(m, r)
    ensures KeyOf(Absorb(r, token)) == KeyOf(r)
    ensures !Completes(r, token) ==> Resting(c, m, Absorb(r, token))
    ensures Completes(r, token) ==>
              Absorb(r, token).generated == Reference(m, r.cfg, r.Prompt())
  {
    if !MidPrefill(r) {
      var r' := Absorb(r, token);
      var k := |r.input| - r.promptLen;
      assert r'.generated[..k] == r.generated[..k];
      assert r'.Prompt() == r.Prompt();
      assert r.computed == |r.Text()|;
      assert Completes(r, token) <==> Stops(r.cfg, r.promptLen, r'.generated);
    }
  }
}
