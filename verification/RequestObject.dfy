/** `InferenceRequest`: the object whose fields the scheduler updates in place. */
module RequestObject {
  import opened Prelude
  import opened Transformer
  import opened Requests

  class InferenceRequest {
    const id: int
    const cfg: GenConfig
    const promptLen: nat
    var input: seq<Token>
    var status: Status
    var computed: int
    var step: int
    var blocks: seq<int>
    var generated: seq<Token>

    function View(): Req
      reads this
    {
      Req(id, cfg, promptLen, input, status, computed, step, blocks, generated)
    }

    constructor (id: int, cfg: GenConfig, prompt: seq<Token>)
      ensures View() == Fresh(id, cfg, prompt)
    {
      this.id, this.cfg, this.promptLen := id, cfg, |prompt|;
      input, status, computed, step, blocks, generated := prompt, Pending, 0, 0, [], [];
    }

    method Activate(newBlocks: seq<int>)
      modifies this
      ensures View() == old(View()).Activate(newBlocks)
    {
      blocks := blocks + newBlocks;
      status := Running;
    }

    /** What one step adds. */
    method Plan(tokens: int, upTo: int)
      modifies this`step, this`computed
      ensures View() == old(View()).(step := tokens, computed := upTo)
    {
      step, computed := tokens, upTo;
    }

    method Extend(newBlocks: seq<int>)
      modifies this`blocks
      ensures View() == old(View()).(blocks := old(blocks) + newBlocks)
    {
      blocks := blocks + newBlocks;
    }

    method Append(token: Token)
      modifies this`generated
      ensures View() == old(View()).(generated := old(generated) + [token])
    {
      generated := generated + [token];
    }

    /** The three reasons to stop, in the order of the code. */
    method ShouldFinish(token: Token) returns (stop: bool)
      ensures stop == View().ShouldFinish(token)
      ensures computed + 1 == promptLen + |generated| && generated != [] && token == generated[|generated| - 1] ==>
                stop == Stops(cfg, promptLen, generated)
      ensures computed + 1 == promptLen + |generated| && generated != [] && token == generated[|generated| - 1]
              && Open(cfg, promptLen, generated[..|generated| - 1]) ==>
                stop == EndsInTime(cfg, promptLen, generated)
    {
      if cfg.eos.Some? {
        if token == cfg.eos.value {
          return true;
        }
      }
      if cfg.maxLength.Some? {
        if computed + 1 >= cfg.maxLength.value {
          return true;
        }
      }
      if |generated| >= cfg.maxNew {
        return true;
      }
      stop := false;
    }

    /** Fold the generated tokens that are not yet in the input into it. */
    method Preempt()
      modifies this
      ensures View() == old(View()).Fold()
    {
      var alreadyFolded := |input| - promptLen;
      var newTokens := From(generated, alreadyFolded);
      input := input + newTokens;
      blocks := [];
      computed := 0;
      step := 0;
      status := Pending;
    }

    method Finish()
      modifies this
      ensures View() == old(View()).Finish()
    {
      status := Finished;
      blocks := [];
    }
  }
}
