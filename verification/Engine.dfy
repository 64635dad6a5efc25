/**
 The engine as rank 0 sees it: `_generation_loop` around the scheduler, the device and the ring of
 pipeline stages. Stages are first-in first-out, so the work of a batch is written here at the
 cycle that issues it, and its output joins the queue of outputs still on their way to rank 0.
 */
module Engine {
  import opened Prelude
  import opened Transformer
  import opened Requests
  import opened Pages
  import opened Cache
  import opened Scheduling
  import opened Device

  /** The output of one batch, with the requests it was computed for. */
  datatype Output = Output(batch: seq<Req>, tokens: seq<Token>)

  datatype System = System(sched: State, store: Store, pending: seq<Output>)

  /** `Stuck`: the sampler refuses the batch, or rank 0 waits for an output that is not coming, or one of the
      wrong length. */
  datatype Outcome = Goes(sys: System) | Stuck

  function Infer(c: Config, m: Model, store: Store, batch: seq<Req>): (Store, Output)
    requires ValidConfig(c)
  {
    var (after, hidden) := Forward(c, store, batch);
    (after, Output(batch, Select(m, batch, hidden)))
  }

  /** `update` on the output received in this cycle: requests and tokens are zipped by position. */
  function Deliver(c: Config, s: State, store: Store, received: Output, pending: seq<Output>): Outcome
    requires Shaped(c, s)
  {
    if |received.tokens| == |s.slots[s.cur]| then Goes(System(Update(c, s, received.tokens), store, pending))
    else Stuck
  }

  /** What a turn hands to the device. */
  function BatchOf(c: Config, sys: System): seq<Req>
    requires Shaped(c, sys.sched)
  {
    Snapshot(Schedule(c, sys.sched).slots[sys.sched.cur])
  }

  /** One turn of `_generation_loop`. */
  function Cycle(c: Config, m: Model, sys: System): (o: Outcome)
    requires Shaped(c, sys.sched)
    ensures o.Goes? ==> Shaped(c, o.sys.sched)
  {
    var s := Schedule(c, sys.sched);
    var toInfer := Snapshot(s.slots[sys.sched.cur]);
    var toUpdate := Snapshot(s.slots[s.cur]);
    if toInfer == [] && toUpdate == [] then Goes(System(s, sys.store, sys.pending))
    else if !UniformSampling(toInfer) then Stuck
    else
      var (store, output) := Infer(c, m, sys.store, toInfer);
      var sent := if toInfer == [] then [] else [output];
      if c.numSlots == 1 then Deliver(c, s, store, output, sys.pending)
      else if toUpdate == [] then Goes(System(s, store, sys.pending + sent))
      else if sys.pending == [] then Stuck
      else Deliver(c, s, store, sys.pending[0], sys.pending[1..] + sent)
  }

  /** What can happen to the engine from outside: a submission, or one turn of its loop. */
  datatype Event = Submit(key: Key) | Turn

  function Submitted(s: State, key: Key): State
  {
    s.(queue := s.queue + [Fresh(key.id, key.cfg, key.prompt)])
  }

  /** The engine after a history of events, oldest first. */
  function Run(c: Config, m: Model, start: System, history: seq<Event>): (o: Outcome)
    requires Shaped(c, start.sched)
    ensures o.Goes? ==> Shaped(c, o.sys.sched)
  {
    if history == [] then Goes(start)
    else
      match Run(c, m, start, history[..|history| - 1])
      case Stuck => Stuck
      case Goes(sys) =>
        match history[|history| - 1]
        case Submit(key) => Goes(sys.(sched := Submitted(sys.sched, key)))
        case Turn => Cycle(c, m, sys)
  }

  /** An engine that has just started: empty slots, all pages free, an empty cache of the right shape. */
  ghost predicate Initial(c: Config, m: Model, sys: System)
  {
    && Shaped(c, sys.sched)
    && sys.sched.queue == [] && sys.sched.results == []
    && sys.sched.cur == 0
    && (forall k :: 0 <= k < |sys.sched.slots| ==> sys.sched.slots[k] == [])
    && sys.sched.pool == Pool(Universe(c.maxBlocks), {})
    && sys.pending == []
    && |sys.store| == m.layers
    && (forall l :: 0 <= l < |sys.store| ==> |sys.store[l]| == c.maxBlocks * c.pageSize)
  }
}
