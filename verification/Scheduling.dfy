/** `Scheduler.schedule` and `Scheduler.update` as functions of the scheduler's state. */
module Scheduling {
  import opened Prelude
  import opened Transformer
  import opened Requests
  import opened Pages

  /** The state of one `schedule` call: the current slot, the index of the next request to plan,
      the queue, the pages, and the tokens still available. */
  datatype Work = Work(active: seq<Req>, next: nat, queue: seq<Req>, pool: Pool, budget: int)

  /** `_plan_tokens_for_request`: tokens for this step, and `num_computed_tokens` after it. */
  function Plan(c: Config, r: Req, budget: int): (int, int)
  {
    var remaining := Max(0, |r.input| - r.computed);
    if remaining == 0 then (1, r.computed + 1)
    else if c.chunked then var tokens := Min(budget, remaining); (tokens, r.computed + tokens)
    else (|r.input|, |r.input|)
  }

  /** Python's `min(..., key=num_computed_tokens)`: the first request with the least progress. */
  function LeastProgress(s: seq<Req>): (v: nat)
    requires s != []
    ensures v < |s|
    ensures forall i :: 0 <= i < |s| ==> s[v].computed <= s[i].computed
    ensures forall i :: 0 <= i < v ==> s[v].computed < s[i].computed
  {
    if |s| == 1 then 0
    else
      var v := LeastProgress(s[..|s| - 1]);
      if s[|s| - 1].computed < s[v].computed then |s| - 1 else v
  }

  /** `_preempt_request` on the request at `v`. */
  function Evict(w: Work, v: nat): Work
    requires v < |w.active|
  {
    Work(Remove(w.active, v), if v < w.next then w.next - 1 else w.next,
         w.queue + [w.active[v].Fold()], Released(w.pool, w.active[v].blocks), w.budget)
  }

  /** Give the next request the pages its planned tokens need; None when out of pages. */
  function Extend(c: Config, w: Work): Option<Work>
    requires ValidConfig(c) && w.next < |w.active|
  {
    var r := w.active[w.next];
    match Allocate(c, w.pool, r.computed, |r.blocks|)
    case Some(pages) =>
      Some(w.(active := w.active[w.next := r.(blocks := r.blocks + pages)], pool := Taken(w.pool, pages)))
    case None => None
  }

  /** The next request with its plan written down. */
  function Planned(c: Config, w: Work): Work
    requires w.next < |w.active|
  {
    var (tokens, upTo) := Plan(c, w.active[w.next], w.budget);
    w.(active := w.active[w.next := w.active[w.next].(step := tokens, computed := upTo)])
  }

  /** One turn of the first loop of `schedule`, `_extend_or_preempt` included. */
  function PlanNext(c: Config, w: Work): (w': Work)
    requires ValidConfig(c) && w.next < |w.active|
    ensures |w'.active| - w'.next < |w.active| - w.next
    ensures w'.next <= |w'.active|
  {
    var tokens := Plan(c, w.active[w.next], w.budget).0;
    var w1 := Planned(c, w);
    match Extend(c, w1)
    case Some(w2) => w2.(next := w2.next + 1, budget := w.budget - tokens)
    case None =>
      var v := LeastProgress(w1.active);
      var w2 := Evict(w1, v);
      if v == w.next then w2
      else
        match Extend(c, w2)
        case Some(w3) => w3.(next := w3.next + 1, budget := w.budget - tokens)
        case None => w2.(next := w2.next + 1)
  }

  function PlanAll(c: Config, w: Work): Work
    requires ValidConfig(c) && w.next <= |w.active|
    decreases |w.active| - w.next
  {
    if w.next == |w.active| then w else PlanAll(c, PlanNext(c, w))
  }

  /** One slot's share of the free pages, in sequences of average size. */
  function FairShare(used: nat, free: nat, inflight: nat, slots: nat): int
    requires slots > 0
  {
    var ratio := used as real / Max(1, inflight) as real;
    var perSeq := if ratio > 1.0 then ratio else 1.0;
    var share := Max(1, free / slots);
    Max(1, (share as real / perSeq).Floor)
  }

  /** How many requests may be admitted to the current slot. */
  function SeqsBudget(c: Config, w: Work, others: nat): int
    requires ValidConfig(c)
  {
    var base := c.maxSeqs - |w.active|;
    if c.numSlots > 1 && c.fairShare then
      Min(base, FairShare(|w.pool.used|, |w.pool.free|, |w.active| + others, c.numSlots))
    else base
  }

  /** The second loop of `schedule`: admit from the head of the queue until something does not fit. */
  function Admit(c: Config, w: Work, seqs: int): Work
    requires ValidConfig(c)
    decreases Max(0, seqs)
  {
    if w.budget <= 0 || seqs <= 0 || w.queue == [] then w
    else
      var r := w.queue[0];
      var (tokens, upTo) := Plan(c, r, w.budget);
      var putBack := w.(queue := w.queue[1..] + [r]);
      if w.budget < tokens then putBack
      else
        match Allocate(c, w.pool, |r.input|, 0)
        case None => putBack
        case Some(pages) =>
          var r' := r.Activate(pages).(step := tokens, computed := upTo);
          Admit(c, w.(active := w.active + [r'], queue := w.queue[1..],
                      pool := Taken(w.pool, pages), budget := w.budget - tokens), seqs - 1)
  }

  /** The scheduler's own state. `results` holds the batches of finished requests, oldest first. */
  datatype State = State(queue: seq<Req>, slots: seq<seq<Req>>, cur: nat, pool: Pool, results: seq<seq<Req>>)

  predicate Shaped(c: Config, s: State)
  {
    ValidConfig(c) && |s.slots| == c.numSlots && s.cur < |s.slots|
  }

  /** `get_snapshot`: the requests of a slot that are not finished. */
  function Snapshot(slot: seq<Req>): seq<Req>
  {
    if slot == [] then []
    else (if slot[0].status == Finished then [] else [slot[0]]) + Snapshot(slot[1..])
  }

  function TotalLength<T>(slots: seq<seq<T>>): nat
  {
    if slots == [] then 0 else |slots[0]| + TotalLength(slots[1..])
  }

  /** Requests in the slots other than the current one. */
  function OtherInflight(s: State): nat
    requires s.cur < |s.slots|
  {
    TotalLength(s.slots[..s.cur]) + TotalLength(s.slots[s.cur + 1..])
  }

  function WorkOf(c: Config, s: State): Work
    requires Shaped(c, s)
  {
    Work(s.slots[s.cur], 0, s.queue, s.pool, c.maxTokens)
  }

  /** What `schedule` leaves in the current slot, in the queue and in the pool. */
  function Filled(c: Config, s: State): Work
    requires Shaped(c, s)
  {
    var w := PlanAll(c, WorkOf(c, s));
    Admit(c, w, SeqsBudget(c, w, OtherInflight(s)))
  }

  function Schedule(c: Config, s: State): (s': State)
    requires Shaped(c, s)
    ensures Shaped(c, s')
  {
    var w := Filled(c, s);
    State(w.queue, s.slots[s.cur := w.active], (s.cur + 1) % |s.slots|, w.pool, s.results)
  }

  /** The outcome of one slot's outputs: requests that stay, requests that finished, pages. */
  datatype Settled = Settled(kept: seq<Req>, finished: seq<Req>, pool: Pool)

  /** The loop of `update` over the positional zip of requests and tokens. */
  function Settle(active: seq<Req>, tokens: seq<Token>, pool: Pool): Settled
    requires |tokens| == |active|
  {
    if active == [] then Settled([], [], pool)
    else
      var r := active[0];
      if Completes(r, tokens[0]) then
        var rest := Settle(active[1..], tokens[1..], Released(pool, r.blocks));
        rest.(finished := [Absorb(r, tokens[0]).Finish()] + rest.finished)
      else
        var rest := Settle(active[1..], tokens[1..], pool);
        rest.(kept := [Absorb(r, tokens[0])] + rest.kept)
  }

  function Update(c: Config, s: State, tokens: seq<Token>): (s': State)
    requires Shaped(c, s) && |tokens| == |s.slots[s.cur]|
    ensures Shaped(c, s')
  {
    var d := Settle(s.slots[s.cur], tokens, s.pool);
    s.(slots := s.slots[s.cur := d.kept], pool := d.pool,
       results := if d.finished == [] then s.results else s.results + [d.finished])
  }
}
