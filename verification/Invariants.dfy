/** What holds of the engine between two cycles, and in the phases of one. */
module Invariants {
  import opened Prelude
  import opened Transformer
  import opened Requests
  import opened Pages
  import opened Cache
  import opened Scheduling
  import opened SchedulingProofs
  import opened Device
  import opened DeviceProofs
  import opened Engine

  ghost predicate SlotBudget(c: Config, slot: seq<Req>)
  {
    |slot| <= c.maxTokens && |slot| <= c.maxSeqs && OnlyLastMid(slot)
  }

  /** A slot whose turn it is: outputs accounted for, caches complete. */
  ghost predicate RestingSlot(c: Config, m: Model, store: Store, slot: seq<Req>)
    requires ValidConfig(c)
  {
    SlotBudget(c, slot) && forall i :: 0 <= i < |slot| ==> AtRest(c, m, store, slot[i])
  }

  /** A request whose step has been computed and whose output is still on its way. */
  ghost predicate Computed(c: Config, m: Model, store: Store, r: Req)
    requires ValidConfig(c)
  {
    Issued(c, m, r) && Cached(c, m, store, r, r.computed)
  }

  ghost predicate FlyingSlot(c: Config, m: Model, store: Store, slot: seq<Req>)
    requires ValidConfig(c)
  {
    SlotBudget(c, slot) && forall i :: 0 <= i < |slot| ==> Computed(c, m, store, slot[i])
  }

  /** The slots after the current one in turn order: the next to be updated comes first. */
  function Upcoming(slots: seq<seq<Req>>, cur: nat): seq<seq<Req>>
    requires cur < |slots|
  {
    slots[cur + 1..] + slots[..cur]
  }

  function NonEmpty(slots: seq<seq<Req>>): seq<seq<Req>>
  {
    if slots == [] then []
    else (if slots[0] == [] then [] else [slots[0]]) + NonEmpty(slots[1..])
  }

  /** Each request past its prefill gets the token the plain loop gives. */
  ghost predicate RightTokens(m: Model, batch: seq<Req>, tokens: seq<Token>)
  {
    && |tokens| == |batch|
    && forall i :: 0 <= i < |batch| ==>
         batch[i].WellFormed() && (!MidPrefill(batch[i]) ==> tokens[i] == Expected(m, batch[i]))
  }

  /** An output answers a batch: same requests, in the same order, with the right tokens. */
  ghost predicate Answers(m: Model, out: Output, batch: seq<Req>)
  {
    out.batch == batch && RightTokens(m, batch, out.tokens)
  }

  /** Outputs on their way answer exactly the non-empty slots still to be updated, oldest first. */
  ghost predicate Aligned(m: Model, pending: seq<Output>, slots: seq<seq<Req>>)
  {
    |pending| == |NonEmpty(slots)| && forall k :: 0 <= k < |pending| ==> Answers(m, pending[k], NonEmpty(slots)[k])
  }

  /** A finished request carries exactly what the plain one-request loop generates. */
  ghost predicate Delivered(m: Model, r: Req)
  {
    r.status == Finished && r.WellFormed() && r.generated == Reference(m, r.cfg, r.Prompt())
  }

  /** Queue, pages and results, whatever the phase of the cycle. */
  ghost predicate Sound(c: Config, m: Model, s: State)
  {
    && Shaped(c, s)
    && (forall r :: r in s.queue ==> Waiting(m, r))
    && Conserved(c, s.pool, Owned(Flat(s.slots)))
    && (forall r :: r in Flat(s.results) ==> Delivered(m, r))
  }

  /** The engine between two cycles. */
  ghost predicate Inv(c: Config, m: Model, sys: System)
  {
    && Sound(c, m, sys.sched)
    && StoreShape(c, m, sys.store)
    && RestingSlot(c, m, sys.store, sys.sched.slots[sys.sched.cur])
    && (forall k :: 0 <= k < |sys.sched.slots| && k != sys.sched.cur ==>
          FlyingSlot(c, m, sys.store, sys.sched.slots[k]))
    && Aligned(m, sys.pending, Upcoming(sys.sched.slots, sys.sched.cur))
  }

  /** Everything the engine knows about: queued, in a slot, or finished. */
  ghost function AllKeys(s: State): multiset<Key>
  {
    Keys(s.queue) + Keys(Flat(s.slots)) + Keys(Flat(s.results))
  }

  /** Requests that may share a batch. */
  ghost predicate AllAlike(keys: multiset<Key>)
  {
    forall k, k' :: k in keys && k' in keys ==> Alike(k.cfg, k'.cfg)
  }

  /** After `schedule` and the forward pass every slot's step is computed. */
  ghost predicate Flown(c: Config, m: Model, s: State, store: Store)
  {
    && Sound(c, m, s) && StoreShape(c, m, store)
    && (forall k :: 0 <= k < |s.slots| ==> FlyingSlot(c, m, store, s.slots[k]))
  }

  /** After `schedule`, before the forward pass: the batch of slot `cur` is ready, the rest is in flight. */
  ghost predicate Scheduled(c: Config, m: Model, s: State, store: Store, cur: nat)
  {
    && Sound(c, m, s) && StoreShape(c, m, store) && cur < |s.slots|
    && SlotBudget(c, s.slots[cur])
    && (forall i :: 0 <= i < |s.slots[cur]| ==> Ready(c, m, store, s.slots[cur][i]))
    && (forall k :: 0 <= k < |s.slots| && k != cur ==> FlyingSlot(c, m, store, s.slots[k]))
  }
}
