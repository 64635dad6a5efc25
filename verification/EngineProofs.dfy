/** What every run of the engine keeps, and what it delivers. */
module EngineProofs {
  import opened Prelude
  import opened Transformer
  import opened Requests
  import opened Pages
  import opened Cache
  import opened Scheduling
  import opened SchedulingProofs
  import opened Device
  import opened DeviceProofs
  import opened Engine
  import opened Invariants
  import opened PhaseProofs

  lemma {:induction false} NonEmptyConcat(a: seq<seq<Req>>, b: seq<seq<Req>>)
    ensures NonEmpty(a + b) == NonEmpty(a) + NonEmpty(b)
  {
    if a == [] {
      assert a + b == b;
    } else {
      assert (a + b)[1..] == a[1..] + b;
      NonEmptyConcat(a[1..], b);
    }
  }

  /** Rotation: the slot to be updated was the first of the upcoming ones, and the one just scheduled
      becomes the last. */
  lemma {:induction false} UpcomingTurns(slots: seq<seq<Req>>, cur: nat, slot: seq<Req>) returns (others: seq<seq<Req>>)
    requires cur < |slots| && |slots| > 1
    ensures var next := (cur + 1) % |slots|;
            && next < |slots| && next != cur && slots[cur := slot][next] == slots[next]
            && Upcoming(slots, cur) == [slots[next]] + others
            && Upcoming(slots[cur := slot], next) == others + [slot]
  {
    NextSlot(|slots|, cur);
    others := if cur + 1 < |slots| then slots[cur + 2..] + slots[..cur] else slots[1..cur];
  }

  /** Updating the current slot does not touch the upcoming ones. */
  lemma {:induction false} UpcomingIgnoresCurrent(slots: seq<seq<Req>>, cur: nat, slot: seq<Req>)
    requires cur < |slots|
    ensures Upcoming(slots[cur := slot], cur) == Upcoming(slots, cur)
  {
  }

  lemma {:induction false} AlignedConcat(m: Model, a: seq<Output>, b: seq<Output>, x: seq<seq<Req>>, y: seq<seq<Req>>)
    requires Aligned(m, a, x) && Aligned(m, b, y)
    ensures Aligned(m, a + b, x + y)
  {
    NonEmptyConcat(x, y);
  }

  /** The first output on its way answers the first non-empty slot; the others stay aligned. */
  lemma {:induction false} AlignedFirst(m: Model, pending: seq<Output>, slot: seq<Req>, others: seq<seq<Req>>)
    requires Aligned(m, pending, [slot] + others)
    ensures slot == [] ==> Aligned(m, pending, others)
    ensures slot != [] ==> pending != [] && Answers(m, pending[0], slot) && Aligned(m, pending[1..], others)
  {
    assert ([slot] + others)[1..] == others;
    assert NonEmpty([slot] + others) == (if slot == [] then [] else [slot]) + NonEmpty(others);
    if slot == [] {
      assert NonEmpty([slot] + others) == NonEmpty(others);
    } else {
      assert NonEmpty([slot] + others)[1..] == NonEmpty(others);
    }
  }

  lemma {:induction false} AlignedSent(m: Model, out: Output, slot: seq<Req>)
    requires Answers(m, out, slot)
    ensures Aligned(m, if slot == [] then [] else [out], [slot])
  {
    hide Answers;
    assert [slot][1..] == [];
    assert NonEmpty([slot]) == if slot == [] then [] else [slot];
  }

  /** With several stages: the output received in this cycle answers, request by request, the slot
      that is about to be updated; it is there whenever that slot is not empty. */
  lemma {:induction false} RingTurns(c: Config, m: Model, slots: seq<seq<Req>>, cur: nat, slot: seq<Req>,
                                     pending: seq<Output>, out: Output)
    requires cur < |slots| && |slots| > 1
    requires Aligned(m, pending, Upcoming(slots, cur)) && Answers(m, out, slot)
    ensures var next := (cur + 1) % |slots|;
            var sent := if slot == [] then [] else [out];
            && next < |slots|
            && (slots[next] == [] ==> Aligned(m, pending + sent, Upcoming(slots[cur := slot], next)))
            && (slots[next] != [] ==> pending != [] && Answers(m, pending[0], slots[next])
                                      && Aligned(m, pending[1..] + sent, Upcoming(slots[cur := slot], next)))
  {
    hide Answers, Aligned, Upcoming;
    var others := UpcomingTurns(slots, cur, slot);
    var next := (cur + 1) % |slots|;
    var sent := if slot == [] then [] else [out];
    AlignedFirst(m, pending, slots[next], others);
    AlignedSent(m, out, slot);
    if slots[next] == [] {
      AlignedConcat(m, pending, sent, others, [slot]);
    } else {
      AlignedConcat(m, pending[1..], sent, others, [slot]);
    }
  }

  /** No snapshot leaves anything out: slots hold no finished request. */
  lemma {:induction false} SnapshotsAreSlots(c: Config, m: Model, s: State, store: Store, cur: nat, k: nat)
    requires Scheduled(c, m, s, store, cur) && k < |s.slots|
    ensures Snapshot(s.slots[k]) == s.slots[k]
  {
    hide Cached, OnTrack, StoreShape, SlotBudget;
    assert k != cur ==> FlyingSlot(c, m, store, s.slots[k]);
    forall r | r in s.slots[k] ensures r.status == Running {
      var i :| 0 <= i < |s.slots[k]| && r == s.slots[k][i];
      if k == cur { assert Ready(c, m, store, s.slots[k][i]); } else { assert Computed(c, m, store, s.slots[k][i]); }
    }
    SnapshotIsSlot(s.slots[k]);
  }

  /** Delivering an output that answers the current slot completes the cycle. */
  lemma {:induction false} DeliverKeeps(c: Config, m: Model, s: State, store: Store, received: Output,
                                        pending: seq<Output>)
    requires Flown(c, m, s, store) && Answers(m, received, s.slots[s.cur])
    requires Aligned(m, pending, Upcoming(s.slots, s.cur))
    ensures var o := Deliver(c, s, store, received, pending);
            o.Goes? && Inv(c, m, o.sys) && AllKeys(o.sys.sched) == AllKeys(s)
  {
    hide Aligned, Upcoming, Waiting, Conserved, Delivered, RestingSlot, FlyingSlot, AllKeys, Settle, Flat, StoreShape;
    UpdateKeeps(c, m, s, store, received.tokens);
    UpcomingIgnoresCurrent(s.slots, s.cur, Settle(s.slots[s.cur], received.tokens, s.pool).kept);
  }

  /** A cycle whose update slot is empty needs no output. */
  lemma {:induction false} IdleKeeps(c: Config, m: Model, s: State, store: Store, pending: seq<Output>)
    requires Flown(c, m, s, store) && s.slots[s.cur] == []
    requires Aligned(m, pending, Upcoming(s.slots, s.cur))
    ensures Inv(c, m, System(s, store, pending))
  {
    hide Aligned, Upcoming, FlyingSlot, StoreShape, AtRest;
    assert Shaped(c, s);
    EmptySlotRests(c, m, store);
  }

  lemma {:induction false} EmptySlotRests(c: Config, m: Model, store: Store)
    requires ValidConfig(c)
    ensures RestingSlot(c, m, store, [])
  {
  }

  /** An empty batch leaves everything in flight as it was. */
  lemma {:induction false} NothingToInfer(c: Config, m: Model, s: State, store: Store, cur: nat)
    requires Scheduled(c, m, s, store, cur) && s.slots[cur] == []
    ensures Flown(c, m, s, store)
  {
    hide StoreShape, Computed;
    assert ValidConfig(c);
  }

  lemma {:induction false} CycleShape(c: Config, s: State)
    requires Shaped(c, s)
    ensures var s' := Schedule(c, s);
            && |s'.slots| == |s.slots| == c.numSlots
            && s'.cur == (s.cur + 1) % |s.slots|
            && s'.slots == s.slots[s.cur := s'.slots[s.cur]]
            && (c.numSlots > 1 ==> s'.cur != s.cur && s'.slots[s'.cur] == s.slots[s'.cur])
  {
    hide Filled;
    NextSlot(|s.slots|, s.cur);
  }

  /** The state of a cycle between the forward pass and the update. */
  ghost predicate HalfWay(c: Config, m: Model, sys: System, s: State, store: Store, out: Output)
  {
    && Inv(c, m, sys) && s == Schedule(c, sys.sched)
    && Scheduled(c, m, s, sys.store, sys.sched.cur)
    && Snapshot(s.slots[sys.sched.cur]) == s.slots[sys.sched.cur] && Snapshot(s.slots[s.cur]) == s.slots[s.cur]
    && UniformSampling(s.slots[sys.sched.cur]) && (store, out) == Infer(c, m, sys.store, s.slots[sys.sched.cur])
    && Flown(c, m, s, store) && Answers(m, out, s.slots[sys.sched.cur])
    && AllKeys(s) == AllKeys(sys.sched)
  }

  lemma {:induction false} ReachesHalfWay(c: Config, m: Model, sys: System)
    returns (s: State, store: Store, out: Output)
    requires Inv(c, m, sys) && UniformSampling(BatchOf(c, sys))
    ensures HalfWay(c, m, sys, s, store, out)
  {
    hide Schedule, Infer, Flown, Scheduled, Answers, AllKeys, Snapshot, Aligned, Upcoming, RestingSlot, FlyingSlot,
      StoreShape;
    s := Schedule(c, sys.sched);
    ScheduleKeeps(c, m, sys);
    SnapshotsAreSlots(c, m, s, sys.store, sys.sched.cur, sys.sched.cur);
    SnapshotsAreSlots(c, m, s, sys.store, sys.sched.cur, s.cur);
    InferKeeps(c, m, s, sys.store, sys.sched.cur);
    var (after, answer) := Infer(c, m, sys.store, s.slots[sys.sched.cur]);
    store, out := after, answer;
  }

  /** The rest of a turn after the forward pass. */
  function AfterForward(c: Config, sys: System, s: State, store: Store, out: Output): Outcome
    requires Shaped(c, sys.sched) && Shaped(c, s)
  {
    var sent := if s.slots[sys.sched.cur] == [] then [] else [out];
    if s.slots[sys.sched.cur] == [] && s.slots[s.cur] == [] then Goes(System(s, sys.store, sys.pending))
    else if c.numSlots == 1 then Deliver(c, s, store, out, sys.pending)
    else if s.slots[s.cur] == [] then Goes(System(s, store, sys.pending + sent))
    else if sys.pending == [] then Stuck
    else Deliver(c, s, store, sys.pending[0], sys.pending[1..] + sent)
  }

  lemma {:induction false} HalfWayShapes(c: Config, m: Model, sys: System, s: State, store: Store, out: Output)
    requires HalfWay(c, m, sys, s, store, out)
    ensures Shaped(c, sys.sched) && Shaped(c, s)
  {
    hide Schedule, Infer, Scheduled, Answers, Aligned, Upcoming, AllKeys, RestingSlot, FlyingSlot, StoreShape,
      Snapshot, UniformSampling, Waiting, Conserved, Delivered;
  }

  /** A turn whose snapshots are whole slots and whose batch can be sampled together. */
  lemma {:induction false} CycleValue(c: Config, m: Model, sys: System, s: State, store: Store, out: Output)
    requires Shaped(c, sys.sched) && Shaped(c, s) && s == Schedule(c, sys.sched)
    requires Snapshot(s.slots[sys.sched.cur]) == s.slots[sys.sched.cur] && Snapshot(s.slots[s.cur]) == s.slots[s.cur]
    requires UniformSampling(s.slots[sys.sched.cur])
    requires (store, out) == Infer(c, m, sys.store, s.slots[sys.sched.cur])
    ensures Cycle(c, m, sys) == AfterForward(c, sys, s, store, out)
  {
    hide Schedule, Infer, Snapshot, Deliver, UniformSampling;
  }

  lemma {:induction false} TurnRest(c: Config, m: Model, sys: System, s: State, store: Store, out: Output)
    requires HalfWay(c, m, sys, s, store, out)
    ensures Shaped(c, sys.sched) && Shaped(c, s) && Cycle(c, m, sys) == AfterForward(c, sys, s, store, out)
  {
    hide Schedule, Infer, Flown, Scheduled, Answers, AllKeys, Snapshot, AfterForward, Cycle, UniformSampling, Inv;
    HalfWayShapes(c, m, sys, s, store, out);
    CycleValue(c, m, sys, s, store, out);
  }

  /** With one stage the output of the cycle is for the very batch that was just scheduled. */
  lemma {:induction false} OneStage(c: Config, m: Model, sys: System, s: State, store: Store, out: Output)
    requires HalfWay(c, m, sys, s, store, out) && c.numSlots == 1
    ensures var o := Cycle(c, m, sys);
            o.Goes? && Inv(c, m, o.sys) && AllKeys(o.sys.sched) == AllKeys(sys.sched)
  {
    hide Cycle, Schedule, Infer, Flown, Scheduled, Answers, Aligned, AllKeys, RestingSlot, FlyingSlot, StoreShape,
      Snapshot, AfterForward, UniformSampling, Sound;
    TurnRest(c, m, sys, s, store, out);
    CycleShape(c, sys.sched);
    assert Upcoming(sys.sched.slots, 0) == [] && Upcoming(s.slots, 0) == [];
    OwnDelivered(c, m, sys, s, store, out);
  }

  lemma {:induction false} OwnDelivered(c: Config, m: Model, sys: System, s: State, store: Store, out: Output)
    requires Shaped(c, sys.sched) && Shaped(c, s) && c.numSlots == 1 && Upcoming(s.slots, 0) == []
    requires Flown(c, m, s, store) && Scheduled(c, m, s, sys.store, 0) && Answers(m, out, s.slots[0])
    requires Aligned(m, sys.pending, [])
    ensures var o := AfterForward(c, sys, s, store, out);
            o.Goes? && Inv(c, m, o.sys) && AllKeys(o.sys.sched) == AllKeys(s)
  {
    hide Flown, Scheduled, Answers, Aligned, Upcoming, AllKeys, Deliver, Inv;
    if s.slots[0] == [] {
      NothingToInfer(c, m, s, sys.store, 0);
      IdleKeeps(c, m, s, sys.store, sys.pending);
    } else {
      DeliverKeeps(c, m, s, store, out, sys.pending);
    }
  }

  /** With several stages the output received is the oldest, for the slot about to be updated. */
  lemma {:induction false} ManyStages(c: Config, m: Model, sys: System, s: State, store: Store, out: Output)
    requires HalfWay(c, m, sys, s, store, out) && c.numSlots > 1
    ensures var o := Cycle(c, m, sys);
            o.Goes? && Inv(c, m, o.sys) && AllKeys(o.sys.sched) == AllKeys(sys.sched)
  {
    hide Cycle, Schedule, Infer, Flown, Scheduled, Answers, Aligned, Upcoming, AllKeys, RestingSlot, FlyingSlot,
      StoreShape, Snapshot, AfterForward, Sound, UniformSampling;
    TurnRest(c, m, sys, s, store, out);
    CycleShape(c, sys.sched);
    RingTurns(c, m, sys.sched.slots, sys.sched.cur, s.slots[sys.sched.cur], sys.pending, out);
    OldestDelivered(c, m, sys, s, store, out);
  }

  lemma {:induction false} OldestDelivered(c: Config, m: Model, sys: System, s: State, store: Store, out: Output)
    requires Shaped(c, sys.sched) && Shaped(c, s) && c.numSlots > 1
    requires Flown(c, m, s, store) && Scheduled(c, m, s, sys.store, sys.sched.cur)
    requires var sent := if s.slots[sys.sched.cur] == [] then [] else [out];
             if s.slots[s.cur] == [] then Aligned(m, sys.pending + sent, Upcoming(s.slots, s.cur))
             else && sys.pending != [] && Answers(m, sys.pending[0], s.slots[s.cur])
                  && Aligned(m, sys.pending[1..] + sent, Upcoming(s.slots, s.cur))
    ensures var o := AfterForward(c, sys, s, store, out);
            o.Goes? && Inv(c, m, o.sys) && AllKeys(o.sys.sched) == AllKeys(s)
  {
    hide Flown, Scheduled, Answers, Aligned, Upcoming, AllKeys, Deliver, Inv;
    var sent := if s.slots[sys.sched.cur] == [] then [] else [out];
    if s.slots[s.cur] != [] {
      DeliverKeeps(c, m, s, store, sys.pending[0], sys.pending[1..] + sent);
    } else if s.slots[sys.sched.cur] != [] {
      IdleKeeps(c, m, s, store, sys.pending + sent);
    } else {
      assert sys.pending + sent == sys.pending;
      NothingToInfer(c, m, s, sys.store, sys.sched.cur);
      IdleKeeps(c, m, s, sys.store, sys.pending);
    }
  }

  /** One turn of the loop goes on if and only if its batch can be sampled together; then it keeps the invariant
      and loses no request. */
  lemma {:induction false} CycleKeeps(c: Config, m: Model, sys: System)
    requires Inv(c, m, sys)
    ensures Shaped(c, sys.sched)
    ensures var o := Cycle(c, m, sys);
            && (o.Goes? <==> UniformSampling(BatchOf(c, sys)))
            && (o.Goes? ==> Inv(c, m, o.sys) && AllKeys(o.sys.sched) == AllKeys(sys.sched))
  {
    hide Cycle, AllKeys, HalfWay, UniformSampling, BatchOf;
    assert Shaped(c, sys.sched);
    if UniformSampling(BatchOf(c, sys)) {
      var s, store, out := ReachesHalfWay(c, m, sys);
      if c.numSlots == 1 {
        OneStage(c, m, sys, s, store, out);
      } else {
        ManyStages(c, m, sys, s, store, out);
      }
    } else {
      MixedBatchStops(c, m, sys);
    }
  }

  lemma {:induction false} MixedBatchStops(c: Config, m: Model, sys: System)
    requires Shaped(c, sys.sched) && !UniformSampling(BatchOf(c, sys))
    ensures Cycle(c, m, sys).Stuck?
  {
    hide Schedule, Snapshot, Infer, Deliver;
  }

  /** Requests that are all alike never stop the loop. */
  lemma {:induction false} CycleGoes(c: Config, m: Model, sys: System)
    requires Inv(c, m, sys) && AllAlike(AllKeys(sys.sched))
    ensures Shaped(c, sys.sched)
    ensures var o := Cycle(c, m, sys);
            o.Goes? && Inv(c, m, o.sys) && AllKeys(o.sys.sched) == AllKeys(sys.sched)
  {
    hide Inv, Cycle, Schedule, AllKeys, Snapshot, Scheduled, AllAlike, UniformSampling;
    CycleKeeps(c, m, sys);
    ScheduleKeeps(c, m, sys);
    var s := Schedule(c, sys.sched);
    SnapshotsAreSlots(c, m, s, sys.store, sys.sched.cur, sys.sched.cur);
    SlotIsAlike(s, sys.sched.cur);
  }

  lemma {:induction false} SlotIsAlike(s: State, k: nat)
    requires k < |s.slots| && AllAlike(AllKeys(s))
    ensures UniformSampling(s.slots[k])
  {
    hide Gather, Rest, Flat;
    GatherSlots(KeyBag, s.slots, k);
    forall i | 0 <= i < |s.slots[k]| ensures Alike(s.slots[k][0].cfg, s.slots[k][i].cfg) {
      GatherContains(KeyBag, s.slots[k], 0);
      GatherContains(KeyBag, s.slots[k], i);
      assert KeyOf(s.slots[k][0]) in KeyBag(s.slots[k][0]) && KeyOf(s.slots[k][i]) in KeyBag(s.slots[k][i]);
      assert KeyOf(s.slots[k][0]) in AllKeys(s) && KeyOf(s.slots[k][i]) in AllKeys(s);
    }
  }
}
