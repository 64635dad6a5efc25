/** The three phases of a cycle: `schedule`, the forward pass, `update`. */
module PhaseProofs {
  import opened Prelude
  import opened Transformer
  import opened Requests
  import opened Pages
  import opened Cache
  import opened Scheduling
  import opened SchedulingProofs
  import opened Device
  import opened DeviceProofs
  import opened Engine
  import opened Invariants

  lemma {:induction false} FlatSplit(slots: seq<seq<Req>>, k: nat)
    requires k < |slots|
    ensures Flat(slots) == Flat(slots[..k]) + slots[k] + Flat(slots[k + 1..])
  {
    assert slots == slots[..k] + ([slots[k]] + slots[k + 1..]);
    FlatConcat(slots[..k], [slots[k]] + slots[k + 1..]);
    FlatConcat([slots[k]], slots[k + 1..]);
    FlatSingle(slots[k]);
  }

  /** What the slots other than `k` hold, as one bag. */
  ghost function Rest<U>(f: Req -> multiset<U>, slots: seq<seq<Req>>, k: nat): multiset<U>
    requires k < |slots|
  {
    Gather(f, Flat(slots[..k])) + Gather(f, Flat(slots[k + 1..]))
  }

  lemma {:induction false} GatherSlots<U>(f: Req -> multiset<U>, slots: seq<seq<Req>>, k: nat)
    requires k < |slots|
    ensures Gather(f, Flat(slots)) == Gather(f, slots[k]) + Rest(f, slots, k)
  {
    FlatSplit(slots, k);
    var a, b, z := Flat(slots[..k]), slots[k], Flat(slots[k + 1..]);
    GatherConcat(f, a + b, z);
    GatherConcat(f, a, b);
    SwapBag(multiset{}, Gather(f, a), Gather(f, b));
  }

  lemma {:induction false} RestUnchanged<U>(f: Req -> multiset<U>, slots: seq<seq<Req>>, k: nat, slot: seq<Req>)
    requires k < |slots|
    ensures Rest(f, slots[k := slot], k) == Rest(f, slots, k)
  {
    assert slots[k := slot][..k] == slots[..k];
    assert slots[k := slot][k + 1..] == slots[k + 1..];
  }

  lemma {:induction false} SnapshotIsSlot(slot: seq<Req>)
    requires forall r :: r in slot ==> r.status == Running
    ensures Snapshot(slot) == slot
  {
    if slot != [] {
      SnapshotIsSlot(slot[1..]);
      assert slot == [slot[0]] + slot[1..];
    }
  }

  /** What a finished `schedule` loop leaves: a batch that is ready and within every budget, and no
      page and no request lost. */
  ghost predicate WellFilled(c: Config, m: Model, store: Store, rest: multiset<int>, keys: multiset<Key>, w: Work)
    requires ValidConfig(c)
  {
    && SlotBudget(c, w.active)
    && (forall i :: 0 <= i < |w.active| ==> Ready(c, m, store, w.active[i]))
    && (forall r :: r in w.queue ==> Waiting(m, r))
    && Conserved(c, w.pool, Owned(w.active) + rest)
    && KeysOf(w) == keys
    && Steps(w.active) <= c.maxTokens
  }

  lemma {:induction false} FilledKeeps(c: Config, m: Model, store: Store, s: State, rest: multiset<int>)
    requires Shaped(c, s) && RestingSlot(c, m, store, s.slots[s.cur])
    requires forall r :: r in s.queue ==> Waiting(m, r)
    requires Conserved(c, s.pool, Owned(s.slots[s.cur]) + rest)
    ensures WellFilled(c, m, store, rest, Keys(s.slots[s.cur]) + Keys(s.queue), Filled(c, s))
  {
    hide Working, KeysOf, RestingSlot, Waiting, Conserved, WellFilled;
    var w0 := WorkOf(c, s);
    StartIsWorking(c, m, store, s, rest);
    PlanAllKeeps(c, m, store, rest, w0);
    var w1 := PlanAll(c, w0);
    SeqsBudgetFits(c, w1, OtherInflight(s));
    KeysOfStart(c, s);
    AdmittedSlot(c, m, store, rest, w1, SeqsBudget(c, w1, OtherInflight(s)));
  }

  lemma {:induction false} AdmittedSlot(c: Config, m: Model, store: Store, rest: multiset<int>, w: Work, seqs: int)
    requires ValidConfig(c) && Working(c, m, store, rest, w) && w.next == |w.active| && |w.active| + seqs <= c.maxSeqs
    ensures WellFilled(c, m, store, rest, KeysOf(w), Admit(c, w, seqs))
  {
    hide Working, KeysOf, Admit, Waiting, Conserved, SlotBudget, Ready;
    AdmitKeeps(c, m, store, rest, w, seqs);
    var w' := Admit(c, w, seqs);
    WholeSlotPlanned(c, m, store, rest, w');
    KeysIgnoreNext(w', |w'.active|);
  }

  lemma {:induction false} StartIsWorking(c: Config, m: Model, store: Store, s: State, rest: multiset<int>)
    requires Shaped(c, s) && RestingSlot(c, m, store, s.slots[s.cur])
    requires forall r :: r in s.queue ==> Waiting(m, r)
    requires Conserved(c, s.pool, Owned(s.slots[s.cur]) + rest)
    ensures Working(c, m, store, rest, WorkOf(c, s))
  {
    hide AtRest, Waiting, Conserved;
    assert WorkOf(c, s).active[..0] == [];
  }

  lemma {:induction false} KeysOfStart(c: Config, s: State)
    requires Shaped(c, s)
    ensures KeysOf(WorkOf(c, s)) == Keys(s.slots[s.cur]) + Keys(s.queue)
  {
  }

  lemma {:induction false} SeqsBudgetFits(c: Config, w: Work, others: nat)
    requires ValidConfig(c)
    ensures |w.active| + SeqsBudget(c, w, others) <= c.maxSeqs
  {
  }

  lemma {:induction false} WholeSlotPlanned(c: Config, m: Model, store: Store, rest: multiset<int>, w: Work)
    requires ValidConfig(c) && Working(c, m, store, rest, w.(next := |w.active|))
    ensures SlotBudget(c, w.active) && Steps(w.active) <= c.maxTokens
    ensures forall i :: 0 <= i < |w.active| ==> Ready(c, m, store, w.active[i])
    ensures forall r :: r in w.queue ==> Waiting(m, r)
    ensures Conserved(c, w.pool, Owned(w.active) + rest)
  {
    hide Ready, AtRest, Waiting, Conserved;
    assert w.active[..|w.active|] == w.active;
    StepsBound(w.active);
  }

  /** The invariant of the loop in `update`, over what is left of the slot. */
  lemma {:induction false} SettleKeeps(c: Config, m: Model, store: Store, active: seq<Req>, tokens: seq<Token>,
                                       pool: Pool, rest: multiset<int>)
    requires ValidConfig(c) && RightTokens(m, active, tokens)
    requires forall i :: 0 <= i < |active| ==> Computed(c, m, store, active[i])
    requires Conserved(c, pool, Owned(active) + rest)
    ensures var d := Settle(active, tokens, pool);
            && |d.kept| <= |active|
            && (forall i :: 0 <= i < |d.kept| ==> AtRest(c, m, store, d.kept[i]))
            && (forall r :: r in d.finished ==> Delivered(m, r))
            && Conserved(c, d.pool, Owned(d.kept) + rest)
            && Keys(d.kept) + Keys(d.finished) == Keys(active)
  {
    hide AtRest, Computed, Delivered, Conserved, Released, Expected, Completes, Absorb;
    if active != [] {
      var r, token := active[0], tokens[0];
      SettleOne(c, m, store, r, token);
      assert RightTokens(m, active[1..], tokens[1..]);
      var own, others := multiset(r.blocks), Owned(active[1..]);
      RotateBag(own, others, rest);
      if Completes(r, token) {
        ReleaseConserves(c, pool, others + rest, r.blocks);
        SettleKeeps(c, m, store, active[1..], tokens[1..], Released(pool, r.blocks), rest);
        var d := Settle(active[1..], tokens[1..], Released(pool, r.blocks));
        var f := Absorb(r, token).Finish();
        assert ([f] + d.finished)[0] == f && ([f] + d.finished)[1..] == d.finished;
        RotateBag(KeyBag(f), Keys(d.finished), Keys(d.kept));
        RotateBag(KeyBag(f), Keys(d.kept), Keys(d.finished));
      } else {
        SettleKeeps(c, m, store, active[1..], tokens[1..], pool, own + rest);
        var d := Settle(active[1..], tokens[1..], pool);
        var k := Absorb(r, token);
        assert ([k] + d.kept)[0] == k && ([k] + d.kept)[1..] == d.kept;
        RotateBag(own, Owned(d.kept), rest);
      }
    }
  }

  lemma {:induction false} SettleOne(c: Config, m: Model, store: Store, r: Req, token: Token)
    requires ValidConfig(c) && Computed(c, m, store, r)
    requires !MidPrefill(r) ==> token == Expected(m, r)
    ensures !Completes(r, token) ==> AtRest(c, m, store, Absorb(r, token))
    ensures Completes(r, token) ==> Delivered(m, Absorb(r, token).Finish())
    ensures KeyOf(Absorb(r, token)) == KeyOf(r) && KeyOf(Absorb(r, token).Finish()) == KeyOf(r)
    ensures Absorb(r, token).blocks == r.blocks
  {
    hide Cached, Decode, Stops;
    AbsorbKeeps(c, m, r, token);
    CachedGrows(c, m, store, r, Absorb(r, token), r.computed);
  }

  /** With chunked prefill the last request of what stays is still the only one that may be mid-prefill. */
  lemma {:induction false} SettleOnlyLastMid(active: seq<Req>, tokens: seq<Token>, pool: Pool)
    requires |tokens| == |active| && OnlyLastMid(active)
    ensures OnlyLastMid(Settle(active, tokens, pool).kept)
    ensures |Settle(active, tokens, pool).kept| <= |active|
  {
    if active != [] {
      assert OnlyLastMid(active[1..]);
      if Completes(active[0], tokens[0]) {
        SettleOnlyLastMid(active[1..], tokens[1..], Released(pool, active[0].blocks));
      } else {
        SettleOnlyLastMid(active[1..], tokens[1..], pool);
      }
    }
  }

  lemma {:induction false} ScheduleKeeps(c: Config, m: Model, sys: System)
    requires Inv(c, m, sys)
    ensures Scheduled(c, m, Schedule(c, sys.sched), sys.store, sys.sched.cur)
    ensures AllKeys(Schedule(c, sys.sched)) == AllKeys(sys.sched)
    ensures Steps(Schedule(c, sys.sched).slots[sys.sched.cur]) <= c.maxTokens
  {
    hide RestingSlot, FlyingSlot, Waiting, Conserved, Delivered, Aligned, StoreShape, Ready, SlotBudget, Filled,
      Gather, Rest, Flat, Upcoming, Snapshot;
    var s, k := sys.sched, sys.sched.cur;
    SlotPages(c, s.pool, s.slots, k);
    FilledKeeps(c, m, sys.store, s, Rest(BlocksOf, s.slots, k));
    var w := Filled(c, s);
    SlotPagesBack(c, w.pool, s.slots, k, w.active);
    ScheduleKeys(c, s, w);
  }

  lemma {:induction false} SlotPages(c: Config, pool: Pool, slots: seq<seq<Req>>, k: nat)
    requires k < |slots| && Conserved(c, pool, Owned(Flat(slots)))
    ensures Conserved(c, pool, Owned(slots[k]) + Rest(BlocksOf, slots, k))
  {
    hide Conserved, Rest, Flat;
    GatherSlots(BlocksOf, slots, k);
  }

  lemma {:induction false} SlotPagesBack(c: Config, pool: Pool, slots: seq<seq<Req>>, k: nat, slot: seq<Req>)
    requires k < |slots| && Conserved(c, pool, Owned(slot) + Rest(BlocksOf, slots, k))
    ensures Conserved(c, pool, Owned(Flat(slots[k := slot])))
  {
    hide Conserved, Rest, Flat;
    GatherSlots(BlocksOf, slots[k := slot], k);
    RestUnchanged(BlocksOf, slots, k, slot);
  }

  lemma {:induction false} ScheduleKeys(c: Config, s: State, w: Work)
    requires Shaped(c, s) && w == Filled(c, s)
    requires KeysOf(w) == Keys(s.slots[s.cur]) + Keys(s.queue)
    ensures AllKeys(Schedule(c, s)) == AllKeys(s)
  {
    hide Filled, Gather;
    var k := s.cur;
    var rest := Rest(KeyBag, s.slots, k);
    var done := Keys(Flat(s.results));
    GatherSlots(KeyBag, s.slots, k);
    GatherSlots(KeyBag, s.slots[k := w.active], k);
    RestUnchanged(KeyBag, s.slots, k, w.active);
    assert AllKeys(s) == Keys(s.queue) + (Keys(s.slots[k]) + rest) + done;
    assert AllKeys(Schedule(c, s)) == Keys(w.queue) + (Keys(w.active) + rest) + done;
    Regroup(Keys(s.queue), Keys(s.slots[k]), rest);
    Regroup(Keys(w.queue), Keys(w.active), rest);
  }

  lemma {:induction false} Regroup<U>(a: multiset<U>, b: multiset<U>, r: multiset<U>)
    ensures a + (b + r) == (b + a) + r
  {
  }

  /** Every position a request's table covers has a page. */
  lemma {:induction false} CoveredHasPage(c: Config, pool: Pool, all: seq<Req>, k: nat, n: int)
    requires ValidConfig(c) && Conserved(c, pool, Owned(all)) && k < |all| && PagesFor(c, n) <= |all[k].blocks|
    ensures forall p :: 0 <= p < n ==> PageAt(c, all[k].blocks, p) != -1
  {
    hide Conserved;
    forall p | 0 <= p < n ensures PageAt(c, all[k].blocks, p) != -1 {
      PositionHasPage(c, n, p);
      OwnedPage(c, pool, all, k, p / c.pageSize);
    }
  }

  lemma {:induction false} ReadyIsCovered(c: Config, m: Model, store: Store, r: Req)
    requires ValidConfig(c) && Ready(c, m, store, r)
    ensures PagesFor(c, r.computed) <= |r.blocks|
  {
    CeilDivMonotone(r.computed, Max(|r.input|, r.computed), c.pageSize);
  }

  lemma {:induction false} BatchIsAmong(c: Config, m: Model, s: State, store: Store, cur: nat)
    requires Scheduled(c, m, s, store, cur)
    ensures Among(c, m, store, s.slots[cur], Flat(s.slots), |Flat(s.slots[..cur])|)
  {
    hide Ready, FlyingSlot, Waiting, Conserved, Delivered, StoreShape, SlotBudget, PagesFor, PageAt, Exclusive, Slot;
    var all, batch, pre := Flat(s.slots), s.slots[cur], |Flat(s.slots[..cur])|;
    FlatSplit(s.slots, cur);
    ConservedIsExclusive(c, s.pool, all);
    forall i, p | 0 <= i < |batch| && 0 <= p < batch[i].computed ensures PageAt(c, batch[i].blocks, p) != -1 {
      ReadyIsCovered(c, m, store, batch[i]);
      assert all[pre + i] == batch[i];
      CoveredHasPage(c, s.pool, all, pre + i, batch[i].computed);
    }
  }

  /** A request of another slot, by its place among all requests that hold pages. */
  lemma {:induction false} OtherPlace(slots: seq<seq<Req>>, cur: nat, k: nat, i: nat) returns (at: nat)
    requires cur < |slots| && k < |slots| && k != cur && i < |slots[k]|
    ensures at < |Flat(slots)| && Flat(slots)[at] == slots[k][i]
    ensures !(|Flat(slots[..cur])| <= at < |Flat(slots[..cur])| + |slots[cur]|)
  {
    at := |Flat(slots[..k])| + i;
    FlatSplit(slots, k);
    FlatSplit(slots, cur);
    if k < cur {
      FlatSplit(slots[..cur], k);
      assert slots[..cur][..k] == slots[..k];
    } else {
      FlatSplit(slots[..k], cur);
      assert slots[..k][..cur] == slots[..cur];
    }
  }

  lemma {:induction false} OtherSlotFlies(c: Config, m: Model, s: State, store: Store, cur: nat, after: Store, k: nat)
    requires Scheduled(c, m, s, store, cur) && k < |s.slots| && k != cur
    requires Among(c, m, store, s.slots[cur], Flat(s.slots), |Flat(s.slots[..cur])|)
    requires |after| == m.layers && forall l :: 0 <= l < m.layers ==> Written(c, s.slots[cur], l, store[l], after[l])
    ensures FlyingSlot(c, m, after, s.slots[k])
  {
    hide Ready, Waiting, Conserved, Delivered, StoreShape, SlotBudget, Among, Written, Issued, Slot, PageAt, Flat;
    assert FlyingSlot(c, m, store, s.slots[k]);
    forall i | 0 <= i < |s.slots[k]| ensures Computed(c, m, after, s.slots[k][i]) {
      assert Computed(c, m, store, s.slots[k][i]);
      var at := OtherPlace(s.slots, cur, k, i);
      CoveredHasPage(c, s.pool, Flat(s.slots), at, s.slots[k][i].computed);
      OthersStayCached(c, m, store, after, s.slots[cur], Flat(s.slots), |Flat(s.slots[..cur])|, at,
                       s.slots[k][i].computed);
    }
  }

  /** The forward pass completes the caches of the batch, leaves every other slot's intact, and its
      output answers the batch. */
  lemma {:induction false} InferKeeps(c: Config, m: Model, s: State, store: Store, cur: nat)
    requires Scheduled(c, m, s, store, cur) && UniformSampling(s.slots[cur])
    ensures var (after, out) := Infer(c, m, store, s.slots[cur]);
            Flown(c, m, s, after) && Answers(m, out, s.slots[cur])
  {
    hide Forward, Among, RowsAreIdeal, Select, Written, RightTokens, StoreShape, SlotBudget, Ready, Waiting,
      Conserved, Delivered, Flat, Gather;
    var batch, all, pre := s.slots[cur], Flat(s.slots), |Flat(s.slots[..cur])|;
    BatchIsAmong(c, m, s, store, cur);
    ForwardEffect(c, m, store, batch, all, pre);
    var (after, hidden) := Forward(c, store, batch);
    ShapeKept(c, m, store, batch, after);
    BatchTokens(c, m, store, batch, all, pre, hidden);
    BatchFlies(c, m, store, after, batch, all, pre);
    EverySlotFlies(c, m, s, store, cur, after);
  }

  lemma {:induction false} EverySlotFlies(c: Config, m: Model, s: State, store: Store, cur: nat, after: Store)
    requires Scheduled(c, m, s, store, cur) && FlyingSlot(c, m, after, s.slots[cur])
    requires Among(c, m, store, s.slots[cur], Flat(s.slots), |Flat(s.slots[..cur])|)
    requires |after| == m.layers && forall l :: 0 <= l < m.layers ==> Written(c, s.slots[cur], l, store[l], after[l])
    ensures forall k :: 0 <= k < |s.slots| ==> FlyingSlot(c, m, after, s.slots[k])
  {
    hide Among, FlyingSlot, Ready, Written, Flat, SlotBudget, StoreShape;
    assert ValidConfig(c);
    forall k | 0 <= k < |s.slots| ensures FlyingSlot(c, m, after, s.slots[k]) {
      if k != cur { OtherSlotFlies(c, m, s, store, cur, after, k); }
    }
  }

  lemma {:induction false} BatchTokens(c: Config, m: Model, store: Store, batch: seq<Req>, all: seq<Req>, pre: nat,
                                       hidden: seq<Hidden>)
    requires ValidConfig(c) && Among(c, m, store, batch, all, pre)
    requires |hidden| == QueryStart(batch, |batch|) && RowsAreIdeal(c, batch, m.layers, hidden)
    requires UniformSampling(batch)
    ensures RightTokens(m, batch, Select(m, batch, hidden))
  {
    hide Among, RowsAreIdeal, Ready, Select, Expected, UniformSampling;
    forall i | 0 <= i < |batch|
      ensures batch[i].WellFormed() && (!MidPrefill(batch[i]) ==> Select(m, batch, hidden)[i] == Expected(m, batch[i]))
    {
      BatchIsReady(c, m, store, batch, all, pre, i);
      ReadyIsWellFormed(c, m, store, batch[i]);
      if !MidPrefill(batch[i]) { TokensAreExpected(c, m, store, batch, all, pre, hidden, i); }
    }
  }

  lemma {:induction false} ReadyIsWellFormed(c: Config, m: Model, store: Store, r: Req)
    requires ValidConfig(c) && Ready(c, m, store, r)
    ensures r.WellFormed()
  {
  }

  lemma {:induction false} ShapeKept(c: Config, m: Model, store: Store, batch: seq<Req>, after: Store)
    requires ValidConfig(c) && StoreShape(c, m, store) && |after| == m.layers
    requires forall l :: 0 <= l < m.layers ==> Written(c, batch, l, store[l], after[l])
    ensures StoreShape(c, m, after)
  {
    hide RowOk, Rows, Load, Ideal;
    forall l | 0 <= l < |after| ensures |after[l]| == c.maxBlocks * c.pageSize {
      assert Written(c, batch, l, store[l], after[l]);
    }
  }

  lemma {:induction false} BatchFlies(c: Config, m: Model, store: Store, after: Store, batch: seq<Req>, all: seq<Req>,
                                      pre: nat)
    requires ValidConfig(c) && Among(c, m, store, batch, all, pre) && |after| == m.layers && SlotBudget(c, batch)
    requires forall l :: 0 <= l < m.layers ==> Written(c, batch, l, store[l], after[l])
    ensures FlyingSlot(c, m, after, batch)
  {
    hide Among, Written, Cached, SlotBudget;
    forall i | 0 <= i < |batch| ensures Computed(c, m, after, batch[i]) {
      BatchIsReady(c, m, store, batch, all, pre, i);
      BatchIsCached(c, m, store, after, batch, all, pre, i);
    }
  }

  /** `update` with the right tokens brings the slot to rest; what finishes is the reference output. */
  lemma {:induction false} UpdateKeeps(c: Config, m: Model, s: State, store: Store, tokens: seq<Token>)
    requires Flown(c, m, s, store) && RightTokens(m, s.slots[s.cur], tokens)
    ensures var s' := Update(c, s, tokens);
            && RestingSlot(c, m, store, s'.slots[s'.cur])
            && (forall k :: 0 <= k < |s'.slots| && k != s'.cur ==> FlyingSlot(c, m, store, s'.slots[k]))
            && Conserved(c, s'.pool, Owned(Flat(s'.slots)))
            && (forall r :: r in Flat(s'.results) ==> Delivered(m, r))
            && AllKeys(s') == AllKeys(s)
  {
    hide Flown, Settle, RestingSlot, FlyingSlot, Conserved, Delivered, Rest, Flat, Owned, Keys, AllKeys;
    SettleSlot(c, m, s, store, tokens);
    FlownFacts(c, m, s, store);
    var d := Settle(s.slots[s.cur], tokens, s.pool);
    SlotPagesBack(c, d.pool, s.slots, s.cur, d.kept);
    ResultsGrow(m, s.results, d.finished);
    UpdateKeys(c, s, d);
  }

  /** What a state after the forward pass says of slots and results. */
  lemma {:induction false} FlownFacts(c: Config, m: Model, s: State, store: Store)
    requires Flown(c, m, s, store)
    ensures Shaped(c, s) && (forall k :: 0 <= k < |s.slots| ==> FlyingSlot(c, m, store, s.slots[k]))
    ensures forall r :: r in Flat(s.results) ==> Delivered(m, r)
    ensures Conserved(c, s.pool, Owned(Flat(s.slots)))
  {
    hide FlyingSlot, Delivered, Flat, Conserved, Owned, Waiting, StoreShape;
  }

  lemma {:induction false} ResultsGrow(m: Model, results: seq<seq<Req>>, finished: seq<Req>)
    requires forall r :: r in Flat(results) ==> Delivered(m, r)
    requires forall r :: r in finished ==> Delivered(m, r)
    ensures forall r :: r in Flat(if finished == [] then results else results + [finished]) ==> Delivered(m, r)
  {
    hide Delivered, Flat;
    FlatConcat(results, [finished]);
    FlatSingle(finished);
  }

  lemma {:induction false} SettleSlot(c: Config, m: Model, s: State, store: Store, tokens: seq<Token>)
    requires Flown(c, m, s, store) && RightTokens(m, s.slots[s.cur], tokens)
    ensures var d := Settle(s.slots[s.cur], tokens, s.pool);
            && RestingSlot(c, m, store, d.kept)
            && (forall r :: r in d.finished ==> Delivered(m, r))
            && Conserved(c, d.pool, Owned(d.kept) + Rest(BlocksOf, s.slots, s.cur))
            && Keys(d.kept) + Keys(d.finished) == Keys(s.slots[s.cur])
  {
    hide Flown, Conserved, Delivered, Settle, RightTokens, Gather, Rest, Flat, FlyingSlot, RestingSlot;
    FlownFacts(c, m, s, store);
    SlotPages(c, s.pool, s.slots, s.cur);
    FlyingSettles(c, m, store, s.slots[s.cur], tokens, s.pool, Rest(BlocksOf, s.slots, s.cur));
  }

  lemma {:induction false} FlyingSettles(c: Config, m: Model, store: Store, slot: seq<Req>, tokens: seq<Token>,
                                         pool: Pool, rest: multiset<int>)
    requires ValidConfig(c) && FlyingSlot(c, m, store, slot) && RightTokens(m, slot, tokens)
    requires Conserved(c, pool, Owned(slot) + rest)
    ensures var d := Settle(slot, tokens, pool);
            && RestingSlot(c, m, store, d.kept)
            && (forall r :: r in d.finished ==> Delivered(m, r))
            && Conserved(c, d.pool, Owned(d.kept) + rest)
            && Keys(d.kept) + Keys(d.finished) == Keys(slot)
  {
    hide Conserved, Delivered, AtRest, Computed, Settle, Gather, OnlyLastMid;
    assert |tokens| == |slot|;
    SettleKeeps(c, m, store, slot, tokens, pool, rest);
    SettleOnlyLastMid(slot, tokens, pool);
  }

  lemma {:induction false} UpdateKeys(c: Config, s: State, d: Settled)
    requires Shaped(c, s) && Keys(d.kept) + Keys(d.finished) == Keys(s.slots[s.cur])
    ensures AllKeys(s.(slots := s.slots[s.cur := d.kept], pool := d.pool,
                       results := if d.finished == [] then s.results else s.results + [d.finished])) == AllKeys(s)
  {
    var k := s.cur;
    var rest := Rest(KeyBag, s.slots, k);
    GatherSlots(KeyBag, s.slots, k);
    GatherSlots(KeyBag, s.slots[k := d.kept], k);
    RestUnchanged(KeyBag, s.slots, k, d.kept);
    FlatConcat(s.results, [d.finished]);
    FlatSingle(d.finished);
    GatherConcat(KeyBag, Flat(s.results), d.finished);
    if d.finished != [] {
      MoveBag(Keys(s.queue), Keys(d.kept), rest, Keys(Flat(s.results)), Keys(d.finished));
    }
  }

  lemma {:induction false} MoveBag<U>(q: multiset<U>, k: multiset<U>, r: multiset<U>, d: multiset<U>, f: multiset<U>)
    ensures q + (k + r) + (d + f) == q + ((k + f) + r) + d
  {
  }
}
