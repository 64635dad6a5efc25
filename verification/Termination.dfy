/** Preemption cannot livelock: with any number of stages, every request that can finish does. */
module Termination {
  import opened Prelude
  import opened Transformer
  import opened Requests
  import opened Pages
  import opened Cache
  import opened Scheduling
  import opened SchedulingProofs
  import opened Device
  import opened DeviceProofs
  import opened Engine
  import opened Invariants
  import opened PhaseProofs
  import opened EngineProofs
  import opened Runs

  /** Positions that are computed for a request: its prompt and what the plain loop generates, without the last
      token, which is never fed back. */
  function Length(m: Model, key: Key): int
    requires key.prompt != []
  {
    |key.prompt| + |Reference(m, key.cfg, key.prompt)| - 1
  }

  /** A request that fits the cache when it is alone. */
  ghost predicate Fits(c: Config, m: Model, key: Key)
    requires ValidConfig(c)
  {
    key.prompt != [] && PagesFor(c, Length(m, key)) <= c.maxBlocks
  }

  /** A request that can be prefilled again at any length: in chunks, or within the token budget. */
  ghost predicate Plannable(c: Config, m: Model, key: Key)
  {
    key.prompt != [] && (c.chunked || Length(m, key) <= c.maxTokens)
  }

  /** What can be told before a request runs: it fits if its longest output does. */
  lemma {:induction false} LongestFits(c: Config, m: Model, key: Key)
    requires ValidConfig(c) && key.prompt != []
    requires PagesFor(c, |key.prompt| + Longest(key.cfg, |key.prompt|) - 1) <= c.maxBlocks
    ensures Fits(c, m, key)
  {
    DecodeLength(m, key.cfg, key.prompt, []);
    CeilDivMonotone(Length(m, key), |key.prompt| + Longest(key.cfg, |key.prompt|) - 1, c.pageSize);
  }

  /** Tokens a request may still generate; at least one until it finishes. */
  function Left(r: Req): int { Longest(r.cfg, r.promptLen) - |r.generated| }

  ghost function LeftBag(r: Req): multiset<int> { multiset{}[0 := Max(0, Left(r))] }

  /** Tokens still to be generated by all of `s`. */
  ghost function TotalLeft(s: seq<Req>): nat { Gather(LeftBag, s)[0] }

  /** Tokens still to be generated by everything in the engine. */
  ghost function Remaining(s: State): nat { TotalLeft(s.queue) + TotalLeft(Flat(s.slots)) }

  predicate EndsMid(slot: seq<Req>) { slot != [] && MidPrefill(slot[|slot| - 1]) }

  function PrefillLeft(slot: seq<Req>): nat
  {
    if EndsMid(slot) then |slot[|slot| - 1].input| - slot[|slot| - 1].computed else 0
  }

  lemma {:induction false} LeftIsPositive(m: Model, r: Req)
    requires OnTrack(m, r)
    ensures Left(r) >= 1
  {
    hide Decode;
  }

  lemma {:induction false} TotalLeftConcat(a: seq<Req>, b: seq<Req>)
    ensures TotalLeft(a + b) == TotalLeft(a) + TotalLeft(b)
  {
    GatherConcat(LeftBag, a, b);
  }

  lemma {:induction false} TotalLeftSingle(r: Req)
    ensures TotalLeft([r]) == Max(0, Left(r))
  {
    GatherSingle(LeftBag, r);
  }

  lemma {:induction false} TotalLeftRemove(s: seq<Req>, v: nat)
    requires v < |s|
    ensures TotalLeft(s) == TotalLeft(Remove(s, v)) + Max(0, Left(s[v]))
  {
    GatherRemove(LeftBag, s, v);
  }

  lemma {:induction false} TotalLeftUpdate(s: seq<Req>, i: nat, r: Req)
    requires i < |s| && Left(r) == Left(s[i])
    ensures TotalLeft(s[i := r]) == TotalLeft(s)
  {
    GatherUpdate(LeftBag, s, i, r);
    assert LeftBag(r) == LeftBag(s[i]);
    CancelBag(Gather(LeftBag, s[i := r]), LeftBag(r), Gather(LeftBag, s), multiset{});
  }

  ghost function WorkLeft(w: Work): nat { TotalLeft(w.active) + TotalLeft(w.queue) }

  lemma {:induction false} EvictLeft(w: Work, v: nat)
    requires v < |w.active|
    ensures WorkLeft(Evict(w, v)) == WorkLeft(w)
  {
    hide Released;
    TotalLeftRemove(w.active, v);
    TotalLeftConcat(w.queue, [w.active[v].Fold()]);
    TotalLeftSingle(w.active[v].Fold());
  }

  lemma {:induction false} PlannedLeft(c: Config, w: Work)
    requires w.next < |w.active|
    ensures WorkLeft(Planned(c, w)) == WorkLeft(w)
  {
    hide Plan;
    TotalLeftUpdate(w.active, w.next, Planned(c, w).active[w.next]);
  }

  lemma {:induction false} ExtendLeft(c: Config, w: Work)
    requires ValidConfig(c) && w.next < |w.active| && Extend(c, w).Some?
    ensures WorkLeft(Extend(c, w).value) == WorkLeft(w)
  {
    hide Allocate;
    TotalLeftUpdate(w.active, w.next, Extend(c, w).value.active[w.next]);
  }

  lemma {:induction false} PlanNextLeft(c: Config, w: Work)
    requires ValidConfig(c) && w.next < |w.active|
    ensures WorkLeft(PlanNext(c, w)) == WorkLeft(w)
  {
    hide Plan, Extend, Evict, Planned, TotalLeft;
    var w1 := Planned(c, w);
    PlannedLeft(c, w);
    PlannedShape(c, w);
    if Extend(c, w1).Some? {
      ExtendLeft(c, w1);
    } else {
      var v := LeastProgress(w1.active);
      EvictLeft(w1, v);
      EvictShape(w1, v);
      if v != w.next && Extend(c, Evict(w1, v)).Some? {
        ExtendLeft(c, Evict(w1, v));
      }
    }
  }

  lemma {:induction false} PlannedShape(c: Config, w: Work)
    requires w.next < |w.active|
    ensures |Planned(c, w).active| == |w.active| && Planned(c, w).next == w.next
  {
  }

  lemma {:induction false} EvictShape(w: Work, v: nat)
    requires v < |w.active|
    ensures v != w.next < |w.active| ==> Evict(w, v).next < |Evict(w, v).active|
  {
  }

  lemma {:induction false} PlanAllLeft(c: Config, w: Work)
    requires ValidConfig(c) && w.next <= |w.active|
    ensures WorkLeft(PlanAll(c, w)) == WorkLeft(w)
    decreases |w.active| - w.next
  {
    hide PlanNext, WorkLeft;
    if w.next < |w.active| {
      PlanNextLeft(c, w);
      PlanAllLeft(c, PlanNext(c, w));
    }
  }

  lemma {:induction false} AdmitLeft(c: Config, w: Work, seqs: int)
    requires ValidConfig(c)
    ensures WorkLeft(Admit(c, w, seqs)) == WorkLeft(w)
    ensures w.active <= Admit(c, w, seqs).active
    ensures w.budget <= 0 ==> Admit(c, w, seqs).active == w.active
    decreases Max(0, seqs)
  {
    hide Plan, Allocate, TotalLeft;
    if w.budget > 0 && seqs > 0 && w.queue != [] {
      var r := w.queue[0];
      var (tokens, upTo) := Plan(c, r, w.budget);
      assert w.queue == [r] + w.queue[1..];
      TotalLeftConcat([r], w.queue[1..]);
      TotalLeftConcat(w.queue[1..], [r]);
      var a := Allocate(c, w.pool, |r.input|, 0);
      if w.budget >= tokens && a.Some? {
        var r' := r.Activate(a.value).(step := tokens, computed := upTo);
        TotalLeftConcat(w.active, [r']);
        TotalLeftSingle(r);
        TotalLeftSingle(r');
        AdmitLeft(c, w.(active := w.active + [r'], queue := w.queue[1..],
                        pool := Taken(w.pool, a.value), budget := w.budget - tokens), seqs - 1);
      }
    }
  }

  lemma {:induction false} FilledLeft(c: Config, s: State)
    requires Shaped(c, s)
    ensures WorkLeft(Filled(c, s)) == TotalLeft(s.queue) + TotalLeft(s.slots[s.cur])
  {
    hide PlanAll, SeqsBudget, Admit, TotalLeft, OtherInflight;
    var w1 := PlanAll(c, WorkOf(c, s));
    PlanAllLeft(c, WorkOf(c, s));
    AdmitLeft(c, w1, SeqsBudget(c, w1, OtherInflight(s)));
  }

  /** Requests of a batch that yield a token. */
  function Yielding(s: seq<Req>): nat
  {
    if s == [] then 0 else (if MidPrefill(s[0]) then 0 else 1) + Yielding(s[1..])
  }

  /** Each yielded token is one token less to generate. */
  lemma {:induction false} SettleLeft(m: Model, active: seq<Req>, tokens: seq<Token>, pool: Pool)
    requires |tokens| == |active| && forall i :: 0 <= i < |active| ==> OnTrack(m, active[i])
    ensures TotalLeft(Settle(active, tokens, pool).kept) + Yielding(active) <= TotalLeft(active)
    ensures Yielding(active) == 0 ==> Settle(active, tokens, pool).kept == active
  {
    if active != [] {
      var r, token := active[0], tokens[0];
      LeftIsPositive(m, r);
      assert active == [r] + active[1..];
      TotalLeftConcat([r], active[1..]);
      TotalLeftSingle(r);
      if Completes(r, token) {
        SettleLeft(m, active[1..], tokens[1..], Released(pool, r.blocks));
      } else {
        SettleLeft(m, active[1..], tokens[1..], pool);
        var kept := Settle(active[1..], tokens[1..], pool).kept;
        TotalLeftConcat([Absorb(r, token)], kept);
        TotalLeftSingle(Absorb(r, token));
      }
    }
  }

  lemma {:induction false} SomeYield(s: seq<Req>, i: nat)
    requires i < |s| && !MidPrefill(s[i])
    ensures Yielding(s) >= 1
  {
    if i > 0 { SomeYield(s[1..], i - 1); }
  }

  ghost predicate AllFit(c: Config, m: Model, keys: multiset<Key>)
    requires ValidConfig(c)
  {
    forall key :: key in keys ==> Fits(c, m, key) && Plannable(c, m, key)
  }

  lemma {:induction false} ActiveFits(c: Config, m: Model, w: Work, i: nat)
    requires ValidConfig(c) && AllFit(c, m, KeysOf(w)) && i < |w.active|
    ensures Fits(c, m, KeyOf(w.active[i]))
  {
    hide Fits, Plannable;
    GatherContains(KeyBag, w.active, i);
    assert KeyOf(w.active[i]) in KeyBag(w.active[i]);
  }

  /** The text of a request on track is shorter than its prompt with all it will generate. */
  lemma {:induction false} TextLength(m: Model, r: Req)
    requires OnTrack(m, r)
    ensures KeyOf(r).prompt != [] && |r.Text()| <= Length(m, KeyOf(r))
  {
    DecodeLength(m, r.cfg, r.Prompt(), r.generated);
  }

  /** The text of a request that fits stays within the cache. */
  lemma {:induction false} TextFits(c: Config, m: Model, r: Req, n: int)
    requires ValidConfig(c) && OnTrack(m, r) && Fits(c, m, KeyOf(r)) && 0 <= n <= |r.Text()|
    ensures PagesFor(c, n) <= c.maxBlocks
  {
    TextLength(m, r);
    CeilDivMonotone(n, Length(m, KeyOf(r)), c.pageSize);
  }

  lemma {:induction false} FreeCount(c: Config, pool: Pool, owned: multiset<int>)
    requires Conserved(c, pool, owned)
    ensures |pool.free| + |owned| == c.maxBlocks
  {
    assert |multiset(pool.free) + owned| == |multiset(pool.free)| + |owned|;
    assert |multiset(Universe(c.maxBlocks))| == |Universe(c.maxBlocks)|;
  }

  /** A request alone in the cache is never out of pages. */
  lemma {:induction false} LoneRequestExtends(c: Config, m: Model, store: Store, w: Work)
    requires ValidConfig(c) && Working(c, m, store, multiset{}, w) && |w.active| == 1 && w.next == 0
    requires Fits(c, m, KeyOf(w.active[0]))
    ensures Extend(c, Planned(c, w)).Some?
  {
    hide Tables, Conserved, Plan, PagesFor, Resting;
    var r := w.active[0];
    RestsAt(c, m, store, w);
    PlanShape(c, m, r, w.budget);
    var upTo := Plan(c, r, w.budget).1;
    LoneText(c, m, r, upTo, w.budget);
    TextFits(c, m, r, Max(|r.input|, upTo));
    assert w.active == [r];
    GatherSingle(BlocksOf, r);
    assert Owned(w.active) + multiset{} == multiset(r.blocks);
    FreeCount(c, w.pool, multiset(r.blocks));
    assert |multiset(r.blocks)| == |r.blocks|;
  }

  lemma {:induction false} LoneText(c: Config, m: Model, r: Req, upTo: int, budget: int)
    requires ValidConfig(c) && Resting(c, m, r) && upTo == Plan(c, r, budget).1 && (MidPrefill(r) ==> budget >= 1)
    ensures OnTrack(m, r) && 0 <= Max(|r.input|, upTo) <= |r.Text()|
  {
    hide Decode;
    PlanShape(c, m, r, budget);
  }

  /** Some request already planned is past its prefill. */
  ghost predicate SomeDone(w: Work)
  {
    exists i :: 0 <= i < w.next <= |w.active| && !MidPrefill(w.active[i])
  }

  /** Nothing planned yet, and the old last request is still the last to plan. */
  ghost predicate Untouched(w: Work, last: Req)
  {
    w.next == 0 && w.active != [] && w.active[|w.active| - 1] == last
  }

  /** Every request has preempted itself. */
  ghost predicate Gone(w: Work, last: Req) { w.next == 0 && w.active == [] && !MidPrefill(last) }

  /** Only the old mid-prefill request is left, and it has advanced. */
  ghost predicate OnlyLast(w: Work, last: Req)
  {
    && w.next == 1 == |w.active| && MidPrefill(w.active[0]) && MidPrefill(last)
    && w.active[0].input == last.input && w.active[0].computed > last.computed
    && w.budget == 0
  }

  /** A request whose extension fails is past its prefill: a mid-prefill one needs no page. */
  lemma {:induction false} FailureIsDecode(c: Config, m: Model, store: Store, rest: multiset<int>, w: Work)
    requires ValidConfig(c) && Working(c, m, store, rest, w) && w.next < |w.active|
    requires Extend(c, Planned(c, w)).None?
    ensures !MidPrefill(w.active[w.next]) && !MidPrefill(Planned(c, w).active[w.next])
  {
    hide Tables, Conserved, PagesFor, Resting;
    RestsAt(c, m, store, w);
    PlanShape(c, m, w.active[w.next], w.budget);
  }

  /** After an extension the request just planned is done with its prefill, or it is the last one and
      has used up the budget. */
  lemma {:induction false} ExtendMoves(c: Config, m: Model, store: Store, rest: multiset<int>, w: Work, last: Req)
    requires ValidConfig(c) && Working(c, m, store, rest, w) && w.next < |w.active|
    requires Extend(c, Planned(c, w)).Some? && (SomeDone(w) || Untouched(w, last))
    ensures SomeDone(PlanNext(c, w)) || OnlyLast(PlanNext(c, w), last)
  {
    hide Tables, Conserved, PagesFor, Resting, Allocate;
    RestsAt(c, m, store, w);
    var k, r := w.next, w.active[w.next];
    PlanShape(c, m, r, w.budget);
    var w' := PlanNext(c, w);
    assert w'.next == k + 1 && |w'.active| == |w.active|;
    if SomeDone(w) {
      var i :| 0 <= i < w.next && !MidPrefill(w.active[i]);
      assert w'.active[i] == w.active[i];
    } else if !MidPrefill(w'.active[k]) {
      assert SomeDone(w');
    } else {
      assert MidPrefill(r);
      assert |w.active| == 1;
    }
  }

  lemma {:induction false} PlanNextMoves(c: Config, m: Model, store: Store, rest: multiset<int>, w: Work, last: Req)
    requires ValidConfig(c) && Working(c, m, store, rest, w) && w.next < |w.active|
    requires AllFit(c, m, KeysOf(w)) && (SomeDone(w) || Untouched(w, last))
    ensures var w' := PlanNext(c, w);
            SomeDone(w') || Untouched(w', last) || OnlyLast(w', last) || (Gone(w', last) && rest != multiset{})
  {
    hide Working, KeysOf, Plan, Extend, AllFit, Fits;
    if Extend(c, Planned(c, w)).Some? {
      ExtendMoves(c, m, store, rest, w, last);
    } else {
      FailureIsDecode(c, m, store, rest, w);
      EvictionMoves(c, m, store, rest, w, last);
    }
  }

  lemma {:induction false} EvictionMoves(c: Config, m: Model, store: Store, rest: multiset<int>, w: Work, last: Req)
    requires ValidConfig(c) && Working(c, m, store, rest, w) && w.next < |w.active|
    requires AllFit(c, m, KeysOf(w)) && (SomeDone(w) || Untouched(w, last))
    requires Extend(c, Planned(c, w)).None?
    requires !MidPrefill(w.active[w.next]) && !MidPrefill(Planned(c, w).active[w.next])
    ensures var w' := PlanNext(c, w);
            SomeDone(w') || Untouched(w', last) || (Gone(w', last) && rest != multiset{})
  {
    var w1 := Planned(c, w);
    PlannedShape(c, w);
    var v := LeastProgress(w1.active);
    if v == w.next {
      EvictSelf(c, w);
      SelfEvictionMoves(c, m, store, rest, w, last);
    } else {
      RetrySucceeds(c, m, store, rest, w, v);
      RetriedIsDone(c, w, v);
    }
  }

  lemma {:induction false} RetriedIsDone(c: Config, w: Work, v: nat)
    requires ValidConfig(c) && w.next < |w.active| && v < |w.active| && v != w.next
    requires Extend(c, Planned(c, w)).None? && v == LeastProgress(Planned(c, w).active)
    requires Extend(c, Evict(Planned(c, w), v)).Some? && !MidPrefill(Planned(c, w).active[w.next])
    ensures SomeDone(PlanNext(c, w))
  {
    hide Plan, Released, Allocate;
    var w2 := Evict(Planned(c, w), v);
    assert !MidPrefill(w2.active[w2.next]);
    var w' := PlanNext(c, w);
    assert w'.next == w2.next + 1 && !MidPrefill(w'.active[w2.next]);
  }

  lemma {:induction false} SelfEvictionMoves(c: Config, m: Model, store: Store, rest: multiset<int>, w: Work, last: Req)
    requires ValidConfig(c) && Working(c, m, store, rest, w) && w.next < |w.active|
    requires AllFit(c, m, KeysOf(w)) && (SomeDone(w) || Untouched(w, last))
    requires Extend(c, Planned(c, w)).None? && !MidPrefill(w.active[w.next])
    ensures var w' := Evict(w, w.next);
            SomeDone(w') || Untouched(w', last) || (Gone(w', last) && rest != multiset{})
  {
    hide Working, AllFit, Extend, Released, KeysOf, Fits;
    if SomeDone(w) {
      EvictAfterDone(w);
    } else if |w.active| == 1 {
      if rest == multiset{} {
        ActiveFits(c, m, w, 0);
        LoneRequestExtends(c, m, store, w);
      }
    } else {
      assert Evict(w, w.next).active[|w.active| - 2] == w.active[|w.active| - 1];
    }
  }

  lemma {:induction false} EvictAfterDone(w: Work)
    requires SomeDone(w) && w.next < |w.active|
    ensures SomeDone(Evict(w, w.next))
  {
    hide Released;
    var i :| 0 <= i < w.next && !MidPrefill(w.active[i]);
    assert Evict(w, w.next).active[i] == w.active[i];
  }

  /** The planning loop leaves a request that yields a token, or just the advanced mid-prefill one, or nothing,
      and nothing only while other slots hold pages. */
  lemma {:induction false} PlanAllMoves(c: Config, m: Model, store: Store, rest: multiset<int>, w: Work, last: Req)
    requires ValidConfig(c) && Working(c, m, store, rest, w) && w.next <= |w.active|
    requires AllFit(c, m, KeysOf(w))
    requires SomeDone(w) || Untouched(w, last) || OnlyLast(w, last) || (Gone(w, last) && rest != multiset{})
    ensures var w' := PlanAll(c, w); SomeDone(w') || OnlyLast(w', last) || (Gone(w', last) && rest != multiset{})
    decreases |w.active| - w.next
  {
    hide Working, KeysOf, AllFit, PlanNext;
    if w.next < |w.active| {
      PlanNextKeeps(c, m, store, rest, w);
      PlanNextMoves(c, m, store, rest, w, last);
      PlanAllMoves(c, m, store, rest, PlanNext(c, w), last);
    }
  }

  /** What a turn makes of its slot: a batch that yields a token, or one prefill further on, or, from a slot that
      is not in the middle of a prefill, nothing. */
  predicate Moved(slot: seq<Req>, batch: seq<Req>)
  {
    || Yielding(batch) >= 1
    || (EndsMid(batch) && (EndsMid(slot) ==> PrefillLeft(batch) < PrefillLeft(slot)))
    || (batch == [] && !EndsMid(slot))
  }

  /** Admission into an empty slot: a prefill that is not completed takes the whole budget. */
  lemma {:induction false} AdmitFromEmpty(c: Config, w: Work, seqs: int)
    requires ValidConfig(c) && w.active == []
    ensures var batch := Admit(c, w, seqs).active; batch == [] || Yielding(batch) >= 1 || EndsMid(batch)
  {
    hide Allocate, Yielding;
    if w.budget > 0 && seqs > 0 && w.queue != [] {
      var r := w.queue[0];
      var (tokens, upTo) := Plan(c, r, w.budget);
      var a := Allocate(c, w.pool, |r.input|, 0);
      if w.budget >= tokens && a.Some? {
        var r' := r.Activate(a.value).(step := tokens, computed := upTo);
        var w' := w.(active := w.active + [r'], queue := w.queue[1..],
                     pool := Taken(w.pool, a.value), budget := w.budget - tokens);
        AdmitLeft(c, w', seqs - 1);
        if !MidPrefill(r') {
          assert Admit(c, w', seqs - 1).active[0] == r';
          SomeYield(Admit(c, w', seqs - 1).active, 0);
        }
      }
    }
  }

  lemma {:induction false} DoneYields(c: Config, w: Work, seqs: int)
    requires ValidConfig(c) && SomeDone(w)
    ensures Yielding(Admit(c, w, seqs).active) >= 1
  {
    hide Admit, Yielding;
    AdmitLeft(c, w, seqs);
    var i :| 0 <= i < w.next <= |w.active| && !MidPrefill(w.active[i]);
    assert Admit(c, w, seqs).active[i] == w.active[i];
    SomeYield(Admit(c, w, seqs).active, i);
  }

  /** Admission after the planning loop. */
  lemma {:induction false} PlannedMoves(c: Config, slot: seq<Req>, w: Work, seqs: int)
    requires ValidConfig(c) && slot != []
    requires var last := slot[|slot| - 1]; SomeDone(w) || OnlyLast(w, last) || Gone(w, last)
    ensures Moved(slot, Admit(c, w, seqs).active)
    ensures SomeDone(w) || OnlyLast(w, slot[|slot| - 1]) ==> Admit(c, w, seqs).active != []
  {
    hide Admit, Yielding;
    if SomeDone(w) {
      DoneYields(c, w, seqs);
      NothingYields();
    } else if w.active == [] {
      AdmitFromEmpty(c, w, seqs);
    } else {
      AdmitLeft(c, w, seqs);
    }
  }

  /** A whole `schedule` call on a slot that is not empty. */
  lemma {:induction false} FilledMoves(c: Config, m: Model, store: Store, s: State, rest: multiset<int>)
    requires Shaped(c, s) && RestingSlot(c, m, store, s.slots[s.cur]) && s.slots[s.cur] != []
    requires forall r :: r in s.queue ==> Waiting(m, r)
    requires Conserved(c, s.pool, Owned(s.slots[s.cur]) + rest)
    requires AllFit(c, m, Keys(s.slots[s.cur]) + Keys(s.queue))
    ensures Moved(s.slots[s.cur], Filled(c, s).active)
    ensures rest == multiset{} ==> Filled(c, s).active != []
  {
    hide Working, AllFit, RestingSlot, Conserved, Waiting, PlanAll, SeqsBudget, OtherInflight, Admit, Moved, KeysOf,
      Keys, Owned, SomeDone, OnlyLast;
    var slot := s.slots[s.cur];
    StartIsWorking(c, m, store, s, rest);
    KeysOfStart(c, s);
    PlanAllMoves(c, m, store, rest, WorkOf(c, s), slot[|slot| - 1]);
    var w := PlanAll(c, WorkOf(c, s));
    PlannedMoves(c, slot, w, SeqsBudget(c, w, OtherInflight(s)));
  }

  lemma {:induction false} NothingYields()
    ensures Yielding([]) == 0
  {
  }

  /** A whole `schedule` call on an empty slot. */
  lemma {:induction false} EmptyMoves(c: Config, s: State)
    requires Shaped(c, s) && s.slots[s.cur] == []
    ensures Moved([], Filled(c, s).active)
  {
    hide PlanAll, SeqsBudget, OtherInflight, Yielding;
    var w := WorkOf(c, s);
    NothingToPlan(c, w);
    var seqs := SeqsBudget(c, w, OtherInflight(s));
    AdmitFromEmpty(c, w, seqs);
  }

  /** With nothing in the cache, the head of the queue is admitted. */
  lemma {:induction false} HeadIsAdmitted(c: Config, m: Model, s: State)
    requires Shaped(c, s) && s.slots[s.cur] == [] && s.queue != []
    requires Waiting(m, s.queue[0]) && Fits(c, m, KeyOf(s.queue[0])) && Plannable(c, m, KeyOf(s.queue[0]))
    requires Conserved(c, s.pool, multiset{})
    ensures Filled(c, s).active != []
  {
    hide Conserved, Waiting, PagesFor, Allocate, Plan, PlanAll, SeqsBudget, OtherInflight;
    var w := WorkOf(c, s);
    FreeCount(c, s.pool, multiset{});
    HeadFits(c, m, w);
    NothingToPlan(c, w);
    var others := OtherInflight(s);
    RoomForOne(c, w, others);
    HeadEnters(c, w, SeqsBudget(c, w, others));
  }

  lemma {:induction false} NothingToPlan(c: Config, w: Work)
    requires ValidConfig(c) && w.next == |w.active|
    ensures PlanAll(c, w) == w
  {
  }

  /** Neither the limit on sequences nor the fair share keeps a slot empty. */
  lemma {:induction false} RoomForOne(c: Config, w: Work, others: nat)
    requires ValidConfig(c) && w.active == []
    ensures SeqsBudget(c, w, others) >= 1
  {
  }

  lemma {:induction false} HeadFits(c: Config, m: Model, w: Work)
    requires ValidConfig(c) && w.queue != [] && Waiting(m, w.queue[0])
    requires Fits(c, m, KeyOf(w.queue[0])) && Plannable(c, m, KeyOf(w.queue[0]))
    requires |w.pool.free| == c.maxBlocks && w.budget == c.maxTokens
    ensures w.budget >= Plan(c, w.queue[0], w.budget).0
    ensures Allocate(c, w.pool, |w.queue[0].input|, 0).Some?
  {
    hide OnTrack, PagesFor, Length;
    var r := w.queue[0];
    TextFits(c, m, r, |r.input|);
    TextLength(m, r);
  }

  lemma {:induction false} HeadEnters(c: Config, w: Work, seqs: int)
    requires ValidConfig(c) && w.budget > 0 && seqs > 0 && w.queue != []
    requires w.budget >= Plan(c, w.queue[0], w.budget).0
    requires Allocate(c, w.pool, |w.queue[0].input|, 0).Some?
    ensures Admit(c, w, seqs).active != []
  {
    hide Plan, Allocate;
    var r := w.queue[0];
    var (tokens, upTo) := Plan(c, r, w.budget);
    var pages := Allocate(c, w.pool, |r.input|, 0).value;
    var r' := r.Activate(pages).(step := tokens, computed := upTo);
    AdmitLeft(c, w.(active := w.active + [r'], queue := w.queue[1..],
                    pool := Taken(w.pool, pages), budget := w.budget - tokens), seqs - 1);
  }

  /** The slots in the order of their turns, the current one first. */
  function Circle(s: State): (slots: seq<seq<Req>>)
    requires s.cur < |s.slots|
    ensures |slots| == |s.slots|
  {
    [s.slots[s.cur]] + Upcoming(s.slots, s.cur)
  }

  /** Turns until a batch with a token comes back; as many as there are batches when none has one. */
  function FirstYield(slots: seq<seq<Req>>): (n: nat)
    ensures n <= |slots|
  {
    if slots == [] || Yielding(slots[0]) >= 1 then 0 else 1 + FirstYield(slots[1..])
  }

  /** Slots that are not in the middle of a prefill. */
  function NotMid(slots: seq<seq<Req>>): nat
  {
    if slots == [] then 0 else (if EndsMid(slots[0]) then 0 else 1) + NotMid(slots[1..])
  }

  function PrefillSum(slots: seq<seq<Req>>): nat
  {
    if slots == [] then 0 else PrefillLeft(slots[0]) + PrefillSum(slots[1..])
  }

  /** Turns until a slot in the middle of a prefill has its own. */
  function FirstMid(slots: seq<seq<Req>>): (n: nat)
    ensures n <= |slots|
  {
    if slots == [] || EndsMid(slots[0]) then 0 else 1 + FirstMid(slots[1..])
  }

  /** The measure, compared from the left: tokens to generate, turns until one arrives, slots without a prefill
      under way, prefill left, turns until a prefill goes on. */
  datatype Rank = Rank(left: nat, due: nat, notMid: nat, prefill: nat, mid: nat)

  ghost function RankOf(s: State): Rank
    requires s.cur < |s.slots|
  {
    Rank(Remaining(s), FirstYield(Upcoming(s.slots, s.cur)), NotMid(Circle(s)), PrefillSum(Circle(s)),
         FirstMid(Circle(s)))
  }

  predicate Below(a: Rank, b: Rank)
  {
    || a.left < b.left
    || (a.left == b.left && a.due < b.due)
    || (a.left == b.left && a.due == b.due && a.notMid < b.notMid)
    || (a.left == b.left && a.due == b.due && a.notMid == b.notMid && a.prefill < b.prefill)
    || (a.left == b.left && a.due == b.due && a.notMid == b.notMid && a.prefill == b.prefill && a.mid < b.mid)
  }

  lemma {:induction false} FirstYieldShifts(others: seq<seq<Req>>, x: seq<Req>, y: seq<Req>)
    requires Yielding(x) == 0
    ensures FirstYield([x] + others) == 1 + FirstYield(others)
    ensures FirstYield(others) < |others| ==> FirstYield(others + [y]) == FirstYield(others)
    ensures FirstYield(others) == |others| ==>
              FirstYield(others + [y]) == |others| + (if Yielding(y) >= 1 then 0 else 1)
  {
    assert ([x] + others)[1..] == others;
    if others == [] {
      assert others + [y] == [y];
    } else {
      assert (others + [y])[1..] == others[1..] + [y];
      FirstYieldShifts(others[1..], x, y);
    }
  }

  lemma {:induction false} SumsShift(slots: seq<seq<Req>>, x: seq<Req>, y: seq<Req>)
    ensures NotMid([x] + slots) == NotMid(slots) + (if EndsMid(x) then 0 else 1)
    ensures NotMid(slots + [y]) == NotMid(slots) + (if EndsMid(y) then 0 else 1)
    ensures PrefillSum([x] + slots) == PrefillSum(slots) + PrefillLeft(x)
    ensures PrefillSum(slots + [y]) == PrefillSum(slots) + PrefillLeft(y)
    ensures !EndsMid(x) ==> FirstMid([x] + slots) == 1 + FirstMid(slots)
    ensures FirstMid(slots) < |slots| ==> FirstMid(slots + [y]) == FirstMid(slots)
  {
    hide PrefillLeft;
    assert ([x] + slots)[1..] == slots;
    if slots == [] {
      assert slots + [y] == [y];
    } else {
      assert (slots + [y])[1..] == slots[1..] + [y];
      SumsShift(slots[1..], x, y);
    }
  }

  /** No batch with a token and no prefill under way: nothing is in these slots. */
  lemma {:induction false} NothingUnderWay(slots: seq<seq<Req>>)
    requires FirstYield(slots) == |slots| && FirstMid(slots) == |slots|
    ensures Flat(slots) == []
  {
    if slots != [] {
      var slot := slots[0];
      if slot != [] { SomeYield(slot, |slot| - 1); }
      NothingUnderWay(slots[1..]);
    }
  }

  /** One turn, by the circle of slots: `slot` has become `batch`, and the tokens of the slot whose turn is next
      have been counted. */
  ghost predicate Turned(s: State, s': State, batch: seq<Req>, tokens: seq<Token>, pool: Pool)
  {
    && s.cur < |s.slots| == |s'.slots| && s'.cur < |s'.slots|
    && if |s.slots| == 1 then
         && |tokens| == |batch| && Circle(s) == [s.slots[s.cur]]
         && Circle(s') == [Settle(batch, tokens, pool).kept]
       else
         var up := Upcoming(s.slots, s.cur);
         && up != [] && |tokens| == |up[0]|
         && Upcoming(s'.slots, s'.cur) == up[1..] + [batch]
         && Circle(s') == [Settle(up[0], tokens, pool).kept] + up[1..] + [batch]
  }

  /** The slot whose outputs are counted in this turn. */
  function Counted(s: State, batch: seq<Req>): seq<Req>
    requires s.cur < |s.slots|
  {
    if |s.slots| == 1 then batch else Upcoming(s.slots, s.cur)[0]
  }

  /** The turn brings the measure down: the arithmetic of it. */
  lemma {:induction false} TurnedIsBelow(s: State, s': State, batch: seq<Req>, tokens: seq<Token>, pool: Pool)
    requires Turned(s, s', batch, tokens, pool) && Moved(s.slots[s.cur], batch)
    requires Remaining(s') + Yielding(Counted(s, batch)) <= Remaining(s)
    requires Yielding(Counted(s, batch)) == 0 ==> Settle(Counted(s, batch), tokens, pool).kept == Counted(s, batch)
    requires batch == [] ==> Flat(Upcoming(s.slots, s.cur)) != []
    ensures Below(RankOf(s'), RankOf(s))
  {
    hide Remaining, Settle, Yielding;
    var slot, up := s.slots[s.cur], Upcoming(s.slots, s.cur);
    if Yielding(Counted(s, batch)) == 0 {
      if |s.slots| == 1 {
        LoneTurn(s, s', batch, tokens, pool);
      } else {
        assert up == [up[0]] + up[1..];
        FirstYieldShifts(up[1..], up[0], batch);
        CircleTurns(s, s', batch, tokens, pool);
        if FirstYield(up) == |up| && Yielding(batch) == 0 { QuietTurn(up, slot, batch); }
      }
    }
  }

  lemma {:induction false} CircleTurns(s: State, s': State, batch: seq<Req>, tokens: seq<Token>, pool: Pool)
    requires Turned(s, s', batch, tokens, pool) && |s.slots| > 1
    requires Settle(Counted(s, batch), tokens, pool).kept == Counted(s, batch)
    ensures Circle(s) == [s.slots[s.cur]] + Upcoming(s.slots, s.cur)
    ensures Circle(s') == Upcoming(s.slots, s.cur) + [batch]
  {
    hide Settle, Upcoming;
    var up := Upcoming(s.slots, s.cur);
    assert up == [up[0]] + up[1..];
  }

  lemma {:induction false} LoneTurn(s: State, s': State, batch: seq<Req>, tokens: seq<Token>, pool: Pool)
    requires Turned(s, s', batch, tokens, pool) && |s.slots| == 1 && Moved(s.slots[s.cur], batch)
    requires Yielding(batch) == 0 && Settle(batch, tokens, pool).kept == batch
    requires Remaining(s') <= Remaining(s) && batch != []
    ensures Below(RankOf(s'), RankOf(s))
  {
    hide Remaining, Settle, Yielding, PrefillLeft;
    var slot := s.slots[s.cur];
    assert Upcoming(s.slots, s.cur) == [] && Upcoming(s'.slots, s'.cur) == [];
    assert [slot] + [] == [slot] && [] + [batch] == [batch];
    SumsShift([], slot, batch);
  }

  /** A turn in which no token is under way anywhere: a prefill has begun or gone on, or the next one is closer. */
  lemma {:induction false} QuietTurn(up: seq<seq<Req>>, slot: seq<Req>, batch: seq<Req>)
    requires FirstYield(up) == |up| && Moved(slot, batch) && Yielding(batch) == 0
    requires batch == [] ==> Flat(up) != []
    ensures var before, after := [slot] + up, up + [batch];
            || NotMid(after) < NotMid(before)
            || (NotMid(after) == NotMid(before) && PrefillSum(after) < PrefillSum(before))
            || (NotMid(after) == NotMid(before) && PrefillSum(after) == PrefillSum(before)
                && FirstMid(after) < FirstMid(before))
  {
    SumsShift(up, slot, batch);
    if batch == [] && FirstMid(up) == |up| {
      NothingUnderWay(up);
    }
  }

  /** Counting the tokens of one slot. */
  lemma {:induction false} SlotLeft(s: State, k: nat, slot: seq<Req>)
    requires k < |s.slots|
    ensures TotalLeft(Flat(s.slots[k := slot])) + TotalLeft(s.slots[k]) == TotalLeft(Flat(s.slots)) + TotalLeft(slot)
  {
    GatherSlots(LeftBag, s.slots, k);
    GatherSlots(LeftBag, s.slots[k := slot], k);
    RestUnchanged(LeftBag, s.slots, k, slot);
  }

  /** A turn, as what it does to the scheduler: it plans one slot and counts the right tokens for the next. */
  lemma {:induction false} TurnEffect(c: Config, m: Model, sys: System)
    returns (h: State, store: Store, tokens: seq<Token>)
    requires Inv(c, m, sys) && Shaped(c, sys.sched) && Cycle(c, m, sys).Goes?
    ensures h == Schedule(c, sys.sched) && Shaped(c, h)
    ensures Flown(c, m, h, store) && RightTokens(m, h.slots[h.cur], tokens)
    ensures Cycle(c, m, sys).sys.sched == Update(c, h, tokens)
  {
    hide Inv, Cycle, Schedule, Flown, RightTokens, Update, AllKeys, UniformSampling, BatchOf;
    CycleKeeps(c, m, sys);
    var s, after, out := ReachesHalfWay(c, m, sys);
    h, store := s, after;
    FlownIsShaped(c, m, h, store);
    if h.slots[h.cur] == [] {
      tokens := [];
      TurnRest(c, m, sys, h, store, out);
      OneSlotTurns(c, m, sys, h, store, out);
      EmptyEffect(c, sys, h, store, out);
      NothingIsRight(m);
    } else {
      tokens := CountedTokens(c, m, sys, h, store, out);
    }
  }

  lemma {:induction false} NothingIsRight(m: Model)
    ensures RightTokens(m, [], [])
  {
  }

  lemma {:induction false} FlownIsShaped(c: Config, m: Model, s: State, store: Store)
    requires Flown(c, m, s, store)
    ensures Shaped(c, s)
  {
  }

  lemma {:induction false} EmptyEffect(c: Config, sys: System, h: State, store: Store, out: Output)
    requires Shaped(c, sys.sched) && Shaped(c, h) && h.slots[h.cur] == []
    requires c.numSlots == 1 ==> h.cur == sys.sched.cur
    ensures var o := AfterForward(c, sys, h, store, out); o.Goes? && o.sys.sched == Update(c, h, [])
  {
    assert h.slots[h.cur := []] == h.slots;
  }

  /** With one slot the slot just scheduled is also the one whose outputs are counted. */
  lemma {:induction false} OneSlotTurns(c: Config, m: Model, sys: System, h: State, store: Store, out: Output)
    requires HalfWay(c, m, sys, h, store, out) && Shaped(c, sys.sched) && Shaped(c, h)
    ensures h == Schedule(c, sys.sched) && (c.numSlots == 1 ==> h.cur == sys.sched.cur)
  {
    hide Schedule, Infer, Flown, Scheduled, Answers, AllKeys, Snapshot, Inv, UniformSampling;
    CycleShape(c, sys.sched);
  }

  lemma {:induction false} CountedTokens(c: Config, m: Model, sys: System, h: State, store: Store, out: Output)
    returns (tokens: seq<Token>)
    requires HalfWay(c, m, sys, h, store, out) && Shaped(c, sys.sched) && Shaped(c, h) && h.slots[h.cur] != []
    requires Cycle(c, m, sys).Goes?
    ensures RightTokens(m, h.slots[h.cur], tokens) && Cycle(c, m, sys).sys.sched == Update(c, h, tokens)
  {
    TurnRest(c, m, sys, h, store, out);
    OneSlotTurns(c, m, sys, h, store, out);
    if c.numSlots == 1 {
      tokens := out.tokens;
      AnswersRight(m, out, h.slots[h.cur]);
    } else {
      OldestAnswers(c, m, sys, h, store, out);
      tokens := sys.pending[0].tokens;
    }
  }

  lemma {:induction false} OldestAnswers(c: Config, m: Model, sys: System, h: State, store: Store, out: Output)
    requires HalfWay(c, m, sys, h, store, out) && Shaped(c, sys.sched) && Shaped(c, h) && h.slots[h.cur] != []
    requires c.numSlots > 1
    ensures sys.pending != [] && RightTokens(m, h.slots[h.cur], sys.pending[0].tokens)
  {
    hide Schedule, Infer, Flown, Answers, AllKeys, Scheduled, Snapshot, RightTokens, Upcoming, Aligned,
      UniformSampling, Sound, RestingSlot, FlyingSlot, StoreShape;
    CycleShape(c, sys.sched);
    RingTurns(c, m, sys.sched.slots, sys.sched.cur, h.slots[sys.sched.cur], sys.pending, out);
    AnswersRight(m, sys.pending[0], h.slots[h.cur]);
  }

  lemma {:induction false} AnswersRight(m: Model, out: Output, batch: seq<Req>)
    requires Answers(m, out, batch)
    ensures RightTokens(m, batch, out.tokens)
  {
  }

  lemma {:induction false} FlownOnTrack(c: Config, m: Model, s: State, store: Store)
    requires Flown(c, m, s, store)
    ensures Shaped(c, s)
    ensures forall i :: 0 <= i < |s.slots[s.cur]| ==> OnTrack(m, s.slots[s.cur][i])
  {
    hide OnTrack, Cached, SlotBudget, StoreShape;
    assert FlyingSlot(c, m, store, s.slots[s.cur]);
    forall i | 0 <= i < |s.slots[s.cur]| ensures OnTrack(m, s.slots[s.cur][i]) {
      assert Computed(c, m, store, s.slots[s.cur][i]);
    }
  }

  /** The slot whose turn it is now, as its turn leaves it. */
  lemma {:induction false} BatchMoves(c: Config, m: Model, sys: System)
    requires Inv(c, m, sys) && AllFit(c, m, AllKeys(sys.sched)) && !Drained(sys.sched)
    ensures Shaped(c, sys.sched)
    ensures var slots, cur, batch := sys.sched.slots, sys.sched.cur, Filled(c, sys.sched).active;
            Moved(slots[cur], batch) && (batch == [] ==> Flat(Upcoming(slots, cur)) != [])
  {
    hide RestingSlot, FlyingSlot, Aligned, StoreShape, Waiting, Conserved, Delivered, Fits, Plannable, Filled, Moved,
      Rest, Upcoming, Drained, Flat, Gather;
    var s := sys.sched;
    SlotPages(c, s.pool, s.slots, s.cur);
    var rest := Rest(BlocksOf, s.slots, s.cur);
    FitNow(c, m, s);
    if s.slots[s.cur] != [] {
      FilledMoves(c, m, sys.store, s, rest);
    } else {
      EmptyMoves(c, s);
    }
    if Flat(Upcoming(s.slots, s.cur)) == [] {
      NothingElsewhere(s);
      if s.slots[s.cur] == [] {
        QueueIsLeft(s);
        OwnsNothing(s.slots[s.cur]);
        HeadKey(c, m, s);
        HeadIsAdmitted(c, m, s);
      }
    }
  }

  lemma {:induction false} OwnsNothing(slot: seq<Req>)
    requires slot == []
    ensures Owned(slot) == multiset{}
  {
  }

  lemma {:induction false} HeadKey(c: Config, m: Model, s: State)
    requires ValidConfig(c) && s.queue != [] && AllFit(c, m, Keys(s.queue))
    ensures Fits(c, m, KeyOf(s.queue[0])) && Plannable(c, m, KeyOf(s.queue[0]))
  {
    hide Fits, Plannable;
    GatherContains(KeyBag, s.queue, 0);
    assert KeyOf(s.queue[0]) in KeyBag(s.queue[0]);
  }

  lemma {:induction false} FitNow(c: Config, m: Model, s: State)
    requires Shaped(c, s) && AllFit(c, m, AllKeys(s))
    ensures AllFit(c, m, Keys(s.slots[s.cur]) + Keys(s.queue)) && AllFit(c, m, Keys(s.queue))
  {
    hide Fits, Plannable, Rest, Gather;
    GatherSlots(KeyBag, s.slots, s.cur);
  }

  /** Nothing in the upcoming slots is nothing in the others. */
  lemma {:induction false} NothingElsewhere(s: State)
    requires s.cur < |s.slots| && Flat(Upcoming(s.slots, s.cur)) == []
    ensures Rest(BlocksOf, s.slots, s.cur) == multiset{}
    ensures Flat(s.slots) == s.slots[s.cur]
  {
    hide Flat;
    FlatConcat(s.slots[s.cur + 1..], s.slots[..s.cur]);
    FlatSplit(s.slots, s.cur);
    assert Flat(s.slots[s.cur + 1..]) == [] && Flat(s.slots[..s.cur]) == [];
  }

  lemma {:induction false} QueueIsLeft(s: State)
    requires s.cur < |s.slots| && Flat(s.slots) == s.slots[s.cur] == [] && !Drained(s)
    ensures s.queue != []
  {
  }

  /** Nothing is waiting and nothing is in any slot. */
  predicate Drained(s: State) { s.queue == [] && Flat(s.slots) == [] }

  /** Every turn with something to do decreases the measure, whatever is preempted. */
  lemma {:induction false} TurnDecreases(c: Config, m: Model, sys: System)
    requires Inv(c, m, sys) && AllFit(c, m, AllKeys(sys.sched)) && AllAlike(AllKeys(sys.sched)) && !Drained(sys.sched)
    ensures Shaped(c, sys.sched) && Cycle(c, m, sys).Goes?
    ensures Below(RankOf(Cycle(c, m, sys).sys.sched), RankOf(sys.sched))
  {
    hide AllAlike;
    CycleGoes(c, m, sys);
    BatchMoves(c, m, sys);
    var h, store, tokens := TurnEffect(c, m, sys);
    FlownOnTrack(c, m, h, store);
    CycleShape(c, sys.sched);
    var s, s' := sys.sched, Cycle(c, m, sys).sys.sched;
    var batch := h.slots[s.cur];
    FilledLeft(c, s);
    TurnedLeft(c, m, s, h, s', tokens);
    CircleTurned(c, s, h, s', tokens);
    SettleLeft(m, h.slots[h.cur], tokens, h.pool);
    CountedIs(c, s, h);
    TurnedIsBelow(s, s', batch, tokens, h.pool);
  }

  lemma {:induction false} CountedIs(c: Config, s: State, h: State)
    requires Shaped(c, s) && h == Schedule(c, s)
    ensures Counted(s, h.slots[s.cur]) == h.slots[h.cur]
  {
    hide Schedule;
    CycleShape(c, s);
    if |s.slots| > 1 { var others := UpcomingTurns(s.slots, s.cur, h.slots[s.cur]); }
  }

  /** Tokens left after a turn: those counted are gone. */
  lemma {:induction false} TurnedLeft(c: Config, m: Model, s: State, h: State, s': State, tokens: seq<Token>)
    requires Shaped(c, s) && h == Schedule(c, s) && |tokens| == |h.slots[h.cur]|
    requires WorkLeft(Filled(c, s)) == TotalLeft(s.queue) + TotalLeft(s.slots[s.cur])
    requires forall i :: 0 <= i < |h.slots[h.cur]| ==> OnTrack(m, h.slots[h.cur][i])
    requires s'.queue == h.queue && s'.slots == h.slots[h.cur := Settle(h.slots[h.cur], tokens, h.pool).kept]
    ensures Remaining(s') + Yielding(h.slots[h.cur]) <= Remaining(s)
  {
    hide OnTrack, Settle, TotalLeft, Filled, Flat, Yielding;
    SettleLeft(m, h.slots[h.cur], tokens, h.pool);
    SlotLeft(s, s.cur, Filled(c, s).active);
    SlotLeft(h, h.cur, Settle(h.slots[h.cur], tokens, h.pool).kept);
  }

  lemma {:induction false} CircleTurned(c: Config, s: State, h: State, s': State, tokens: seq<Token>)
    requires Shaped(c, s) && h == Schedule(c, s) && |tokens| == |h.slots[h.cur]| && s'.cur == h.cur
    requires s'.slots == h.slots[h.cur := Settle(h.slots[h.cur], tokens, h.pool).kept]
    ensures Turned(s, s', h.slots[s.cur], tokens, h.pool)
  {
    hide Schedule, Settle;
    CycleShape(c, s);
    if |s.slots| == 1 {
      assert Upcoming(s.slots, s.cur) == [] && Upcoming(s'.slots, s'.cur) == [];
    } else {
      UpcomingIgnoresCurrent(h.slots, h.cur, Settle(h.slots[h.cur], tokens, h.pool).kept);
      ManyTurned(s, s', h.slots[s.cur], h.cur, tokens, h.pool);
    }
  }

  lemma {:induction false} ManyTurned(s: State, s': State, batch: seq<Req>, next: nat, tokens: seq<Token>, pool: Pool)
    requires s.cur < |s.slots| && |s.slots| == |s'.slots| > 1 && s'.cur == next == (s.cur + 1) % |s.slots|
    requires next < |s.slots| && |tokens| == |s.slots[next]|
    requires s'.slots[next] == Settle(s.slots[next], tokens, pool).kept
    requires Upcoming(s'.slots, next) == Upcoming(s.slots[s.cur := batch], next)
    ensures Turned(s, s', batch, tokens, pool)
  {
    hide Settle, Upcoming;
    var others := UpcomingTurns(s.slots, s.cur, batch);
    assert ([s.slots[next]] + others)[1..] == others;
    assert [s'.slots[next]] + (others + [batch]) == [s'.slots[next]] + others + [batch];
  }

  /** `n` turns in a row. */
  ghost function TurnsFrom(c: Config, m: Model, sys: System, n: nat): (o: Outcome)
    requires Shaped(c, sys.sched)
    ensures o.Goes? ==> Shaped(c, o.sys.sched)
    decreases n
  {
    if n == 0 then Goes(sys)
    else
      match Cycle(c, m, sys)
      case Stuck => Stuck
      case Goes(next) => TurnsFrom(c, m, next, n - 1)
  }

  lemma {:induction false} TurnsDrain(c: Config, m: Model, sys: System) returns (n: nat)
    requires Inv(c, m, sys) && AllFit(c, m, AllKeys(sys.sched)) && AllAlike(AllKeys(sys.sched)) && Shaped(c, sys.sched)
    ensures var o := TurnsFrom(c, m, sys, n);
            o.Goes? && Inv(c, m, o.sys) && Drained(o.sys.sched) && AllKeys(o.sys.sched) == AllKeys(sys.sched)
    decreases RankOf(sys.sched).left, RankOf(sys.sched).due, RankOf(sys.sched).notMid, RankOf(sys.sched).prefill,
      RankOf(sys.sched).mid
  {
    hide AllFit, AllKeys, AllAlike, Cycle, RankOf, Inv, Drained;
    if Drained(sys.sched) {
      n := 0;
    } else {
      TurnDecreases(c, m, sys);
      CycleGoes(c, m, sys);
      var next := Cycle(c, m, sys).sys;
      n := TurnsDrain(c, m, next);
      n := n + 1;
    }
  }

  /** Everything submitted is finished after some number of turns without submissions. */
  ghost predicate Finishes(c: Config, m: Model, sys: System, keys: multiset<Key>)
    requires Shaped(c, sys.sched)
  {
    exists n: nat :: FinishedAfter(c, m, sys, keys, n)
  }

  ghost predicate FinishedAfter(c: Config, m: Model, sys: System, keys: multiset<Key>, n: nat)
    requires Shaped(c, sys.sched)
  {
    var o := TurnsFrom(c, m, sys, n);
    && o.Goes? && Keys(Flat(o.sys.sched.results)) == keys
    && forall r :: r in Flat(o.sys.sched.results) ==> Delivered(m, r)
  }

  /** A request that finishes had all its positions in the cache at once. */
  ghost predicate AllHadRoom(c: Config, m: Model, results: seq<Req>)
    requires ValidConfig(c)
  {
    forall r :: r in results ==> Fits(c, m, KeyOf(r))
  }

  lemma {:induction false} SettledHadRoom(c: Config, m: Model, active: seq<Req>, tokens: seq<Token>, pool: Pool)
    requires ValidConfig(c) && RightTokens(m, active, tokens)
    requires forall i :: 0 <= i < |active| ==> Issued(c, m, active[i]) && |active[i].blocks| <= c.maxBlocks
    ensures AllHadRoom(c, m, Settle(active, tokens, pool).finished)
  {
    if active != [] {
      var r, token := active[0], tokens[0];
      if Completes(r, token) {
        CompletedHadRoom(c, m, r, token);
        SettledHadRoom(c, m, active[1..], tokens[1..], Released(pool, r.blocks));
      } else {
        SettledHadRoom(c, m, active[1..], tokens[1..], pool);
      }
    }
  }

  lemma {:induction false} CompletedHadRoom(c: Config, m: Model, r: Req, token: Token)
    requires ValidConfig(c) && Issued(c, m, r) && Completes(r, token) && |r.blocks| <= c.maxBlocks
    requires token == Expected(m, r)
    ensures Fits(c, m, KeyOf(Absorb(r, token).Finish()))
  {
    hide Decode, Reference, Stops;
    AbsorbKeeps(c, m, r, token);
    assert KeyOf(Absorb(r, token).Finish()) == KeyOf(r);
    assert Length(m, KeyOf(r)) == |r.Text()| == r.computed;
  }

  /** No table is longer than the cache. */
  lemma {:induction false} FlyingWithinCache(c: Config, m: Model, s: State, store: Store, i: nat)
    requires Flown(c, m, s, store) && Shaped(c, s) && i < |s.slots[s.cur]|
    ensures Issued(c, m, s.slots[s.cur][i]) && |s.slots[s.cur][i].blocks| <= c.maxBlocks
  {
    hide Issued, Cached, Conserved, Rest, Waiting, Delivered;
    assert FlyingSlot(c, m, store, s.slots[s.cur]);
    var r, others := s.slots[s.cur][i], Rest(BlocksOf, s.slots, s.cur);
    assert Computed(c, m, store, r);
    SlotPages(c, s.pool, s.slots, s.cur);
    FreeCount(c, s.pool, Owned(s.slots[s.cur]) + others);
    GatherContains(BlocksOf, s.slots[s.cur], i);
    PartIsSmaller(multiset(r.blocks), Owned(s.slots[s.cur]), others);
    assert |multiset(r.blocks)| == |r.blocks|;
  }

  lemma {:induction false} PartIsSmaller<T>(a: multiset<T>, b: multiset<T>, others: multiset<T>)
    requires a <= b
    ensures |a| <= |b + others|
  {
    assert b + others == a + (b - a) + others;
  }

  lemma {:induction false} TurnGivesRoom(c: Config, m: Model, sys: System)
    requires Inv(c, m, sys) && Shaped(c, sys.sched) && AllHadRoom(c, m, Flat(sys.sched.results))
    requires Cycle(c, m, sys).Goes?
    ensures AllHadRoom(c, m, Flat(Cycle(c, m, sys).sys.sched.results))
  {
    hide Inv, Cycle, Settle, Flown, Issued, Fits, Filled;
    var h, store, tokens := TurnEffect(c, m, sys);
    forall i | 0 <= i < |h.slots[h.cur]|
      ensures Issued(c, m, h.slots[h.cur][i]) && |h.slots[h.cur][i].blocks| <= c.maxBlocks
    {
      FlyingWithinCache(c, m, h, store, i);
    }
    SettledHadRoom(c, m, h.slots[h.cur], tokens, h.pool);
    var d := Settle(h.slots[h.cur], tokens, h.pool);
    FlatConcat(h.results, [d.finished]);
    FlatSingle(d.finished);
  }

  lemma {:induction false} RunGivesRoom(c: Config, m: Model, start: System, history: seq<Event>)
    requires Initial(c, m, start) && GoodHistory(history) && Run(c, m, start, history).Goes?
    ensures AllHadRoom(c, m, Flat(Run(c, m, start, history).sys.sched.results))
  {
    if history != [] {
      var h := history[..|history| - 1];
      RunGivesRoom(c, m, start, h);
      RunKeeps(c, m, start, h);
      if history[|history| - 1].Turn? { TurnGivesRoom(c, m, Run(c, m, start, h).sys); }
    }
  }

  lemma {:induction false} TurnsGiveRoom(c: Config, m: Model, sys: System, n: nat)
    requires Inv(c, m, sys) && Shaped(c, sys.sched) && AllHadRoom(c, m, Flat(sys.sched.results))
    requires TurnsFrom(c, m, sys, n).Goes?
    ensures AllHadRoom(c, m, Flat(TurnsFrom(c, m, sys, n).sys.sched.results))
    decreases n
  {
    hide Inv, Cycle, AllHadRoom, AllKeys, UniformSampling, BatchOf;
    if n > 0 {
      CycleKeeps(c, m, sys);
      TurnGivesRoom(c, m, sys);
      TurnsGiveRoom(c, m, Cycle(c, m, sys).sys, n - 1);
    }
  }

  /** Only requests that fit finish, however long the engine turns. */
  lemma {:induction false} FinishedFit(c: Config, m: Model, sys: System, keys: multiset<Key>, n: nat)
    requires Inv(c, m, sys) && Shaped(c, sys.sched) && AllHadRoom(c, m, Flat(sys.sched.results))
    requires FinishedAfter(c, m, sys, keys, n)
    ensures forall key :: key in keys ==> Fits(c, m, key)
  {
    hide Inv, TurnsFrom, Fits, Delivered, Flat;
    TurnsGiveRoom(c, m, sys, n);
    forall key | key in keys ensures Fits(c, m, key) {
      var r := Holder(Flat(TurnsFrom(c, m, sys, n).sys.sched.results), key);
    }
  }

  lemma {:induction false} Holder(s: seq<Req>, key: Key) returns (r: Req)
    requires key in Keys(s)
    ensures r in s && KeyOf(r) == key
  {
    hide KeyOf;
    if key in KeyBag(s[0]) { r := s[0]; } else { r := Holder(s[1..], key); }
  }

  /** Termination, for any number of stages. When prefills are chunked, or no text outgrows the token budget, a
      history is followed by finitely many turns that finish every submitted request, each with the tokens of
      the plain loop, if and only if every request fits the cache alone. */
  lemma {:induction false} EveryRequestFinishes(c: Config, m: Model, start: System, history: seq<Event>)
    requires Initial(c, m, start) && GoodHistory(history) && AllAlike(Submissions(history))
    requires forall key :: key in Submissions(history) ==> Plannable(c, m, key)
    ensures Run(c, m, start, history).Goes?
    ensures Finishes(c, m, Run(c, m, start, history).sys, Submissions(history))
            <==> forall key :: key in Submissions(history) ==> Fits(c, m, key)
  {
    hide Run, Fits, Plannable, Inv, AllHadRoom, AllAlike, BatchesAlike;
    RunGoes(c, m, start, history);
    RunKeeps(c, m, start, history);
    RunGivesRoom(c, m, start, history);
    var sys, keys := Run(c, m, start, history).sys, Submissions(history);
    if n: nat :| FinishedAfter(c, m, sys, keys, n) {
      FinishedFit(c, m, sys, keys, n);
    }
    if forall key :: key in keys ==> Fits(c, m, key) {
      var n := TurnsDrain(c, m, sys);
      DrainedIsFinished(c, m, TurnsFrom(c, m, sys, n).sys);
      assert FinishedAfter(c, m, sys, keys, n);
    }
  }

  lemma {:induction false} DrainedIsFinished(c: Config, m: Model, sys: System)
    requires Inv(c, m, sys) && Drained(sys.sched)
    ensures Keys(Flat(sys.sched.results)) == AllKeys(sys.sched)
    ensures forall r :: r in Flat(sys.sched.results) ==> Delivered(m, r)
  {
    hide RestingSlot, FlyingSlot, StoreShape, Conserved, Waiting, Aligned, Delivered, Flat;
  }
}
