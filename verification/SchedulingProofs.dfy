/** What every turn of `schedule` keeps. */
module SchedulingProofs {
  import opened Prelude
  import opened Transformer
  import opened Requests
  import opened Pages
  import opened Cache
  import opened Scheduling

  ghost function KeyBag(r: Req): multiset<Key> { multiset{KeyOf(r)} }

  /** Tokens planned in this step. */
  ghost function Steps(s: seq<Req>): int
  {
    if s == [] then 0 else s[0].step + Steps(s[1..])
  }

  /** Positions below this one were computed in earlier steps. */
  ghost function Before(r: Req): int { r.computed - r.step }

  /** In a slot between its update and its next turn. */
  ghost predicate AtRest(c: Config, m: Model, store: Store, r: Req)
    requires ValidConfig(c)
  {
    Resting(c, m, r) && Cached(c, m, store, r, r.computed)
  }

  /** In a batch, with the tokens of this step still to be computed. */
  ghost predicate Ready(c: Config, m: Model, store: Store, r: Req)
    requires ValidConfig(c)
  {
    Issued(c, m, r) && Cached(c, m, store, r, Before(r))
  }

  /** With chunked prefill, only the last request of a slot may be in the middle of its prefill. */
  ghost predicate OnlyLastMid(slot: seq<Req>)
  {
    forall i :: 0 <= i < |slot| - 1 ==> !MidPrefill(slot[i])
  }

  ghost predicate Tables(c: Config, m: Model, store: Store, w: Work)
    requires ValidConfig(c)
  {
    && w.next <= |w.active|
    && (forall i :: 0 <= i < w.next ==> Ready(c, m, store, w.active[i]))
    && (forall i :: w.next <= i < |w.active| ==> AtRest(c, m, store, w.active[i]))
    && (forall r :: r in w.queue ==> Waiting(m, r))
  }

  ghost predicate Budgets(c: Config, w: Work)
  {
    && w.next <= |w.active| <= c.maxSeqs
    && OnlyLastMid(w.active)
    && (forall i :: 0 <= i < w.next && MidPrefill(w.active[i]) ==> w.budget == 0)
    && w.budget >= |w.active| - w.next
    && Steps(w.active[..w.next]) + w.budget <= c.maxTokens
    && forall i :: 0 <= i < w.next ==> w.active[i].step >= 1
  }

  ghost function Owned(slot: seq<Req>): multiset<int> { Gather(BlocksOf, slot) }

  ghost function Keys(slot: seq<Req>): multiset<Key> { Gather(KeyBag, slot) }

  /** The invariant of both loops of `schedule`. `rest` is what the other slots own. */
  ghost predicate Working(c: Config, m: Model, store: Store, rest: multiset<int>, w: Work)
    requires ValidConfig(c)
  {
    Tables(c, m, store, w) && Conserved(c, w.pool, Owned(w.active) + rest) && Budgets(c, w)
  }

  ghost function KeysOf(w: Work): multiset<Key> { Keys(w.active) + Keys(w.queue) }

  lemma {:induction false} StepsConcat(a: seq<Req>, b: seq<Req>)
    ensures Steps(a + b) == Steps(a) + Steps(b)
  {
    if a == [] {
      assert a + b == b;
    } else {
      assert (a + b)[1..] == a[1..] + b;
      StepsConcat(a[1..], b);
    }
  }

  lemma {:induction false} StepsAppend(a: seq<Req>, r: Req)
    ensures Steps(a + [r]) == Steps(a) + r.step
  {
    StepsConcat(a, [r]);
    assert [r][1..] == [];
  }

  lemma {:induction false} StepsRemove(s: seq<Req>, i: nat)
    requires i < |s|
    ensures Steps(Remove(s, i)) == Steps(s) - s[i].step
  {
    assert s == s[..i] + [s[i]] + s[i + 1..];
    StepsConcat(s[..i] + [s[i]], s[i + 1..]);
    StepsAppend(s[..i], s[i]);
    StepsConcat(s[..i], s[i + 1..]);
  }

  /** Each request of a batch takes at least one token, so a batch is no longer than its tokens. */
  lemma {:induction false} StepsBound(s: seq<Req>)
    requires forall i :: 0 <= i < |s| ==> s[i].step >= 1
    ensures |s| <= Steps(s)
  {
    if s != [] { StepsBound(s[1..]); }
  }

  /** Planning a resting request asks for at most one page. */
  lemma {:induction false} PlanShape(c: Config, m: Model, r: Req, budget: int)
    requires ValidConfig(c) && Resting(c, m, r) && (MidPrefill(r) ==> budget >= 1)
    ensures var (tokens, upTo) := Plan(c, r, budget);
            var delta := PagesFor(c, upTo) - |r.blocks|;
            && 1 <= tokens && upTo == r.computed + tokens
            && (if MidPrefill(r) then tokens <= budget && delta <= 0 && upTo <= |r.input|
                else tokens == 1 && delta <= 1)
            && (upTo < |r.input| ==> tokens == budget)
            && PagesFor(c, Max(|r.input|, upTo)) == |r.blocks| + Max(0, delta)
  {
    var (tokens, upTo) := Plan(c, r, budget);
    if MidPrefill(r) {
      CeilDivMonotone(upTo, |r.input|, c.pageSize);
    } else {
      CeilDivMonotone(r.computed, upTo, c.pageSize);
    }
  }

  /** Once the pages it asks for are appended, the request is ready for this step. */
  lemma {:induction false} PlannedIsReady(c: Config, m: Model, store: Store, r: Req, budget: int, pages: seq<int>)
    requires ValidConfig(c) && AtRest(c, m, store, r) && (MidPrefill(r) ==> budget >= 1)
    requires |pages| == Max(0, PagesFor(c, Plan(c, r, budget).1) - |r.blocks|)
    ensures var (tokens, upTo) := Plan(c, r, budget);
            var r' := r.(step := tokens, computed := upTo, blocks := r.blocks + pages);
            Ready(c, m, store, r') && KeyOf(r') == KeyOf(r)
  {
    hide Cached;
    var (tokens, upTo) := Plan(c, r, budget);
    PlanShape(c, m, r, budget);
    var r' := r.(step := tokens, computed := upTo, blocks := r.blocks + pages);
    assert r'.Text() == r.Text();
    CachedExtends(c, m, store, r, r', r.computed, pages);
  }

  /** The next request, planned and extended, as one change to the work. */
  ghost function Extended(c: Config, w: Work, pages: seq<int>): Work
    requires w.next < |w.active|
  {
    var r := w.active[w.next];
    var (tokens, upTo) := Plan(c, r, w.budget);
    Work(w.active[w.next := r.(step := tokens, computed := upTo, blocks := r.blocks + pages)], w.next + 1,
         w.queue, Taken(w.pool, pages), w.budget - tokens)
  }

  lemma {:induction false} ExtendedBudgets(c: Config, m: Model, w: Work, pages: seq<int>)
    requires ValidConfig(c) && Budgets(c, w) && w.next < |w.active| && Resting(c, m, w.active[w.next])
    ensures Budgets(c, Extended(c, w, pages))
  {
    hide Resting;
    var k, r := w.next, w.active[w.next];
    PlanShape(c, m, r, w.budget);
    var w' := Extended(c, w, pages);
    assert w'.active[..k + 1] == w.active[..k] + [w'.active[k]];
    StepsAppend(w.active[..k], w'.active[k]);
  }

  lemma {:induction false} ExtendedTables(c: Config, m: Model, store: Store, w: Work, pages: seq<int>)
    requires ValidConfig(c) && Tables(c, m, store, w) && w.next < |w.active|
    requires MidPrefill(w.active[w.next]) ==> w.budget >= 1
    requires |pages| == Max(0, PagesFor(c, Plan(c, w.active[w.next], w.budget).1) - |w.active[w.next].blocks|)
    ensures Tables(c, m, store, Extended(c, w, pages))
  {
    hide AtRest, Ready, Waiting, Plan, PagesFor;
    PlannedIsReady(c, m, store, w.active[w.next], w.budget, pages);
  }

  lemma {:induction false} ExtendedBags(c: Config, w: Work, pages: seq<int>)
    requires w.next < |w.active|
    ensures Owned(Extended(c, w, pages).active) == Owned(w.active) + multiset(pages)
    ensures KeysOf(Extended(c, w, pages)) == KeysOf(w)
  {
    hide Plan;
    var k, r := w.next, w.active[w.next];
    var r' := Extended(c, w, pages).active[k];
    GatherUpdate(BlocksOf, w.active, k, r');
    assert multiset(r'.blocks) == multiset(r.blocks) + multiset(pages);
    CancelBag(Owned(w.active[k := r']), multiset(r.blocks), Owned(w.active), multiset(pages));
    GatherUpdate(KeyBag, w.active, k, r');
    assert KeyBag(r') == KeyBag(r);
    CancelBag(Keys(w.active[k := r']), KeyBag(r), Keys(w.active), multiset{});
  }

  /** The next request extended, and the loop gone on. */
  function Advanced(c: Config, w: Work): Work
    requires ValidConfig(c) && w.next < |w.active| && Extend(c, Planned(c, w)).Some?
  {
    var w2 := Extend(c, Planned(c, w)).value;
    w2.(next := w2.next + 1, budget := w.budget - Plan(c, w.active[w.next], w.budget).0)
  }

  /** Planning the next request and giving it its pages keeps the invariant. */
  lemma {:induction false} ExtendKeeps(c: Config, m: Model, store: Store, rest: multiset<int>, w: Work)
    requires ValidConfig(c) && Working(c, m, store, rest, w) && w.next < |w.active|
    requires Extend(c, Planned(c, w)).Some?
    ensures Working(c, m, store, rest, Advanced(c, w)) && KeysOf(Advanced(c, w)) == KeysOf(w)
  {
    hide Working, KeysOf, Plan, Extend, Planned, Extended;
    var pages := PagesOf(c, w);
    ExtendIsExtended(c, w, pages);
    ExtendedWorks(c, m, store, rest, w, pages);
  }

  /** The pages that an extension takes. */
  lemma {:induction false} PagesOf(c: Config, w: Work) returns (pages: seq<int>)
    requires ValidConfig(c) && w.next < |w.active| && Extend(c, Planned(c, w)).Some?
    ensures Allocate(c, w.pool, Plan(c, w.active[w.next], w.budget).1, |w.active[w.next].blocks|) == Some(pages)
  {
    hide Plan, Allocate;
    pages := Allocate(c, w.pool, Plan(c, w.active[w.next], w.budget).1, |w.active[w.next].blocks|).value;
  }

  lemma {:induction false} ExtendedWorks(c: Config, m: Model, store: Store, rest: multiset<int>, w: Work,
                                         pages: seq<int>)
    requires ValidConfig(c) && Working(c, m, store, rest, w) && w.next < |w.active|
    requires Allocate(c, w.pool, Plan(c, w.active[w.next], w.budget).1, |w.active[w.next].blocks|) == Some(pages)
    ensures Working(c, m, store, rest, Extended(c, w, pages)) && KeysOf(Extended(c, w, pages)) == KeysOf(w)
  {
    hide Tables, Conserved, Budgets, Plan, PagesFor, Obtain, Gather, Resting;
    var r := w.active[w.next];
    AllocateConserves(c, w.pool, Owned(w.active) + rest, PagesFor(c, Plan(c, r, w.budget).1) - |r.blocks|);
    RestsAt(c, m, store, w);
    MidHasBudget(c, w);
    ExtendedBudgets(c, m, w, pages);
    ExtendedTables(c, m, store, w, pages);
    ExtendedBags(c, w, pages);
    ExtendedPool(c, w, pages);
    SwapBag(Owned(w.active), rest, multiset(pages));
  }

  lemma {:induction false} MidHasBudget(c: Config, w: Work)
    requires Budgets(c, w) && w.next < |w.active|
    ensures w.budget >= 1
  {
  }

  lemma {:induction false} ExtendedPool(c: Config, w: Work, pages: seq<int>)
    requires w.next < |w.active|
    ensures Extended(c, w, pages).pool == Taken(w.pool, pages)
  {
  }

  lemma {:induction false} RestsAt(c: Config, m: Model, store: Store, w: Work)
    requires ValidConfig(c) && Tables(c, m, store, w) && w.next < |w.active|
    ensures Resting(c, m, w.active[w.next])
  {
    hide Resting;
    assert AtRest(c, m, store, w.active[w.next]);
  }

  lemma {:induction false} ExtendIsExtended(c: Config, w: Work, pages: seq<int>)
    requires ValidConfig(c) && w.next < |w.active|
    requires Allocate(c, w.pool, Plan(c, w.active[w.next], w.budget).1, |w.active[w.next].blocks|) == Some(pages)
    ensures var w2 := Extend(c, Planned(c, w));
            w2.Some? && Advanced(c, w) == Extended(c, w, pages)
  {
    hide Plan, Allocate;
    assert Extend(c, Planned(c, w)).value.active == Extended(c, w, pages).active;
  }

  lemma {:induction false} EvictTables(c: Config, m: Model, store: Store, w: Work, v: nat)
    requires ValidConfig(c) && Tables(c, m, store, w) && v < |w.active|
    ensures Tables(c, m, store, Evict(w, v))
    ensures OnTrack(m, w.active[v]) && |w.active[v].blocks| >= 1
    ensures KeyOf(w.active[v].Fold()) == KeyOf(w.active[v])
  {
    hide Waiting;
    var r := w.active[v];
    assert v < w.next ==> Ready(c, m, store, r);
    assert v >= w.next ==> AtRest(c, m, store, r);
    FoldKeeps(m, r);
    CeilDivMonotone(1, Max(|r.input|, r.computed), c.pageSize);
    CeilDivUnique(1, c.pageSize, 1);
  }

  lemma {:induction false} EvictBudgets(c: Config, w: Work, v: nat)
    requires Budgets(c, w) && v < |w.active|
    ensures Budgets(c, Evict(w, v))
  {
    var w' := Evict(w, v);
    if v < w.next {
      StepsRemove(w.active[..w.next], v);
      assert w'.active[..w'.next] == Remove(w.active[..w.next], v);
    } else {
      assert w'.active[..w'.next] == w.active[..w.next];
    }
  }

  /** Preempting any request keeps the invariant: its pages return to the pool, once each. */
  lemma {:induction false} EvictKeeps(c: Config, m: Model, store: Store, rest: multiset<int>, w: Work, v: nat)
    requires ValidConfig(c) && Working(c, m, store, rest, w) && v < |w.active|
    ensures Working(c, m, store, rest, Evict(w, v))
    ensures KeysOf(Evict(w, v)) == KeysOf(w)
    ensures |Evict(w, v).pool.free| > |w.pool.free|
  {
    hide Tables, Budgets, Conserved, Released, Gather;
    EvictTables(c, m, store, w, v);
    EvictBudgets(c, w, v);
    EvictPages(c, w, v, rest);
    EvictKeys(w, v);
  }

  lemma {:induction false} EvictPages(c: Config, w: Work, v: nat, rest: multiset<int>)
    requires v < |w.active| && Conserved(c, w.pool, Owned(w.active) + rest)
    ensures Conserved(c, Evict(w, v).pool, Owned(Evict(w, v).active) + rest)
    ensures |Evict(w, v).pool.free| == |w.pool.free| + |w.active[v].blocks|
  {
    hide Conserved, Released;
    var left, gone := Owned(Remove(w.active, v)), multiset(w.active[v].blocks);
    GatherRemove(BlocksOf, w.active, v);
    SwapBag(left, gone, rest);
    ReleaseConserves(c, w.pool, left + rest, w.active[v].blocks);
  }

  lemma {:induction false} EvictKeys(w: Work, v: nat)
    requires v < |w.active| && KeyOf(w.active[v].Fold()) == KeyOf(w.active[v])
    ensures KeysOf(Evict(w, v)) == KeysOf(w)
  {
    hide Released, KeyOf;
    var r := w.active[v];
    GatherRemove(KeyBag, w.active, v);
    GatherConcat(KeyBag, w.queue, [r.Fold()]);
    GatherSingle(KeyBag, r.Fold());
    SwapBag(Keys(Remove(w.active, v)), KeyBag(r), Keys(w.queue));
  }

  /** Preempting another request after the plan was written down is preempting it before. */
  lemma {:induction false} EvictCommutes(c: Config, w: Work, v: nat)
    requires w.next < |w.active| && v < |w.active|
    ensures v != w.next ==> Evict(Planned(c, w), v) == Planned(c, Evict(w, v))
  {
    hide Plan, Released;
    if v != w.next {
      EvictOther(w, v);
      assert Evict(Planned(c, w), v).active == Planned(c, Evict(w, v)).active;
    }
  }

  /** A request preempted by its own extension folds as if it had not been planned. */
  lemma {:induction false} EvictSelf(c: Config, w: Work)
    requires w.next < |w.active|
    ensures Evict(Planned(c, w), w.next) == Evict(w, w.next)
  {
    hide Plan;
    assert Remove(Planned(c, w).active, w.next) == Remove(w.active, w.next);
  }

  /** Out of pages for the next request, and another one is preempted: the retry succeeds. The
      second failure of `_extend_or_preempt` never happens. */
  lemma {:induction false} RetrySucceeds(c: Config, m: Model, store: Store, rest: multiset<int>, w: Work, v: nat)
    requires ValidConfig(c) && Working(c, m, store, rest, w) && w.next < |w.active| && v < |w.active|
    requires Extend(c, Planned(c, w)).None? && v != w.next
    ensures Extend(c, Evict(Planned(c, w), v)).Some?
  {
    hide Tables, Conserved, Released, Plan, PagesFor, Gather;
    RestsAt(c, m, store, w);
    PlanShape(c, m, w.active[w.next], w.budget);
    EvictCommutes(c, w, v);
    EvictKeeps(c, m, store, rest, w, v);
    var w2 := Evict(w, v);
    assert w2.active[w2.next] == w.active[w.next];
    NeedsAtMost(c, w, v);
  }

  /** A failed extension by at most one page means an empty pool; one free page is then enough. */
  lemma {:induction false} NeedsAtMost(c: Config, w: Work, v: nat)
    requires ValidConfig(c) && w.next < |w.active| && v < |w.active| && v != w.next
    requires var r := w.active[w.next]; PagesFor(c, Plan(c, r, w.budget).1) - |r.blocks| <= 1
    requires |Evict(w, v).pool.free| >= 1
    ensures Extend(c, Planned(c, Evict(w, v))).Some?
  {
    hide Plan, PagesFor, Released;
    var w2 := Evict(w, v);
    assert w2.active[w2.next] == w.active[w.next];
  }

  lemma {:induction false} PlannedLength(c: Config, w: Work)
    requires w.next < |w.active|
    ensures |Planned(c, w).active| == |w.active|
  {
  }

  /** A turn of the planning loop is an extension, or an eviction, or an eviction and then an extension. */
  lemma {:induction false} PlanNextIs(c: Config, w: Work)
    requires ValidConfig(c) && w.next < |w.active|
    ensures Planned(c, w).active != []
    ensures Extend(c, Planned(c, w)).Some? ==> PlanNext(c, w) == Advanced(c, w)
    ensures var v := LeastProgress(Planned(c, w).active);
            Extend(c, Planned(c, w)).None? && v == w.next ==> PlanNext(c, w) == Evict(Planned(c, w), v)
  {
    hide Plan, Extend, Evict;
  }

  lemma {:induction false} PlanNextRetries(c: Config, w: Work)
    requires ValidConfig(c) && w.next < |w.active| && Extend(c, Planned(c, w)).None?
    requires var v := LeastProgress(Planned(c, w).active);
             v != w.next && Extend(c, Evict(Planned(c, w), v)).Some?
    ensures var w2 := Evict(w, LeastProgress(Planned(c, w).active));
            w2.next < |w2.active| && Extend(c, Planned(c, w2)).Some? && PlanNext(c, w) == Advanced(c, w2)
  {
    hide Plan, Extend, LeastProgress, Evict, Planned;
    PlannedLength(c, w);
    var v := LeastProgress(Planned(c, w).active);
    EvictCommutes(c, w, v);
    EvictOther(w, v);
  }

  /** Evicting another request leaves the next one and the budget alone. */
  lemma {:induction false} EvictOther(w: Work, v: nat)
    requires w.next < |w.active| && v < |w.active| && v != w.next
    ensures var w2 := Evict(w, v);
            w2.next < |w2.active| && w2.active[w2.next] == w.active[w.next] && w2.budget == w.budget
  {
    hide Released;
  }

  lemma {:induction false} PlanNextKeeps(c: Config, m: Model, store: Store, rest: multiset<int>, w: Work)
    requires ValidConfig(c) && Working(c, m, store, rest, w) && w.next < |w.active|
    ensures Working(c, m, store, rest, PlanNext(c, w))
    ensures KeysOf(PlanNext(c, w)) == KeysOf(w)
  {
    hide Working, KeysOf, Plan, Extend, PlanNext, Evict;
    PlanNextIs(c, w);
    if Extend(c, Planned(c, w)).Some? {
      ExtendKeeps(c, m, store, rest, w);
    } else {
      PlannedLength(c, w);
      var v := LeastProgress(Planned(c, w).active);
      EvictKeeps(c, m, store, rest, w, v);
      if v == w.next {
        EvictSelf(c, w);
      } else {
        RetrySucceeds(c, m, store, rest, w, v);
        PlanNextRetries(c, w);
        ExtendKeeps(c, m, store, rest, Evict(w, v));
      }
    }
  }

  lemma {:induction false} PlanAllKeeps(c: Config, m: Model, store: Store, rest: multiset<int>, w: Work)
    requires ValidConfig(c) && w.next <= |w.active| && Working(c, m, store, rest, w)
    ensures Working(c, m, store, rest, PlanAll(c, w)) && PlanAll(c, w).next == |PlanAll(c, w).active|
    ensures KeysOf(PlanAll(c, w)) == KeysOf(w)
    decreases |w.active| - w.next
  {
    hide Working, KeysOf, PlanNext;
    if w.next < |w.active| {
      PlanNextKeeps(c, m, store, rest, w);
      PlanAllKeeps(c, m, store, rest, PlanNext(c, w));
    }
  }

  /** A request taken from the queue is ready once it has the pages of its input. */
  lemma {:induction false} AdmittedIsReady(c: Config, m: Model, store: Store, r: Req, budget: int, pages: seq<int>)
    requires ValidConfig(c) && Waiting(m, r) && budget >= 1
    requires |pages| == PagesFor(c, |r.input|) && budget >= Plan(c, r, budget).0
    ensures var (tokens, upTo) := Plan(c, r, budget);
            var r' := r.Activate(pages).(step := tokens, computed := upTo);
            && Ready(c, m, store, r') && KeyOf(r') == KeyOf(r) && r'.blocks == pages && tokens >= 1
            && (MidPrefill(r') ==> tokens == budget)
  {
    hide Slot, Ideal;
    var (tokens, upTo) := Plan(c, r, budget);
    assert 1 <= tokens && upTo <= |r.input|;
    var r' := r.Activate(pages).(step := tokens, computed := upTo);
    assert r'.blocks == pages;
  }

  /** The head of the queue moved into the current slot. */
  ghost function Admitted(c: Config, w: Work, pages: seq<int>): Work
    requires w.queue != []
  {
    var r := w.queue[0];
    var (tokens, upTo) := Plan(c, r, w.budget);
    Work(w.active + [r.Activate(pages).(step := tokens, computed := upTo)], |w.active| + 1,
         w.queue[1..], Taken(w.pool, pages), w.budget - tokens)
  }

  lemma {:induction false} AdmittedKeeps(c: Config, m: Model, store: Store, rest: multiset<int>, w: Work)
    requires ValidConfig(c) && Working(c, m, store, rest, w) && w.next == |w.active| < c.maxSeqs
    requires w.budget > 0 && w.queue != [] && w.budget >= Plan(c, w.queue[0], w.budget).0
    requires Allocate(c, w.pool, |w.queue[0].input|, 0).Some?
    ensures var w' := Admitted(c, w, Allocate(c, w.pool, |w.queue[0].input|, 0).value);
            Working(c, m, store, rest, w') && KeysOf(w') == KeysOf(w)
  {
    hide Waiting, Ready, AtRest, Conserved, Plan, PagesFor, Budgets, Gather, Obtain;
    var r := w.queue[0];
    var pages := Allocate(c, w.pool, |r.input|, 0).value;
    AllocateConserves(c, w.pool, Owned(w.active) + rest, PagesFor(c, |r.input|));
    PagesNonNegative(c, |r.input|);
    AdmittedIsReady(c, m, store, r, w.budget, pages);
    WaitsWithoutPages(m, r);
    AdmittedOwned(c, w, pages);
    SwapBag(Owned(w.active), multiset(pages), rest);
    AdmittedKeys(c, w, pages);
    AdmittedBudgets(c, w, pages);
    AdmittedTables(c, m, store, w, pages);
  }

  lemma {:induction false} WaitsWithoutPages(m: Model, r: Req)
    requires Waiting(m, r)
    ensures r.blocks == []
  {
  }

  lemma {:induction false} AdmittedTables(c: Config, m: Model, store: Store, w: Work, pages: seq<int>)
    requires ValidConfig(c) && Tables(c, m, store, w) && w.next == |w.active| && w.queue != []
    requires Ready(c, m, store, Admitted(c, w, pages).active[|w.active|])
    ensures Tables(c, m, store, Admitted(c, w, pages))
  {
    hide Waiting, Ready, AtRest, Plan;
  }

  lemma {:induction false} AdmittedOwned(c: Config, w: Work, pages: seq<int>)
    requires w.queue != [] && w.queue[0].blocks == []
    ensures Owned(Admitted(c, w, pages).active) == Owned(w.active) + multiset(pages)
  {
    hide Plan;
    var r' := Admitted(c, w, pages).active[|w.active|];
    GatherConcat(BlocksOf, w.active, [r']);
    GatherSingle(BlocksOf, r');
    assert r'.blocks == pages;
  }

  lemma {:induction false} PagesNonNegative(c: Config, n: nat)
    requires ValidConfig(c)
    ensures PagesFor(c, n) >= 0
  {
  }

  lemma {:induction false} KeyOfActivated(r: Req, pages: seq<int>, step: int, computed: int)
    ensures KeyOf(r.Activate(pages).(step := step, computed := computed)) == KeyOf(r)
  {
  }

  lemma {:induction false} AdmittedKeys(c: Config, w: Work, pages: seq<int>)
    requires w.queue != []
    ensures KeysOf(Admitted(c, w, pages)) == KeysOf(w)
  {
    hide Plan, KeyOf;
    var w' := Admitted(c, w, pages);
    var r' := w'.active[|w.active|];
    KeyOfActivated(w.queue[0], pages, r'.step, r'.computed);
    GatherConcat(KeyBag, w.active, [r']);
    GatherSingle(KeyBag, r');
    assert w.queue == [w.queue[0]] + w.queue[1..];
    GatherConcat(KeyBag, [w.queue[0]], w.queue[1..]);
    GatherSingle(KeyBag, w.queue[0]);
  }

  lemma {:induction false} AdmittedBudgets(c: Config, w: Work, pages: seq<int>)
    requires Budgets(c, w) && w.next == |w.active| < c.maxSeqs && w.budget > 0 && w.queue != []
    requires var w' := Admitted(c, w, pages);
             var r' := w'.active[|w.active|];
             1 <= r'.step <= w.budget && (MidPrefill(r') ==> r'.step == w.budget)
    ensures Budgets(c, Admitted(c, w, pages))
  {
    hide Plan;
    var w' := Admitted(c, w, pages);
    assert w.active[..w.next] == w.active;
    assert w'.active[..w'.next] == w'.active;
    StepsAppend(w.active, w'.active[|w.active|]);
  }

  /** `Admit` neither reads nor changes the planning index. */
  lemma {:induction false} AdmitIgnoresNext(c: Config, w: Work, next: nat, seqs: int)
    requires ValidConfig(c)
    ensures Admit(c, w.(next := next), seqs) == Admit(c, w, seqs).(next := next)
    decreases Max(0, seqs)
  {
    hide Plan, Allocate;
    if w.budget > 0 && seqs > 0 && w.queue != [] {
      var r := w.queue[0];
      var (tokens, upTo) := Plan(c, r, w.budget);
      var a := Allocate(c, w.pool, |r.input|, 0);
      if w.budget >= tokens && a.Some? {
        var w1 := Admitted(c, w, a.value).(next := w.next);
        AdmitIgnoresNext(c, w1, next, seqs - 1);
      }
    }
  }

  lemma {:induction false} QueueIsNoBudget(c: Config, w: Work, queue: seq<Req>)
    requires Budgets(c, w)
    ensures Budgets(c, w.(queue := queue))
  {
  }

  lemma {:induction false} PutBackKeeps(c: Config, m: Model, store: Store, rest: multiset<int>, w: Work)
    requires ValidConfig(c) && Working(c, m, store, rest, w) && w.queue != []
    ensures var w' := w.(queue := w.queue[1..] + [w.queue[0]]);
            Working(c, m, store, rest, w') && KeysOf(w') == KeysOf(w)
  {
    hide Waiting, Ready, AtRest, Conserved, Budgets;
    var r := w.queue[0];
    QueueIsNoBudget(c, w, w.queue[1..] + [r]);
    PutBackKeys(w);
  }

  lemma {:induction false} PutBackKeys(w: Work)
    requires w.queue != []
    ensures KeysOf(w.(queue := w.queue[1..] + [w.queue[0]])) == KeysOf(w)
  {
    assert w.queue == [w.queue[0]] + w.queue[1..];
    GatherConcat(KeyBag, [w.queue[0]], w.queue[1..]);
    GatherConcat(KeyBag, w.queue[1..], [w.queue[0]]);
  }

  lemma {:induction false} AdmitKeeps(c: Config, m: Model, store: Store, rest: multiset<int>, w: Work, seqs: int)
    requires ValidConfig(c) && Working(c, m, store, rest, w) && w.next == |w.active|
    requires |w.active| + seqs <= c.maxSeqs
    ensures var w' := Admit(c, w, seqs);
            Working(c, m, store, rest, w'.(next := |w'.active|)) && KeysOf(w') == KeysOf(w)
    decreases Max(0, seqs)
  {
    hide Working, KeysOf, Plan, Allocate;
    if w.budget > 0 && seqs > 0 && w.queue != [] {
      var tokens := Plan(c, w.queue[0], w.budget).0;
      var a := Allocate(c, w.pool, |w.queue[0].input|, 0);
      if w.budget < tokens || a.None? {
        PutBackKeeps(c, m, store, rest, w);
      } else {
        AdmittedKeeps(c, m, store, rest, w);
        var w1 := Admitted(c, w, a.value);
        AdmitKeeps(c, m, store, rest, w1, seqs - 1);
        AdmitIgnoresNext(c, w1, w.next, seqs - 1);
        KeysIgnoreNext(Admit(c, w1, seqs - 1), w.next);
      }
    }
  }

  lemma {:induction false} KeysIgnoreNext(w: Work, next: nat)
    ensures KeysOf(w.(next := next)) == KeysOf(w)
  {
  }
}
