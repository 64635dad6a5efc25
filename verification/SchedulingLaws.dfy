/**
 What the numbers and the order in `schedule` and `update` come to, said without the functions that compute them:
 how many requests a turn admits, what the token budget pays for, and where each request goes.
 */
module SchedulingLaws {
  import opened Prelude
  import opened Transformer
  import opened Requests
  import opened Pages
  import opened Cache
  import opened Scheduling
  import opened SchedulingProofs
  import opened Device
  import opened DeviceProofs
  import opened Engine
  import opened Invariants
  import opened PhaseProofs
  import opened Runs

  /** `r` sequences of the average size in use, at least one page each, fit one slot's part of the free pages. */
  predicate Affords(used: nat, free: nat, inflight: int, slots: nat, r: int)
    requires slots > 0
  {
    r * Max(used, Max(1, inflight)) <= Max(1, free / slots) * Max(1, inflight)
  }

  lemma {:induction false} QuotientFloor(f: nat, n: nat, big: nat, perSeq: real, x: real, q: int)
    requires n > 0 && big > 0 && perSeq * n as real == big as real
    requires x * perSeq == f as real && q as real <= x < (q + 1) as real
    ensures q * big <= f * n < (q + 1) * big
  {
    ScaleBounds(q as real, x, (q + 1) as real, big as real);
    Regroup(x, perSeq, n as real);
    assert x * big as real == f as real * n as real;
    AsInts(q, big, f, n);
    AsInts(q + 1, big, f, n);
  }

  lemma {:induction false} Regroup(x: real, y: real, z: real)
    ensures x * (y * z) == (x * y) * z
  {
  }

  lemma {:induction false} AsInts(a: int, b: int, c: int, d: int)
    ensures a as real * b as real <= c as real * d as real <==> a * b <= c * d
  {
    assert a as real * b as real == (a * b) as real && c as real * d as real == (c * d) as real;
  }

  lemma {:induction false} PerSequence(used: nat, n: nat, perSeq: real)
    requires n > 0 && perSeq == (if used as real / n as real > 1.0 then used as real / n as real else 1.0)
    ensures perSeq >= 1.0 && perSeq * n as real == Max(used, n) as real
  {
    var ratio := used as real / n as real;
    assert ratio * n as real == used as real;
  }

  lemma {:induction false} ScaleBounds(a: real, x: real, b: real, z: real)
    requires a <= x < b && z > 0.0
    ensures a * z <= x * z < b * z
  {
    assert (x - a) * z >= 0.0 && (b - x) * z > 0.0;
  }

  /** The fair share is the largest number of sequences that the slot's part affords, or 1 if it affords none. */
  lemma {:induction false} FairShareIsLargest(used: nat, free: nat, inflight: nat, slots: nat)
    requires slots > 0
    ensures var r := FairShare(used, free, inflight, slots);
            && r >= 1
            && (r > 1 ==> Affords(used, free, inflight, slots, r))
            && forall k: int :: k > r ==> !Affords(used, free, inflight, slots, k)
  {
    var n, f := Max(1, inflight), Max(1, free / slots);
    var ratio := used as real / n as real;
    var perSeq := if ratio > 1.0 then ratio else 1.0;
    var q := (f as real / perSeq).Floor;
    PerSequence(used, n, perSeq);
    QuotientFloor(f, n, Max(used, n), perSeq, f as real / perSeq, q);
    forall k: int | k > Max(1, q) ensures !Affords(used, free, inflight, slots, k) {
      MulLe(q + 1, k, Max(used, n));
    }
  }

  /** More free pages never lower it, more used pages never raise it. */
  lemma {:induction false} FairShareMoves(used: nat, used': nat, free: nat, free': nat, inflight: nat, slots: nat)
    requires slots > 0 && used' <= used && free <= free'
    ensures FairShare(used, free, inflight, slots) <= FairShare(used', free', inflight, slots)
  {
    hide FairShare, Affords;
    var r := FairShare(used, free, inflight, slots);
    FairShareIsLargest(used, free, inflight, slots);
    FairShareIsLargest(used', free', inflight, slots);
    if r > 1 { StillAffords(used, used', free, free', inflight, slots, r); }
  }

  lemma {:induction false} StillAffords(used: nat, used': nat, free: nat, free': nat, inflight: nat, slots: nat, r: nat)
    requires slots > 0 && used' <= used && free <= free' && Affords(used, free, inflight, slots, r)
    ensures Affords(used', free', inflight, slots, r)
  {
    var n := Max(1, inflight);
    QuotientGrows(free, free', slots);
    MulLe(Max(1, free / slots), Max(1, free' / slots), n);
    MulLe(Max(used', n), Max(used, n), r);
  }

  lemma {:induction false} QuotientGrows(a: nat, a': nat, b: nat)
    requires b > 0 && a <= a'
    ensures a / b <= a' / b
  {
    if a' / b < a / b { MulLe(a' / b + 1, a / b, b); }
  }

  /** Why admission stops before the slot is full: nothing to admit, no token left, or the request put back at the
      end of the queue does not fit the tokens or the free pages. */
  predicate Blocked(c: Config, w: Work)
  {
    || w.queue == []
    || w.budget <= 0
    || var r := w.queue[|w.queue| - 1];
       (!c.chunked && |r.input| > w.budget) || |r.input| > |w.pool.free| * c.pageSize
  }

  /** A request that has not begun. */
  predicate Whole(r: Req) { r.computed == 0 && r.input != [] }

  lemma {:induction false} NoRoomForPages(c: Config, pool: Pool, n: nat)
    requires ValidConfig(c)
    ensures Allocate(c, pool, n, 0).None? <==> n > |pool.free| * c.pageSize
  {
    var pages := PagesFor(c, n);
    if pages <= |pool.free| {
      MulLe(pages, |pool.free|, c.pageSize);
    } else {
      MulLe(|pool.free|, pages - 1, c.pageSize);
    }
  }

  /** The admission loop takes requests from the head of the queue in order, at most `seqs` of them, and fewer only
      when it is blocked. */
  lemma {:induction false} AdmitTakes(c: Config, w: Work, seqs: int) returns (n: nat)
    requires ValidConfig(c) && forall r :: r in w.queue ==> Whole(r)
    ensures var w' := Admit(c, w, seqs);
            && n == |w'.active| - |w.active| && n <= Max(0, seqs) && n <= |w.queue|
            && w'.active[..|w.active|] == w.active
            && (forall i :: 0 <= i < n ==> w'.active[|w.active| + i].id == w.queue[i].id)
            && (n < seqs ==> Blocked(c, w'))
            && forall r :: r in w'.queue ==> Whole(r)
    decreases Max(0, seqs)
  {
    hide Allocate, Taken;
    var w' := Admit(c, w, seqs);
    n := 0;
    if w.budget > 0 && seqs > 0 && w.queue != [] {
      var r := w.queue[0];
      var (tokens, upTo) := Plan(c, r, w.budget);
      NoRoomForPages(c, w.pool, |r.input|);
      assert Whole(r);
      if w.budget >= tokens && Allocate(c, w.pool, |r.input|, 0).Some? {
        var pages := Allocate(c, w.pool, |r.input|, 0).value;
        var r' := r.Activate(pages).(step := tokens, computed := upTo);
        var w1 := w.(active := w.active + [r'], queue := w.queue[1..], pool := Taken(w.pool, pages),
                     budget := w.budget - tokens);
        var k := AdmitTakes(c, w1, seqs - 1);
        n := k + 1;
        AdmittedInOrder(w, r', w'.active, k);
      }
    }
  }

  lemma {:induction false} AdmittedInOrder(w: Work, r': Req, active: seq<Req>, k: nat)
    requires w.queue != [] && k <= |w.queue| - 1 && |active| == |w.active| + 1 + k && r'.id == w.queue[0].id
    requires active[..|w.active| + 1] == w.active + [r']
    requires forall i :: 0 <= i < k ==> active[|w.active| + 1 + i].id == w.queue[1..][i].id
    ensures active[..|w.active|] == w.active
    ensures forall i :: 0 <= i < k + 1 ==> active[|w.active| + i].id == w.queue[i].id
  {
    assert active[..|w.active|] == active[..|w.active| + 1][..|w.active|];
    forall i | 0 <= i < k + 1 ensures active[|w.active| + i].id == w.queue[i].id {
      if i == 0 {
        assert active[|w.active|] == active[..|w.active| + 1][|w.active|];
      } else {
        assert active[|w.active| + 1 + (i - 1)].id == w.queue[1..][i - 1].id;
      }
    }
  }

  /** The number of requests that a turn admits. Without fair share the slot is filled up to `max_num_seqs` unless
      admission is blocked; with fair share it gets one request, or as many as its part of the free pages affords. */
  lemma {:induction false} ScheduleAdmits(c: Config, m: Model, sys: System) returns (planned: Work, n: nat)
    requires Inv(c, m, sys)
    ensures Shaped(c, sys.sched)
    ensures planned == PlanAll(c, WorkOf(c, sys.sched))
    ensures var w := Filled(c, sys.sched);
            var room := c.maxSeqs - |planned.active|;
            var inflight := |planned.active| + |Flat(sys.sched.slots)| - |sys.sched.slots[sys.sched.cur]|;
            var used, free := |planned.pool.used|, |planned.pool.free|;
            && w.active == Schedule(c, sys.sched).slots[sys.sched.cur] && w.queue == Schedule(c, sys.sched).queue
            && n == |w.active| - |planned.active| && n <= room && n <= |planned.queue|
            && w.active[..|planned.active|] == planned.active
            && (forall i :: 0 <= i < n ==> w.active[|planned.active| + i].id == planned.queue[i].id)
            && if c.numSlots > 1 && c.fairShare then
                 && (n <= 1 || Affords(used, free, inflight, c.numSlots, n))
                 && (n < room && !Blocked(c, w) ==> n >= 1 && !Affords(used, free, inflight, c.numSlots, n + 1))
               else n < room ==> Blocked(c, w)
  {
    hide RestingSlot, Aligned, StoreShape, FlyingSlot, Working, PlanAll, Admit, FairShare, Affords, Blocked, Conserved,
      Delivered;
    var s := sys.sched;
    planned := PlanAll(c, WorkOf(c, s));
    var inflight := |planned.active| + OtherInflight(s);
    OthersCounted(s);
    PlannedQueue(c, m, sys, planned);
    n := AdmitTakes(c, planned, SeqsBudget(c, planned, OtherInflight(s)));
    var share := FairShare(|planned.pool.used|, |planned.pool.free|, inflight, c.numSlots);
    FairShareIsLargest(|planned.pool.used|, |planned.pool.free|, inflight, c.numSlots);
    if 1 < n <= share { FewerAfford(|planned.pool.used|, |planned.pool.free|, inflight, c.numSlots, n, share); }
  }

  lemma {:induction false} FewerAfford(used: nat, free: nat, inflight: nat, slots: nat, n: nat, r: nat)
    requires slots > 0 && n <= r && Affords(used, free, inflight, slots, r)
    ensures Affords(used, free, inflight, slots, n)
  {
    MulLe(n, r, Max(used, Max(1, inflight)));
  }

  lemma {:induction false} OthersCounted(s: State)
    requires s.cur < |s.slots|
    ensures OtherInflight(s) == |Flat(s.slots)| - |s.slots[s.cur]|
  {
    LengthOfFlat(s.slots[..s.cur]);
    LengthOfFlat(s.slots[s.cur + 1..]);
    FlatConcat(s.slots[..s.cur], [s.slots[s.cur]] + s.slots[s.cur + 1..]);
    assert s.slots == s.slots[..s.cur] + ([s.slots[s.cur]] + s.slots[s.cur + 1..]);
    assert ([s.slots[s.cur]] + s.slots[s.cur + 1..])[1..] == s.slots[s.cur + 1..];
  }

  lemma {:induction false} LengthOfFlat<T>(ss: seq<seq<T>>)
    ensures TotalLength(ss) == |Flat(ss)|
  {
    if ss != [] { LengthOfFlat(ss[1..]); }
  }

  lemma {:induction false} PlannedQueue(c: Config, m: Model, sys: System, planned: Work)
    requires Inv(c, m, sys) && planned == PlanAll(c, WorkOf(c, sys.sched))
    ensures |planned.active| <= c.maxSeqs && forall r :: r in planned.queue ==> Whole(r)
  {
    hide RestingSlot, Aligned, StoreShape, FlyingSlot, PlanAll, Delivered, Conserved, Ready, AtRest;
    var s, rest := sys.sched, Rest(BlocksOf, sys.sched.slots, sys.sched.cur);
    SlotPages(c, s.pool, s.slots, s.cur);
    StartIsWorking(c, m, sys.store, s, rest);
    PlanAllKeeps(c, m, sys.store, rest, WorkOf(c, s));
  }

  /** Chunked prefill leaves no token unused: a request that `schedule` leaves in the middle of its prefill is the last
      of its batch, and no token of the budget is left. */
  lemma {:induction false} PrefillTakesTheRest(c: Config, m: Model, sys: System, i: nat)
    requires Inv(c, m, sys)
    ensures Shaped(c, sys.sched)
    ensures var w := Filled(c, sys.sched);
            i < |w.active| && MidPrefill(w.active[i]) ==> i == |w.active| - 1 && w.budget == 0
  {
    hide RestingSlot, Aligned, StoreShape, FlyingSlot, PlanAll, Admit, Delivered, Conserved, SeqsBudget, Tables,
      MidPrefill;
    var s, rest := sys.sched, Rest(BlocksOf, sys.sched.slots, sys.sched.cur);
    SlotPages(c, s.pool, s.slots, s.cur);
    StartIsWorking(c, m, sys.store, s, rest);
    PlanAllKeeps(c, m, sys.store, rest, WorkOf(c, s));
    var w := PlanAll(c, WorkOf(c, s));
    SeqsBudgetFits(c, w, OtherInflight(s));
    AdmitKeeps(c, m, sys.store, rest, w, SeqsBudget(c, w, OtherInflight(s)));
  }

  /** What a turn of the planning loop spends: exactly the tokens of the request it plans. Those of a planned
      request that it preempts are lost, and a request that preempts itself costs nothing. */
  lemma {:induction false} PlanNextPays(c: Config, m: Model, store: Store, rest: multiset<int>, w: Work)
    returns (evicted: Option<nat>)
    requires ValidConfig(c) && Working(c, m, store, rest, w) && w.next < |w.active|
    ensures var w' := PlanNext(c, w);
            && w'.next <= |w'.active|
            && Spent(w') == Spent(w) - Lost(w, evicted)
            && (evicted == None ==> |w'.active| == |w.active|)
            && (evicted != None ==> evicted.value < |w.active| && |w'.active| == |w.active| - 1)
            && (evicted == Some(w.next) ==> w'.budget == w.budget && w'.next == w.next)
  {
    hide Working, Plan, Extend, PlanNext, Evict, Spent, Advanced, LeastProgress, Planned;
    PlanNextIs(c, w);
    PlannedLength(c, w);
    PlannedPlace(c, w);
    if Extend(c, Planned(c, w)).Some? {
      AdvancedPays(c, w);
      evicted := None;
    } else {
      var v := LeastProgress(Planned(c, w).active);
      EvictPays(w, v);
      evicted := Some(v);
      if v == w.next {
        EvictSelf(c, w);
      } else {
        RetrySucceeds(c, m, store, rest, w, v);
        PlanNextRetries(c, w);
        AdvancedPays(c, Evict(w, v));
      }
    }
  }

  lemma {:induction false} PlannedPlace(c: Config, w: Work)
    requires w.next < |w.active|
    ensures Planned(c, w).next == w.next
  {
  }

  /** A request's progress; the next one's counts the tokens it has just been given. */
  function Progress(w: Work, upTo: int, i: nat): int
    requires i < |w.active|
  {
    if i == w.next then upTo else w.active[i].computed
  }

  /** The first request with the least progress. */
  predicate IsVictim(w: Work, upTo: int, v: nat)
  {
    && v < |w.active|
    && (forall i :: 0 <= i < |w.active| ==> Progress(w, upTo, v) <= Progress(w, upTo, i))
    && forall i :: 0 <= i < v ==> Progress(w, upTo, v) < Progress(w, upTo, i)
  }

  lemma {:induction false} LeastIsVictim(c: Config, w: Work)
    requires w.next < |w.active|
    ensures Planned(c, w).active != []
    ensures IsVictim(w, Plan(c, w.active[w.next], w.budget).1, LeastProgress(Planned(c, w).active))
  {
    hide Plan;
    var planned := Planned(c, w).active;
    var upTo := Plan(c, w.active[w.next], w.budget).1;
    assert forall i :: 0 <= i < |w.active| ==> planned[i].computed == Progress(w, upTo, i);
  }

  lemma {:induction false} PagesAreEnough(c: Config, w: Work)
    requires ValidConfig(c) && w.next < |w.active|
    ensures var r, upTo := w.active[w.next], Plan(c, w.active[w.next], w.budget).1;
            Extend(c, Planned(c, w)).Some? <==> PagesFor(c, upTo) - |r.blocks| <= |w.pool.free|
  {
    hide Plan, PagesFor, Lowest;
  }

  lemma {:induction false} QueueAfterTurn(c: Config, w: Work)
    requires ValidConfig(c) && w.next < |w.active|
    ensures Planned(c, w).active != []
    ensures var v := LeastProgress(Planned(c, w).active);
            PlanNext(c, w).queue
            == w.queue + if Extend(c, Planned(c, w)).Some? then [] else [w.active[v].Fold()]
  {
    hide Plan, Extend, Evict, LeastProgress;
    var w1 := Planned(c, w);
    var v := LeastProgress(w1.active);
    ExtendedQueue(c, w1);
    EvictedQueue(w1, v);
    ExtendedQueue(c, Evict(w1, v));
    assert w1.queue + [] == w1.queue;
    assert w1.active[v].Fold() == w.active[v].Fold();
  }

  lemma {:induction false} ExtendedQueue(c: Config, w: Work)
    requires ValidConfig(c)
    ensures w.next < |w.active| && Extend(c, w).Some? ==> Extend(c, w).value.queue == w.queue
  {
  }

  lemma {:induction false} EvictedQueue(w: Work, v: nat)
    requires v < |w.active|
    ensures Evict(w, v).queue == w.queue + [w.active[v].Fold()]
    ensures w.next < |w.active| && v != w.next ==> Evict(w, v).next < |Evict(w, v).active|
  {
  }

  /** Whom a turn of the planning loop preempts: nobody if the free pages are enough for the next request, else that
      one request, which goes to the end of the queue. */
  lemma {:induction false} TurnEvicts(c: Config, w: Work) returns (evicted: Option<nat>)
    requires ValidConfig(c) && w.next < |w.active|
    ensures var r, upTo := w.active[w.next], Plan(c, w.active[w.next], w.budget).1;
            && (evicted == None <==> PagesFor(c, upTo) - |r.blocks| <= |w.pool.free|)
            && (evicted != None ==> IsVictim(w, upTo, evicted.value))
            && PlanNext(c, w).queue == w.queue + if evicted == None then [] else [w.active[evicted.value].Fold()]
  {
    hide Plan, PagesFor, PlanNext, Planned, Extend, LeastProgress, Progress;
    PlannedLength(c, w);
    PlannedPlace(c, w);
    LeastIsVictim(c, w);
    PagesAreEnough(c, w);
    QueueAfterTurn(c, w);
    evicted := if Extend(c, Planned(c, w)).Some? then None else Some(LeastProgress(Planned(c, w).active));
  }

  /** The tokens planned so far and those still there. */
  ghost function Spent(w: Work): int
    requires w.next <= |w.active|
  {
    w.budget + Steps(w.active[..w.next])
  }

  ghost function Lost(w: Work, evicted: Option<nat>): int
  {
    if evicted.Some? && evicted.value < w.next && evicted.value < |w.active| then w.active[evicted.value].step else 0
  }

  lemma {:induction false} AdvancedPays(c: Config, w: Work)
    requires ValidConfig(c) && w.next < |w.active| && Extend(c, Planned(c, w)).Some?
    ensures var w' := Advanced(c, w);
            w'.next <= |w'.active| == |w.active| && Spent(w') == Spent(w)
  {
    hide Plan, Allocate;
    var w', k := Advanced(c, w), w.next;
    assert w'.active[..k + 1] == w.active[..k] + [w'.active[k]];
    StepsAppend(w.active[..k], w'.active[k]);
  }

  lemma {:induction false} EvictPays(w: Work, v: nat)
    requires w.next <= |w.active| && v < |w.active|
    ensures var w' := Evict(w, v);
            && w'.next <= |w'.active| == |w.active| - 1 && w'.budget == w.budget
            && Spent(w') == Spent(w) - Lost(w, Some(v))
            && (v == w.next ==> w'.next == w.next)
  {
    hide Released;
    var w' := Evict(w, v);
    if v < w.next {
      assert w'.active[..w'.next] == Remove(w.active[..w.next], v);
      StepsRemove(w.active[..w.next], v);
    } else {
      assert w'.active[..w'.next] == w.active[..w.next];
    }
  }

  lemma {:induction false} PlanAllPays(c: Config, m: Model, store: Store, rest: multiset<int>, w: Work)
    requires ValidConfig(c) && Working(c, m, store, rest, w) && w.next <= |w.active|
    ensures var w' := PlanAll(c, w);
            && w'.next == |w'.active| <= |w.active|
            && (|w'.active| == |w.active| ==> Spent(w') == Spent(w))
    decreases |w.active| - w.next
  {
    hide Working, PlanNext, Spent;
    if w.next < |w.active| {
      var evicted := PlanNextPays(c, m, store, rest, w);
      PlanNextKeeps(c, m, store, rest, w);
      PlanAllPays(c, m, store, rest, PlanNext(c, w));
    }
  }

  lemma {:induction false} AdmitPays(c: Config, w: Work, seqs: int)
    requires ValidConfig(c)
    ensures var w' := Admit(c, w, seqs);
            w'.budget + Steps(w'.active) == w.budget + Steps(w.active)
    decreases Max(0, seqs)
  {
    hide Allocate, Taken, Plan;
    if w.budget > 0 && seqs > 0 && w.queue != [] {
      var r := w.queue[0];
      var (tokens, upTo) := Plan(c, r, w.budget);
      if w.budget >= tokens && Allocate(c, w.pool, |r.input|, 0).Some? {
        var pages := Allocate(c, w.pool, |r.input|, 0).value;
        var r' := r.Activate(pages).(step := tokens, computed := upTo);
        StepsAppend(w.active, r');
        AdmitPays(c, w.(active := w.active + [r'], queue := w.queue[1..], pool := Taken(w.pool, pages),
                        budget := w.budget - tokens), seqs - 1);
      }
    }
  }

  /** A turn that preempts nobody has planned exactly the tokens that are gone from `max_num_batched_tokens`, so with a
      prefill left unfinished its batch is full. */
  lemma {:induction false} FullBatch(c: Config, m: Model, sys: System)
    requires Inv(c, m, sys)
    ensures Shaped(c, sys.sched)
    ensures var s, w := sys.sched, Filled(c, sys.sched);
            |PlanAll(c, WorkOf(c, s)).active| == |s.slots[s.cur]| ==>
              && w.budget + Steps(w.active) == c.maxTokens
              && ((exists r :: r in w.active && MidPrefill(r)) ==> Steps(w.active) == c.maxTokens)
  {
    hide RestingSlot, Aligned, StoreShape, FlyingSlot, PlanAll, Admit, Delivered, Conserved, SeqsBudget, Tables,
      MidPrefill;
    var s, rest := sys.sched, Rest(BlocksOf, sys.sched.slots, sys.sched.cur);
    var start := WorkOf(c, s);
    var planned, w := PlanAll(c, start), Filled(c, s);
    SlotPages(c, s.pool, s.slots, s.cur);
    StartIsWorking(c, m, sys.store, s, rest);
    PlanAllPays(c, m, sys.store, rest, start);
    AdmitPays(c, planned, SeqsBudget(c, planned, OtherInflight(s)));
    assert start.active[..0] == [] && planned.active[..|planned.active|] == planned.active;
    forall i | 0 <= i < |w.active| && MidPrefill(w.active[i]) ensures w.budget == 0 {
      PrefillTakesTheRest(c, m, sys, i);
    }
  }

  /** Requests among the first `n` of a batch that complete with their tokens. */
  function Completed(active: seq<Req>, tokens: seq<Token>, n: nat): (k: nat)
    requires n <= |active| == |tokens|
    ensures k <= n
  {
    if n == 0 then 0 else Completed(active, tokens, n - 1) + (if Completes(active[n - 1], tokens[n - 1]) then 1 else 0)
  }

  lemma {:induction false} CompletedShift(active: seq<Req>, tokens: seq<Token>, n: nat)
    requires 1 <= n <= |active| == |tokens|
    ensures Completed(active, tokens, n)
            == Completed(active[1..], tokens[1..], n - 1) + (if Completes(active[0], tokens[0]) then 1 else 0)
  {
    hide Completes;
    if n > 1 { CompletedShift(active, tokens, n - 1); }
  }

  lemma {:induction false} NoneCompleted(active: seq<Req>, tokens: seq<Token>)
    requires |active| == |tokens|
    ensures Completed(active, tokens, 0) == 0
  {
  }

  /** Where `update` puts each request of the batch: those that complete go to the results, the others stay, both in
      the order of the batch and each with its own token. */
  lemma {:induction false} SettlePlaces(active: seq<Req>, tokens: seq<Token>, pool: Pool, i: nat)
    requires i < |active| == |tokens|
    ensures var d := Settle(active, tokens, pool);
            var k := Completed(active, tokens, i);
            && |d.finished| == Completed(active, tokens, |active|) && |d.kept| == |active| - |d.finished|
            && if Completes(active[i], tokens[i])
               then k < |d.finished| && d.finished[k] == Absorb(active[i], tokens[i]).Finish()
               else i - k < |d.kept| && d.kept[i - k] == Absorb(active[i], tokens[i])
  {
    hide Completes, Absorb, Released, Completed;
    var pool' := if Completes(active[0], tokens[0]) then Released(pool, active[0].blocks) else pool;
    SettleCounts(active, tokens, pool);
    if i > 0 {
      CompletedShift(active, tokens, i);
      SettlePlaces(active[1..], tokens[1..], pool', i - 1);
    } else {
      NoneCompleted(active, tokens);
    }
  }

  lemma {:induction false} SettleCounts(active: seq<Req>, tokens: seq<Token>, pool: Pool)
    requires |active| == |tokens|
    ensures var d := Settle(active, tokens, pool);
            |d.finished| == Completed(active, tokens, |active|) && |d.kept| == |active| - |d.finished|
  {
    hide Completes, Absorb, Released;
    if active != [] {
      CompletedShift(active, tokens, |active|);
      SettleCounts(active[1..], tokens[1..],
                   if Completes(active[0], tokens[0]) then Released(pool, active[0].blocks) else pool);
    }
  }

  /** One batch joins the results exactly when a request has completed; an empty one never does. */
  lemma {:induction false} UpdatePublishes(c: Config, s: State, tokens: seq<Token>)
    requires Shaped(c, s) && |tokens| == |s.slots[s.cur]|
    ensures var now, k := Update(c, s, tokens).results, Completed(s.slots[s.cur], tokens, |tokens|);
            if k == 0 then now == s.results
            else |now| == |s.results| + 1 && now[..|s.results|] == s.results && |now[|s.results|]| == k
  {
    hide Completed, Settle;
    SettleCounts(s.slots[s.cur], tokens, s.pool);
  }
}
