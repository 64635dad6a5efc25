/** `Scheduler`: the object that moves requests between its queue, its batch slots and its results, proved
    against the functions of `Scheduling`. */
module SchedulerObject {
  import opened Prelude
  import opened Transformer
  import opened Requests
  import opened Pages
  import Spec = Scheduling
  import opened RequestObject
  import opened PageManager

  /** The values of a list of request objects. */
  function Views(s: seq<InferenceRequest>): (v: seq<Req>)
    reads s
    ensures |v| == |s| && forall i :: 0 <= i < |s| ==> v[i] == s[i].View()
  {
    seq(|s|, i requires 0 <= i < |s| reads s => s[i].View())
  }

  predicate Unique(s: seq<InferenceRequest>) { forall i, j :: 0 <= i < j < |s| ==> s[i] != s[j] }

  predicate Apart(a: seq<InferenceRequest>, b: seq<InferenceRequest>) { forall r :: r in a ==> r !in b }

  function Members(s: seq<InferenceRequest>): set<InferenceRequest> { set r | r in s }

  function AllOf(ss: seq<seq<InferenceRequest>>): set<InferenceRequest> { set k, r | 0 <= k < |ss| && r in ss[k] :: r }

  function ListViews(ss: seq<seq<InferenceRequest>>): (v: seq<seq<Req>>)
    reads AllOf(ss)
    ensures |v| == |ss| && forall k :: 0 <= k < |ss| ==> v[k] == Views(ss[k])
  {
    seq(|ss|, k requires 0 <= k < |ss| reads AllOf(ss) =>
      assert forall i :: 0 <= i < |ss[k]| ==> ss[k][i] in ss[k]; Views(ss[k]))
  }

  /** Every request object is in one place only: the queue, one batch slot, or the results. */
  ghost predicate Placed(queue: seq<InferenceRequest>, slots: seq<seq<InferenceRequest>>,
                         results: seq<seq<InferenceRequest>>)
  {
    && Unique(queue)
    && (forall k :: 0 <= k < |slots| ==> Unique(slots[k]) && Apart(slots[k], queue))
    && (forall j, k :: 0 <= j < |slots| && 0 <= k < |slots| && j != k ==> Apart(slots[j], slots[k]))
    && (forall b :: 0 <= b < |results| ==> Apart(results[b], queue))
    && (forall b, k :: 0 <= b < |results| && 0 <= k < |slots| ==> Apart(results[b], slots[k]))
  }

  /** A dictionary without one of its values. */
  function Without(s: seq<InferenceRequest>, r: InferenceRequest): seq<InferenceRequest>
  {
    if s == [] then [] else if s[0] == r then s[1..] else [s[0]] + Without(s[1..], r)
  }

  lemma {:induction false} WithoutIsRemove(s: seq<InferenceRequest>, i: nat)
    requires Unique(s) && i < |s|
    ensures Without(s, s[i]) == Remove(s, i)
  {
    if i > 0 {
      assert s[0] != s[i];
      WithoutIsRemove(s[1..], i - 1);
    }
  }

  /** Those of a list that are still in a slot. */
  function Still(list: seq<InferenceRequest>, active: seq<InferenceRequest>): seq<InferenceRequest>
  {
    if list == [] then []
    else (if list[0] in active then [list[0]] else []) + Still(list[1..], active)
  }

  lemma {:induction false} StillAll(list: seq<InferenceRequest>, active: seq<InferenceRequest>)
    requires forall r :: r in list ==> r in active
    ensures Still(list, active) == list
  {
    if list != [] { StillAll(list[1..], active); }
  }

  lemma {:induction false} StillMembers(list: seq<InferenceRequest>, active: seq<InferenceRequest>)
    requires Unique(list)
    ensures Unique(Still(list, active)) && forall r :: r in Still(list, active) <==> r in list && r in active
  {
    if list != [] { StillMembers(list[1..], active); }
  }

  lemma {:induction false} StillWithout(list: seq<InferenceRequest>, active: seq<InferenceRequest>,
                                        active': seq<InferenceRequest>, gone: InferenceRequest)
    requires Unique(list) && forall r :: r in active' <==> r in active && r != gone
    ensures Still(list, active') == Without(Still(list, active), gone)
  {
    if list != [] {
      StillWithout(list[1..], active, active', gone);
      StillMembers(list[1..], active);
      var rest := Still(list[1..], active);
      if list[0] == gone { WithoutNone(rest, gone); }
      if list[0] in active {
        assert Still(list, active) == [list[0]] + rest;
      } else {
        assert Still(list, active) == rest;
      }
      if list[0] in active' {
        assert list[0] != gone;
      } else {
        assert Still(list, active') == Still(list[1..], active');
      }
    }
  }

  lemma {:induction false} WithoutNone(s: seq<InferenceRequest>, r: InferenceRequest)
    requires r !in s
    ensures Without(s, r) == s
  {
    if s != [] { WithoutNone(s[1..], r); }
  }

  class Scheduler {
    const c: Config
    const kv: KVCacheManager
    var queue: seq<InferenceRequest>
    var slots: seq<seq<InferenceRequest>>
    var cur: nat
    var results: seq<seq<InferenceRequest>>

    constructor (c: Config, kv: KVCacheManager)
      requires ValidConfig(c) && kv.c == c
      ensures this.c == c && this.kv == kv && Local()
      ensures queue == [] && results == [] && cur == 0 && slots == seq(c.numSlots, _ => [])
    {
      this.c, this.kv := c, kv;
      queue, results, cur := [], [], 0;
      slots := seq(c.numSlots, _ => []);
    }

    function View(): Spec.State
      reads this, kv, queue, AllOf(slots), AllOf(results)
    {
      Spec.State(Views(queue), ListViews(slots), cur, kv.View(), ListViews(results))
    }

    ghost predicate Valid()
      reads this
    {
      ValidConfig(c) && kv.c == c && |slots| == c.numSlots && cur < |slots| && Placed(queue, slots, results)
    }

    /** Every object that a cycle may touch. */
    ghost function Objects(): set<InferenceRequest>
      reads this
    {
      Members(queue) + AllOf(slots)
    }

    lemma {:induction false} ValidIsShaped()
      requires Valid()
      ensures ValidConfig(c) && cur < |slots| && Spec.Shaped(c, View()) && View().slots[cur] == Views(slots[cur])
    {
    }

    lemma {:induction false} MineAmongObjects()
      requires cur < |slots|
      ensures Mine() <= Objects() && forall i :: 0 <= i < |slots[cur]| ==> slots[cur][i] in Objects()
    {
      forall r | r in Members(slots[cur]) ensures r in AllOf(slots) { assert r in slots[cur]; }
      assert forall i :: 0 <= i < |slots[cur]| ==> slots[cur][i] in Members(slots[cur]);
    }

    /** The queue and the current slot hold different objects, each once. */
    predicate Local()
      reads this
    {
      && ValidConfig(c) && kv.c == c && |slots| == c.numSlots && cur < |slots|
      && Unique(queue) && Unique(slots[cur]) && Apart(slots[cur], queue)
    }

    function WorkAt(next: nat, budget: int): Spec.Work
      requires cur < |slots|
      reads this, kv, queue, slots[cur]
    {
      Spec.Work(Views(slots[cur]), next, Views(queue), kv.View(), budget)
    }

    /** The objects that scheduling the current slot may touch. */
    function Mine(): set<InferenceRequest>
      requires cur < |slots|
      reads this
    {
      Members(queue) + Members(slots[cur])
    }

    method PlanTokens(r: InferenceRequest, budget: int) returns (tokens: int, upTo: int)
      ensures (tokens, upTo) == Spec.Plan(c, r.View(), budget)
    {
      var computed := r.computed;
      var inputLen := |r.input|;
      var remaining := Max(0, inputLen - computed);
      if remaining == 0 {
        tokens := 1;
        upTo := computed + tokens;
      } else if c.chunked {
        tokens := Min(budget, remaining);
        upTo := computed + tokens;
      } else {
        tokens := inputLen;
        upTo := inputLen;
      }
    }

    /** `_preempt_request`. */
    method PreemptRequest(r: InferenceRequest)
      requires cur < |slots|
      modifies `queue, `slots, kv, r
      ensures r.View() == old(r.View()).Fold() && kv.View() == Released(old(kv.View()), old(r.blocks))
      ensures slots == old(slots)[cur := Without(old(slots[cur]), r)] && queue == old(queue) + [r]
    {
      kv.FreeBlocks(r.blocks);
      r.Preempt();
      slots := slots[cur := Without(slots[cur], r)];
      queue := queue + [r];
    }

    /** Preempting the request at place `v` of the slot. */
    method PreemptAt(r: InferenceRequest, ghost v: nat, ghost next: nat, ghost budget: int, ghost w: Spec.Work)
      requires Local() && v < |slots[cur]| && slots[cur][v] == r && w == WorkAt(next, budget)
      modifies `queue, `slots, kv, r
      ensures Local() && Mine() == old(Mine()) && slots == old(slots)[cur := Remove(old(slots[cur]), v)]
      ensures WorkAt(if v < next then next - 1 else next, budget) == Spec.Evict(w, v)
    {
      hide Unique, Apart, Members, Without, Released, Remove, Views;
      EvictLocal(slots[cur], queue, v);
      WithoutIsRemove(slots[cur], v);
      ghost var rest, waiting := Remove(slots[cur], v), queue;
      assert Views(rest) == Remove(w.active, v);
      PreemptRequest(r);
      assert Views(rest) == Remove(w.active, v) && Views(waiting) == w.queue;
      ViewsAppend(waiting, r);
    }

    /** Python's `min` over the dictionary's values: the first with the least progress. */
    method LeastProgressOf(active: seq<InferenceRequest>, ghost values: seq<Req>) returns (r: InferenceRequest)
      requires active != [] && values == Views(active)
      ensures r == active[Spec.LeastProgress(values)]
    {
      r := active[0];
      ghost var v := 0;
      for i := 1 to |active|
        invariant v < i && r == active[v]
        invariant forall j :: 0 <= j < i ==> active[v].computed <= active[j].computed
        invariant forall j :: 0 <= j < v ==> active[v].computed < active[j].computed
      {
        if active[i].computed < r.computed {
          r, v := active[i], i;
        }
      }
    }

    /** More pages for `r`, the request at place `i`, if there are any. */
    method TryExtend(r: InferenceRequest, ghost i: nat, ghost budget: int, ghost w: Spec.Work) returns (ok: bool)
      requires Local() && i < |slots[cur]| && slots[cur][i] == r && w == WorkAt(i, budget)
      modifies kv, r`blocks
      ensures ok <==> Spec.Extend(c, w).Some?
      ensures WorkAt(i, budget) == if ok then Spec.Extend(c, w).value else w
    {
      hide Unique, Apart, Allocate, Taken;
      RestStays(slots[cur], queue, i);
      var pages := kv.AllocateBlocks(r.computed, |r.blocks|);
      ok := pages.Some?;
      if ok {
        r.Extend(pages.value);
      }
      assert Views(queue) == w.queue;
      assert Views(slots[cur]) == w.active[i := r.View()];
    }

    /** Preempt the request with the least progress, possibly `r` itself. */
    method EvictLeast(r: InferenceRequest, ghost i: nat, ghost budget: int, ghost w: Spec.Work)
      returns (self: bool, ghost v: nat)
      requires Local() && i < |slots[cur]| && slots[cur][i] == r && w == WorkAt(i, budget)
      modifies `queue, `slots, kv, slots[cur]
      ensures Local() && Mine() == old(Mine())
      ensures v < |old(slots[cur])| && slots == old(slots)[cur := Remove(old(slots[cur]), v)]
      ensures v == Spec.LeastProgress(w.active) && (self <==> v == i)
      ensures WorkAt(if v < i then i - 1 else i, budget) == Spec.Evict(w, v)
      ensures !self ==>
                var j := NextAfter(i, Some(v));
                j < |slots[cur]| && slots[cur][j] == r
    {
      hide Unique, Apart, Members, Spec.Evict, Spec.LeastProgress, Views, Mine, Remove;
      ghost var was := slots[cur];
      RestStays(was, queue, i);
      v := Spec.LeastProgress(w.active);
      var victim := LeastProgressOf(slots[cur], w.active);
      PreemptAt(victim, v, i, budget, w);
      self := victim == r;
      if !self { StillAt(was, i, v); }
    }

    /** `_extend_or_preempt`. */
    method ExtendOrPreempt(r: InferenceRequest, ghost i: nat, ghost budget: int, ghost w: Spec.Work)
      returns (ok: bool, ghost evicted: Option<nat>)
      requires Local() && i < |slots[cur]| && slots[cur][i] == r && w == WorkAt(i, budget)
      modifies `queue, `slots, kv, slots[cur]
      ensures Local() && Mine() == old(Mine())
      ensures Left(old(slots), slots, cur, evicted)
      ensures ok <==> Secured(c, w).1
      ensures WorkAt(NextAfter(i, evicted), budget) == Secured(c, w).0
      ensures evicted == Evictee(c, w)
    {
      hide Unique, Apart, Members, Spec.Extend, Spec.Evict, Spec.LeastProgress, Views, Mine, Remove;
      evicted := None;
      ok := TryExtend(r, i, budget, w);
      if !ok {
        var self;
        ghost var v;
        self, v := EvictLeast(r, i, budget, w);
        evicted := Some(v);
        if !self {
          ok := TryExtend(r, NextAfter(i, evicted), budget, WorkAt(NextAfter(i, evicted), budget));
        }
      }
    }

    /** The plan written into the request at place `i`. */
    method WritePlan(r: InferenceRequest, tokens: int, upTo: int, ghost i: nat, ghost budget: int, ghost w: Spec.Work)
      requires Local() && i < |slots[cur]| && slots[cur][i] == r && w == WorkAt(i, budget)
      requires (tokens, upTo) == Spec.Plan(c, w.active[i], budget)
      modifies r`step, r`computed
      ensures WorkAt(i, budget) == Spec.Planned(c, w)
    {
      hide Unique, Apart, Spec.Plan;
      RestStays(slots[cur], queue, i);
      r.Plan(tokens, upTo);
      assert Views(queue) == w.queue;
      assert Views(slots[cur]) == w.active[i := r.View()];
    }

    /** One turn of the planning loop of `schedule`, on the request at place `i`. */
    method PlanOne(r: InferenceRequest, ghost i: nat, budget: int, ghost w: Spec.Work)
      returns (left: int, ghost evicted: Option<nat>)
      requires Local() && i < |slots[cur]| && slots[cur][i] == r && w == WorkAt(i, budget)
      modifies `queue, `slots, kv, slots[cur]
      ensures Local() && Mine() == old(Mine())
      ensures Left(old(slots), slots, cur, evicted)
      ensures WorkAt(NextToPlan(i, evicted), left) == Spec.PlanNext(c, w)
    {
      hide Unique, Apart, Members, Secured, Evictee, Spec.PlanNext, Spec.Plan, Mine, Left, Views;
      PlanNextSecures(c, w);
      var tokens, upTo := PlanTokens(r, budget);
      WritePlan(r, tokens, upTo, i, budget, w);
      var ok;
      ok, evicted := ExtendOrPreempt(r, i, budget, Spec.Planned(c, w));
      left := if ok then budget - tokens else budget;
    }

    /** While the current slot is being filled: its objects and those of the queue, and nothing else. */
    ghost predicate Filling(was: seq<seq<InferenceRequest>>, mine: set<InferenceRequest>)
      reads this
    {
      Local() && Mine() == mine && SameBut(was, slots, cur)
    }

    /** During the planning loop: `next` is the place of the first request still to be planned. */
    ghost predicate Planning(list: seq<InferenceRequest>, k: nat, next: nat, was: seq<seq<InferenceRequest>>,
                             mine: set<InferenceRequest>)
      reads this
    {
      && Filling(was, mine)
      && Within(slots[cur], list) && ToPlan(list, k, slots[cur], next) && next <= |slots[cur]|
    }

    /** The body of the planning loop for one element of the copied list: nothing if it has been preempted. */
    method PlanListed(list: seq<InferenceRequest>, k: nat, ghost next: nat, budget: int, ghost w: Spec.Work,
                      ghost was: seq<seq<InferenceRequest>>, ghost mine: set<InferenceRequest>)
      returns (left: int, ghost next': nat)
      requires k < |list| && Planning(list, k, next, was, mine) && w == WorkAt(next, budget)
      modifies `queue, `slots, kv, list
      ensures Planning(list, k + 1, next', was, mine)
      ensures Spec.PlanAll(c, WorkAt(next', left)) == Spec.PlanAll(c, w)
    {
      left, next' := budget, next;
      var r := list[k];
      if r in slots[cur] {
        ghost var evicted;
        ghost var before := slots;
        FrontIsNext(list, k, slots[cur], next);
        assert forall i :: 0 <= i < |slots[cur]| ==> slots[cur][i] in list;
        assert Unique(list) && Unique(slots[cur]);
        left, evicted := PlanOne(r, next, budget, w);
        SetTwice(was, before, slots, cur);
        AfterEviction(list, k, before[cur], next, slots[cur], evicted);
        next' := NextToPlan(next, evicted);
      }
    }

    /** The first loop of `schedule`, over a copy of the slot's values. */
    method PlanActive(ghost w: Spec.Work) returns (budget: int)
      requires Local() && w == WorkAt(0, c.maxTokens)
      modifies `queue, `slots, kv, slots[cur]
      ensures Local() && Mine() == old(Mine()) && SameBut(old(slots), slots, cur)
      ensures WorkAt(|slots[cur]|, budget) == Spec.PlanAll(c, w)
    {
      hide Unique, Apart, Mine, Members, Spec.PlanAll, ToPlan, Views, SameBut, Within;
      budget := c.maxTokens;
      var list := slots[cur];
      ghost var next: nat := 0;
      ghost var was, mine := slots, Mine();
      PlanStart(list);
      SameButItself(slots, cur);
      for k := 0 to |list|
        invariant Planning(list, k, next, was, mine)
        invariant Spec.PlanAll(c, WorkAt(next, budget)) == Spec.PlanAll(c, w)
      {
        budget, next := PlanListed(list, k, next, budget, WorkAt(next, budget), was, mine);
      }
      PlanDone(list, slots[cur], next);
      PlanAllDone(c, WorkAt(next, budget));
    }

    /** `_activate_request`; false stands for its `RuntimeError`. */
    method ActivateRequest(r: InferenceRequest) returns (ok: bool)
      requires ValidConfig(c) && kv.c == c && cur < |slots|
      modifies `slots, kv, r
      ensures
        match Allocate(c, old(kv.View()), |old(r.input)|, 0)
        case None => !ok && slots == old(slots) && kv.View() == old(kv.View()) && r.View() == old(r.View())
        case Some(pages) =>
          ok && slots == old(slots)[cur := old(slots[cur]) + [r]]
          && kv.View() == Taken(old(kv.View()), pages) && r.View() == old(r.View()).Activate(pages)
    {
      var pages := kv.AllocateBlocks(|r.input|, 0);
      ok := pages.Some?;
      if ok {
        r.Activate(pages.value);
        slots := slots[cur := slots[cur] + [r]];
      }
    }

    /** The request taken from the queue goes into the slot, or back to the end of the queue. */
    method AdmitOrPutBack(r: InferenceRequest, budget: int, ghost v: Req) returns (stop: bool, left: int)
      requires ValidConfig(c) && kv.c == c && cur < |slots| && v == r.View()
      modifies `queue, `slots, kv, r
      ensures AdmitStep(c, Spec.Work([], 0, [v], old(kv.View()), budget))
              == (Spec.Work(if stop then [] else [r.View()], 0, if stop then [r.View()] else [], kv.View(), left), stop)
      ensures stop ==> queue == old(queue) + [r] && slots == old(slots) && r.View() == v
      ensures !stop ==> queue == old(queue) && slots == old(slots)[cur := old(slots[cur]) + [r]]
    {
      hide Spec.Plan, Allocate, Taken;
      left := budget;
      assert [v][1..] + [v] == [v] && forall x: Req :: [] + [x] == [x];
      var tokens, upTo := PlanTokens(r, budget);
      stop := true;
      if budget >= tokens {
        var ok := ActivateRequest(r);
        if ok {
          left := budget - tokens;
          r.Plan(tokens, upTo);
          stop := false;
        } else {
          queue := queue + [r];
        }
      } else {
        queue := queue + [r];
      }
    }

    /** The body of the admission loop, on the head of the queue. */
    method AdmitHead(budget: int, ghost next: nat, ghost w: Spec.Work) returns (stop: bool, left: int)
      requires Local() && queue != [] && w == WorkAt(next, budget)
      modifies `queue, `slots, kv, Mine()
      ensures Local() && Mine() == old(Mine()) && SameBut(old(slots), slots, cur)
      ensures (WorkAt(next, left), stop) == AdmitStep(c, w)
    {
      hide Unique, Apart, AdmitStep, Views, SameBut;
      var r := queue[0];
      HeadLeaves(queue, slots[cur]);
      ghost var rest, active := queue[1..], slots[cur];
      assert r in Members(queue) && w.queue[0] == r.View();
      assert Views(rest) == w.queue[1..] && Views(active) == w.active;
      SameButItself(slots, cur);
      SameButUpdated(slots, slots, cur, active + [r]);
      queue := queue[1..];
      stop, left := AdmitOrPutBack(r, budget, w.queue[0]);
      assert Views(rest) == w.queue[1..] && Views(active) == w.active;
      AdmitStepParts(c, w, stop, r.View(), kv.View(), left);
      if stop {
        ViewsAppend(rest, r);
      } else {
        ViewsAppend(active, r);
      }
    }

    /** One turn of the second loop of `schedule`, whose guard holds; it ends when the queue is empty. */
    method AdmitTurn(budget: int, ghost room: int, ghost next: nat, ghost w: Spec.Work,
                     ghost was: seq<seq<InferenceRequest>>, ghost mine: set<InferenceRequest>)
      returns (stop: bool, left: int)
      requires Filling(was, mine) && budget > 0 && room > 0 && w == WorkAt(next, budget)
      modifies `queue, `slots, kv, mine
      ensures cur < |slots| && Filling(was, mine)
      ensures Spec.Admit(c, w, room) == Spec.Admit(c, WorkAt(next, left), if stop then 0 else room - 1)
    {
      if queue == [] {
        stop, left := true, budget;
      } else {
        ghost var before := slots;
        stop, left := AdmitHead(budget, next, w);
        SetTwice(was, before, slots, cur);
        AdmitEnds(c, WorkAt(next, left), 0);
      }
    }

    /** The second loop of `schedule`. */
    method AdmitWaiting(budget: int, seqs: int, ghost next: nat, ghost w: Spec.Work,
                        ghost was: seq<seq<InferenceRequest>>, ghost mine: set<InferenceRequest>)
      returns (left: int)
      requires Filling(was, mine) && w == WorkAt(next, budget)
      modifies `queue, `slots, kv, mine
      ensures cur < |slots| && Filling(was, mine)
      ensures WorkAt(next, left) == Spec.Admit(c, w, seqs)
    {
      hide ValidConfig, Spec.Admit, Unique, Apart, Members, Views, Mine, SameBut;
      left := budget;
      var room, stop := seqs, false;
      while !stop && left > 0 && room > 0
        invariant cur < |slots| && Filling(was, mine)
        invariant Spec.Admit(c, w, seqs) == Spec.Admit(c, WorkAt(next, left), if stop then 0 else room)
        decreases room
      {
        stop, left := AdmitTurn(left, room, next, WorkAt(next, left), was, mine);
        room := room - 1;
      }
      AdmitEnds(c, WorkAt(next, left), if stop then 0 else room);
    }

    /** `submit_request` on a queue without a bound. */
    method SubmitRequest(r: InferenceRequest, ghost before: Spec.State)
      requires Valid() && before == View()
      requires r !in queue && r !in AllOf(slots) && r !in AllOf(results)
      modifies `queue
      ensures Valid() && View() == before.(queue := before.queue + [r.View()])
      ensures Objects() == old(Objects()) + {r}
    {
      hide Placed;
      SubmittedPlaced(queue, slots, results, r);
      ViewsAppend(queue, r);
      queue := queue + [r];
      assert ListViews(slots) == before.slots && ListViews(results) == before.results;
    }

    /** How many sequences may still be admitted to the current slot. */
    function SeqsBudget(): int
      requires cur < |slots|
      reads this, kv
    {
      var base := c.maxSeqs - |slots[cur]|;
      if |slots| > 1 && c.fairShare then
        Min(base, Spec.FairShare(|kv.used|, |kv.free|, Spec.TotalLength(slots), |slots|))
      else base
    }

    lemma {:induction false} SeqsBudgetIs(next: nat, budget: int, was: seq<seq<InferenceRequest>>, others: nat)
      requires Local() && SameBut(was, slots, cur)
      requires cur < |was| && others == OtherCount(was, cur)
      ensures SeqsBudget() == Spec.SeqsBudget(c, WorkAt(next, budget), others)
    {
      hide Spec.FairShare, Spec.TotalLength, Unique, Apart, Views;
      LengthSplit(slots, cur);
      assert slots[..cur] == was[..cur] && slots[cur + 1..] == was[cur + 1..];
    }

    /** Admission after planning. */
    method FillUp(budget: int, ghost was: seq<seq<InferenceRequest>>, ghost mine: set<InferenceRequest>,
                  ghost others: nat, ghost planned: Spec.Work)
      returns (left: int)
      requires Filling(was, mine) && planned == WorkAt(|slots[cur]|, budget)
      requires cur < |was| && others == OtherCount(was, cur)
      modifies `queue, `slots, kv, mine
      ensures cur < |slots| && Filling(was, mine)
      ensures WorkAt(planned.next, left) == Spec.Admit(c, planned, Spec.SeqsBudget(c, planned, others))
    {
      hide Unique, Apart, Mine, Members, Views, Within, Spec.Admit, Spec.SeqsBudget, OtherCount, SameBut;
      SeqsBudgetIs(|slots[cur]|, budget, was, others);
      left := AdmitWaiting(budget, SeqsBudget(), planned.next, planned, was, mine);
    }

    /** Planning, then admission. */
    method Fill(ghost was: seq<seq<InferenceRequest>>, ghost mine: set<InferenceRequest>, ghost others: nat,
                ghost w: Spec.Work)
      returns (left: int, ghost next: nat)
      requires Local() && w == WorkAt(0, c.maxTokens) && was == slots && mine == Mine()
      requires others == OtherCount(was, cur)
      modifies `queue, `slots, kv, mine
      ensures cur < |slots| && Filling(was, mine)
      ensures WorkAt(next, left) == FillFrom(c, w, others)
    {
      hide Unique, Apart, Views, Within, Spec.PlanAll, Spec.Admit, Spec.SeqsBudget, OtherCount, SameBut;
      assert forall i :: 0 <= i < |slots[cur]| ==> slots[cur][i] in mine;
      var budget := PlanActive(w);
      next := |slots[cur]|;
      left := FillUp(budget, was, mine, others, WorkAt(next, budget));
    }

    /** `schedule`: the batch to infer, and the batch whose outputs are due, each with its slot's order. */
    method Schedule(ghost before: Spec.State) returns (toInfer: seq<InferenceRequest>, toUpdate: seq<InferenceRequest>)
      requires Valid() && before == View()
      modifies `queue, `slots, `cur, kv, Mine()
      ensures Valid() && View() == Spec.Schedule(c, before) && Objects() == old(Objects())
      ensures Views(toInfer) == Spec.Snapshot(View().slots[before.cur])
      ensures Views(toUpdate) == Spec.Snapshot(View().slots[cur]) && toUpdate == Live(slots[cur])
    {
      hide Mine, Members, Placed, FillFrom, Views, Spec.Schedule, Spec.Snapshot, Spec.TotalLength, Spec.WorkOf,
        Spec.OtherInflight, AllOf, ListViews, Live;
      ScheduleIs(c, before);
      FillAndRest(before);
      toInfer, toUpdate := Rotate(View());
    }

    /** The end of `schedule`: the batch just filled, the move to the next slot, and its batch. */
    method Rotate(ghost before: Spec.State) returns (toInfer: seq<InferenceRequest>, toUpdate: seq<InferenceRequest>)
      requires Valid() && before == View()
      modifies `cur
      ensures Valid() && View() == before.(cur := (before.cur + 1) % |before.slots|) && Objects() == old(Objects())
      ensures Views(toInfer) == Spec.Snapshot(before.slots[before.cur])
      ensures Views(toUpdate) == Spec.Snapshot(before.slots[cur]) && toUpdate == Live(slots[cur])
    {
      hide Placed, Members, AllOf, Views, ListViews, Live, Spec.Snapshot;
      toInfer := Live(slots[cur]);
      LiveViews(slots[cur]);
      cur := (cur + 1) % |slots|;
      toUpdate := Live(slots[cur]);
      LiveViews(slots[cur]);
    }

    /** Filling the current slot leaves every other place alone. */
    method FillAndRest(ghost before: Spec.State)
      requires Valid() && before == View()
      modifies `queue, `slots, kv, Mine()
      ensures Valid() && View() == Placing(before, FillFrom(c, Spec.WorkOf(c, before), Spec.OtherInflight(before)))
      ensures Objects() == old(Objects())
    {
      hide FillFrom, Spec.OtherInflight, OtherCount, Unique, Apart, AllOf, Views, ListViews, Members;
      ghost var w, was, mine, all := WorkAt(0, c.maxTokens), slots, Mine(), queue;
      ghost var others := OtherCount(was, cur);
      OtherCountIs(before, was);
      OthersUntouched(queue, slots, results, cur);
      ListViewsBut(slots, cur);
      assert w == Spec.WorkOf(c, before) && Local();
      ghost var next, left := FillApart(was, mine, others, w, before.slots[cur := []], before.results);
      PlacedAfter(all, was, results, queue, slots, cur);
      ObjectsKept(all, was, queue, slots, cur);
      ListViewsBut(slots, cur);
    }

    /** Filling the current slot, seen from the other slots and the results. */
    method FillApart(ghost was: seq<seq<InferenceRequest>>, ghost mine: set<InferenceRequest>, ghost others: nat,
                     ghost w: Spec.Work, ghost rest: seq<seq<Req>>, ghost done: seq<seq<Req>>)
      returns (ghost next: nat, left: int)
      requires Local() && w == WorkAt(0, c.maxTokens) && was == slots && mine == Mine()
      requires others == OtherCount(was, cur)
      requires AllOf(was[cur := []]) !! mine && AllOf(results) !! mine
      requires rest == ListViews(was[cur := []]) && done == ListViews(results)
      modifies `queue, `slots, kv, mine
      ensures cur < |slots| && Filling(was, mine)
      ensures WorkAt(next, left) == FillFrom(c, w, others)
      ensures rest == ListViews(was[cur := []]) && done == ListViews(results)
    {
      hide FillFrom, OtherCount, Unique, Apart, Views, ListViews, Members, Mine, SameBut;
      assert forall r :: r in AllOf(was[cur := []]) ==> r !in mine;
      assert forall r :: r in AllOf(results) ==> r !in mine;
      left, next := Fill(was, mine, others, w);
    }

    /** `_finalize_request`. */
    method FinalizeRequest(r: InferenceRequest)
      requires cur < |slots|
      modifies `slots, kv, r
      ensures r.View() == old(r.View()).Finish() && kv.View() == Released(old(kv.View()), old(r.blocks))
      ensures slots == old(slots)[cur := Without(old(slots[cur]), r)]
    {
      kv.FreeBlocks(r.blocks);
      r.Finish();
      slots := slots[cur := Without(slots[cur], r)];
    }

    /** The body of the loop of `update`. */
    method SettleOne(r: InferenceRequest, token: Token, ghost v: Req) returns (done: bool)
      requires cur < |slots| && v == r.View() && v.status != Finished
      modifies `slots, kv, r
      ensures done <==> Completes(v, token)
      ensures r.View() == if done then Absorb(v, token).Finish() else Absorb(v, token)
      ensures kv.View() == if done then Released(old(kv.View()), v.blocks) else old(kv.View())
      ensures slots == if done then old(slots)[cur := Without(old(slots[cur]), r)] else old(slots)
    {
      done := false;
      if r.status != Finished && r.computed >= |r.input| {
        r.Append(token);
        done := r.ShouldFinish(token);
        if done {
          FinalizeRequest(r);
        }
      }
    }

    /** During `update`: the slot holds the requests kept so far and those not yet looked at. */
    ghost predicate Settling(requests: seq<InferenceRequest>, v: seq<Req>, tokens: seq<Token>, i: nat,
                             kept: seq<InferenceRequest>,
                             finished: seq<InferenceRequest>, pool: Pool, was: seq<seq<InferenceRequest>>)
      reads this, kv, requests, kept, finished
    {
      && cur < |slots| && i <= |requests| == |v| == |tokens| && SameBut(was, slots, cur)
      && slots[cur] == kept + requests[i..]
      && Views(requests[i..]) == v[i..]
      && Within(kept, requests[..i]) && Within(finished, requests[..i])
      && Unique(slots[cur]) && Apart(finished, slots[cur])
      && Spec.Settle(v, tokens, pool) == Join(Views(kept), Views(finished), Spec.Settle(v[i..], tokens[i..], kv.View()))
    }

    method SettleNext(requests: seq<InferenceRequest>, tokens: seq<Token>, i: nat, finished: seq<InferenceRequest>,
                      ghost kept: seq<InferenceRequest>, ghost v: seq<Req>, ghost pool: Pool,
                      ghost was: seq<seq<InferenceRequest>>)
      returns (finished': seq<InferenceRequest>, ghost kept': seq<InferenceRequest>)
      requires i < |requests| && Unique(requests) && Settling(requests, v, tokens, i, kept, finished, pool, was)
      requires v[i].status != Finished
      modifies `slots, kv, requests
      ensures Settling(requests, v, tokens, i + 1, kept', finished', pool, was)
    {
      hide Within, Unique, Apart, Completes, Absorb, Released, Spec.Settle, Join, Without;
      var r := requests[i];
      SettleLists(requests, i, kept, finished);
      ghost var keptViews, finishedViews := Views(kept), Views(finished);
      ghost var restViews, now := Views(requests[i + 1..]), kv.View();
      assert v[i] == r.View() && restViews == v[i + 1..] by {
        assert v[i] == v[i..][0];
        assert v[i..][1..] == v[i + 1..] && Views(requests[i..])[1..] == restViews;
      }
      assert Spec.Settle(v, tokens, pool) == Join(keptViews, finishedViews, Spec.Settle(v[i..], tokens[i..], now));
      SettleStep(v, tokens, i, now, keptViews, finishedViews);
      var done := SettleOne(r, tokens[i], v[i]);
      assert Views(kept) == keptViews && Views(finished) == finishedViews && Views(requests[i + 1..]) == restViews;
      if done {
        finished', kept' := finished + [r], kept;
        ViewsAppend(finished, r);
        SameButUpdated(was, old(slots), cur, slots[cur]);
      } else {
        finished', kept' := finished, kept + [r];
        ViewsAppend(kept, r);
      }
    }

    /** `update` on the outputs of the current slot's batch. */
    method Update(requests: seq<InferenceRequest>, tokens: seq<Token>, ghost before: Spec.State)
      requires Valid() && before == View() && requests == slots[cur] && |tokens| == |requests|
      requires forall i :: 0 <= i < |requests| ==> requests[i].status != Finished
      modifies `slots, `results, kv, requests
      ensures Valid() && View() == Spec.Update(c, before, tokens) && Objects() <= old(Objects())
    {
      hide Spec.Settle, Spec.Update, Placed, AllOf, Members, Views, ListViews, Objects;
      UpdateIs(c, before, tokens);
      var finished := SettleAndRest(requests, tokens, before);
      if finished != [] {
        Publish(finished, View());
      }
    }

    /** Finished requests join the results. */
    method Publish(finished: seq<InferenceRequest>, ghost before: Spec.State)
      requires Valid() && Placed(queue, slots, results + [finished]) && before == View()
      modifies `results
      ensures Valid() && View() == before.(results := before.results + [Views(finished)]) && Objects() == old(Objects())
    {
      hide Placed, AllOf, Members, Views, ListViews;
      results := results + [finished];
    }

    /** Settling the current slot leaves every other place alone. */
    method SettleAndRest(requests: seq<InferenceRequest>, tokens: seq<Token>, ghost before: Spec.State)
      returns (finished: seq<InferenceRequest>)
      requires Valid() && before == View() && requests == slots[cur] && |tokens| == |requests|
      requires forall i :: 0 <= i < |requests| ==> requests[i].status != Finished
      modifies `slots, kv, requests
      ensures Valid() && Placed(queue, slots, results + [finished]) && Objects() <= old(Objects())
      ensures var d := Spec.Settle(before.slots[before.cur], tokens, before.pool);
              && Views(finished) == d.finished
              && View() == before.(slots := before.slots[before.cur := d.kept], pool := d.pool)
    {
      hide Spec.Settle, Unique, Apart, Within, Members, AllOf, Views, ListViews;
      ghost var was := slots;
      OthersUntouched(queue, slots, results, cur);
      QueueUntouched(queue, slots, cur);
      ListViewsBut(slots, cur);
      finished := SettleApart(requests, tokens, was, before);
      PlacedSettled(queue, was, results, slots, finished, cur);
      ObjectsShrink(was, slots, cur);
      ListViewsBut(slots, cur);
    }

    /** Settling the current slot, seen from the queue, the other slots and the results. */
    method SettleApart(requests: seq<InferenceRequest>, tokens: seq<Token>, ghost was: seq<seq<InferenceRequest>>,
                       ghost before: Spec.State)
      returns (finished: seq<InferenceRequest>)
      requires cur < |slots| && requests == slots[cur] && Unique(requests) && |tokens| == |requests| && was == slots
      requires forall i :: 0 <= i < |requests| ==> requests[i].status != Finished
      requires forall i :: 0 <= i < |queue| ==> queue[i] !in requests
      requires AllOf(was[cur := []]) !! Members(requests) && AllOf(results) !! Members(requests)
      requires before.cur == cur && |before.slots| == |slots| && before.slots[cur := []] == ListViews(was[cur := []])
      requires before.slots[cur] == Views(requests) && before.pool == kv.View()
      requires before.queue == Views(queue) && before.results == ListViews(results)
      modifies `slots, kv, requests
      ensures cur < |slots| && SameBut(was, slots, cur) && Within(slots[cur], requests) && Within(finished, requests)
      ensures Unique(slots[cur]) && Apart(finished, slots[cur])
      ensures Spec.Settle(before.slots[cur], tokens, before.pool)
              == Spec.Settled(Views(slots[cur]), Views(finished), kv.View())
      ensures before.slots[cur := []] == ListViews(was[cur := []])
      ensures before.queue == Views(queue) && before.results == ListViews(results)
    {
      hide Spec.Settle, Unique, Apart, Within, Views, ListViews, SameBut;
      ghost var v, pool := Views(requests), kv.View();
      assert forall r :: r in requests ==> r in Members(requests);
      assert forall r :: r in AllOf(was[cur := []]) ==> r !in requests;
      assert forall r :: r in AllOf(results) ==> r !in requests;
      assert forall i :: 0 <= i < |v| ==> v[i].status != Finished;
      finished := SettleAll(requests, tokens, v, pool, was);
    }

    method SettleAll(requests: seq<InferenceRequest>, tokens: seq<Token>, ghost v: seq<Req>, ghost pool: Pool,
                     ghost was: seq<seq<InferenceRequest>>)
      returns (finished: seq<InferenceRequest>)
      requires cur < |slots| && requests == slots[cur] && Unique(requests) && v == Views(requests) && pool == kv.View()
      requires was == slots && |tokens| == |requests| && forall i :: 0 <= i < |v| ==> v[i].status != Finished
      modifies `slots, kv, requests
      ensures cur < |slots| && SameBut(was, slots, cur) && Within(slots[cur], requests) && Within(finished, requests)
      ensures Unique(slots[cur]) && Apart(finished, slots[cur])
      ensures Spec.Settle(v, tokens, pool) == Spec.Settled(Views(slots[cur]), Views(finished), kv.View())
    {
      hide Within, Spec.Settle, Join, Unique;
      finished := [];
      ghost var kept: seq<InferenceRequest> := [];
      SettleBegins(requests, v, tokens, pool, was);
      for i := 0 to |requests|
        invariant Settling(requests, v, tokens, i, kept, finished, pool, was)
      {
        finished, kept := SettleNext(requests, tokens, i, finished, kept, v, pool, was);
      }
      SettleEnds(requests, v, tokens, kept, finished, kv.View());
    }

    lemma {:induction false} SettleBegins(requests: seq<InferenceRequest>, v: seq<Req>, tokens: seq<Token>, pool: Pool,
                                          was: seq<seq<InferenceRequest>>)
      requires cur < |slots| && requests == slots[cur] && Unique(requests) && v == Views(requests) && pool == kv.View()
      requires was == slots && |tokens| == |requests|
      ensures Settling(requests, v, tokens, 0, [], [], pool, was)
    {
      assert requests[0..] == requests && v[0..] == v && tokens[0..] == tokens;
      assert [] + requests == requests;
      var rest := Spec.Settle(v, tokens, pool);
      assert [] + rest.kept == rest.kept && [] + rest.finished == rest.finished;
    }
  }

  lemma {:induction false} SettleEnds(requests: seq<InferenceRequest>, v: seq<Req>, tokens: seq<Token>,
                                      kept: seq<InferenceRequest>, finished: seq<InferenceRequest>, pool: Pool)
    requires |requests| == |v| == |tokens|
    requires Within(kept, requests[..|requests|]) && Within(finished, requests[..|requests|])
    ensures Join(Views(kept), Views(finished), Spec.Settle(v[|v|..], tokens[|v|..], pool))
            == Spec.Settled(Views(kept), Views(finished), pool)
    ensures kept + requests[|requests|..] == kept && Within(kept, requests) && Within(finished, requests)
  {
    assert requests[..|requests|] == requests && v[|v|..] == [];
  }

  /** One more request of the batch settled, as lists of objects. */
  lemma {:induction false} SettleLists(requests: seq<InferenceRequest>, i: nat, kept: seq<InferenceRequest>,
                                       finished: seq<InferenceRequest>)
    requires i < |requests| && Unique(requests) && Within(kept, requests[..i]) && Within(finished, requests[..i])
    requires Unique(kept + requests[i..]) && Apart(finished, kept + requests[i..])
    ensures Unique(kept + requests[i + 1..]) && Apart(finished, kept + requests[i + 1..])
    ensures Apart(finished + [requests[i]], kept + requests[i + 1..])
    ensures requests[i] !in kept && requests[i] !in finished && requests[i] !in requests[i + 1..]
    ensures Without(kept + requests[i..], requests[i]) == kept + requests[i + 1..]
    ensures kept + requests[i..] == (kept + [requests[i]]) + requests[i + 1..]
    ensures Within(kept, requests[..i + 1]) && Within(finished, requests[..i + 1])
    ensures Within(kept + [requests[i]], requests[..i + 1]) && Within(finished + [requests[i]], requests[..i + 1])
  {
    assert requests[..i + 1] == requests[..i] + [requests[i]];
    assert requests[i..] == [requests[i]] + requests[i + 1..];
    assert requests[i] !in requests[..i];
    assert (kept + requests[i..])[|kept|] == requests[i];
    assert Remove(kept + requests[i..], |kept|) == kept + requests[i + 1..];
    WithoutMiddle(kept, requests[i], requests[i + 1..]);
  }

  lemma {:induction false} ViewsAppend(s: seq<InferenceRequest>, r: InferenceRequest)
    ensures Views(s + [r]) == Views(s) + [r.View()]
  {
  }

  lemma {:induction false} ListViewsBut(ss: seq<seq<InferenceRequest>>, k: nat)
    requires k < |ss|
    ensures ListViews(ss[k := []]) == ListViews(ss)[k := []]
    ensures ListViews(ss) == ListViews(ss[k := []])[k := Views(ss[k])]
  {
  }

  lemma {:induction false} SameButUpdated<T>(was: seq<T>, before: seq<T>, i: nat, x: T)
    requires SameBut(was, before, i)
    ensures SameBut(was, before[i := x], i)
  {
  }

  lemma {:induction false} QueueUntouched(queue: seq<InferenceRequest>, slots: seq<seq<InferenceRequest>>, cur: nat)
    requires cur < |slots| && Apart(slots[cur], queue)
    ensures forall i :: 0 <= i < |queue| ==> queue[i] !in slots[cur]
  {
  }

  /** Moving finished requests from a slot to the results keeps every object in one place. */
  lemma {:induction false} PlacedSettled(queue: seq<InferenceRequest>, slots: seq<seq<InferenceRequest>>,
                                         results: seq<seq<InferenceRequest>>, slots': seq<seq<InferenceRequest>>,
                                         finished: seq<InferenceRequest>, cur: nat)
    requires Placed(queue, slots, results) && SameBut(slots, slots', cur)
    requires Within(slots'[cur], slots[cur]) && Within(finished, slots[cur])
    requires Unique(slots'[cur]) && Apart(finished, slots'[cur])
    ensures Placed(queue, slots', results) && Placed(queue, slots', results + [finished])
  {
    forall x: seq<InferenceRequest> | Apart(x, slots[cur]) ensures Apart(x, slots'[cur]) && Apart(slots'[cur], x) { }
    forall k | 0 <= k < |slots| && k != cur ensures Apart(slots[k], slots[cur]) && Apart(finished, slots[k]) {
      assert Apart(slots[cur], slots[k]);
    }
    forall b | 0 <= b < |results| ensures Apart(results[b], slots[cur]) { }
    assert Apart(slots[cur], queue);
    assert Apart(finished, queue) && Apart(slots'[cur], queue);
  }

  lemma {:induction false} WithoutMiddle(a: seq<InferenceRequest>, r: InferenceRequest, b: seq<InferenceRequest>)
    requires r !in a
    ensures Without(a + ([r] + b), r) == a + b
  {
    if a == [] {
      assert a + ([r] + b) == [r] + b && a + b == b;
    } else {
      WithoutMiddle(a[1..], r, b);
      assert (a + ([r] + b))[1..] == a[1..] + ([r] + b);
      assert a + b == [a[0]] + (a[1..] + b);
    }
  }

  /** Requests already settled in front of the rest. */
  function Join(kept: seq<Req>, finished: seq<Req>, rest: Spec.Settled): Spec.Settled
  {
    Spec.Settled(kept + rest.kept, finished + rest.finished, rest.pool)
  }

  lemma {:induction false} UpdateIs(c: Config, s: Spec.State, tokens: seq<Token>)
    requires Spec.Shaped(c, s) && |tokens| == |s.slots[s.cur]|
    ensures var d := Spec.Settle(s.slots[s.cur], tokens, s.pool);
            var now := s.(slots := s.slots[s.cur := d.kept], pool := d.pool);
            Spec.Update(c, s, tokens) == if d.finished == [] then now else now.(results := s.results + [d.finished])
  {
  }

  lemma {:induction false} SettleStep(v: seq<Req>, tokens: seq<Token>, i: nat, pool: Pool, kept: seq<Req>,
                                      finished: seq<Req>)
    requires i < |v| == |tokens|
    ensures Join(kept, finished, Spec.Settle(v[i..], tokens[i..], pool))
            == if Completes(v[i], tokens[i]) then
                 Join(kept, finished + [Absorb(v[i], tokens[i]).Finish()],
                      Spec.Settle(v[i + 1..], tokens[i + 1..], Released(pool, v[i].blocks)))
               else
                 Join(kept + [Absorb(v[i], tokens[i])], finished, Spec.Settle(v[i + 1..], tokens[i + 1..], pool))
  {
    assert v[i..][1..] == v[i + 1..] && tokens[i..][1..] == tokens[i + 1..];
  }

  /** A state with the current slot, the queue and the pages as `schedule` leaves them. */
  function Placing(s: Spec.State, w: Spec.Work): Spec.State
    requires s.cur < |s.slots|
  {
    Spec.State(w.queue, s.slots[s.cur := w.active], s.cur, w.pool, s.results)
  }

  lemma {:induction false} ScheduleIs(c: Config, s: Spec.State)
    requires Spec.Shaped(c, s)
    ensures Spec.Schedule(c, s)
            == Placing(s, FillFrom(c, Spec.WorkOf(c, s), Spec.OtherInflight(s))).(cur := (s.cur + 1) % |s.slots|)
  {
  }

  /** `get_snapshot`: the requests of a slot that are not finished. */
  function Live(s: seq<InferenceRequest>): seq<InferenceRequest>
    reads s
  {
    if s == [] then [] else (if s[0].status == Finished then [] else [s[0]]) + Live(s[1..])
  }

  lemma {:induction false} LiveViews(s: seq<InferenceRequest>)
    ensures Views(Live(s)) == Spec.Snapshot(Views(s))
  {
    if s != [] {
      LiveViews(s[1..]);
      assert Views(s)[1..] == Views(s[1..]);
    }
  }

  /** A slot none of whose requests is finished is its own snapshot. */
  lemma {:induction false} LiveIsAll(s: seq<InferenceRequest>)
    requires forall r :: r in s ==> r.status != Finished
    ensures Live(s) == s
  {
    if s != [] { LiveIsAll(s[1..]); }
  }

  function OtherCount(slots: seq<seq<InferenceRequest>>, cur: nat): nat
    requires cur < |slots|
  {
    Spec.TotalLength(slots[..cur]) + Spec.TotalLength(slots[cur + 1..])
  }

  lemma {:induction false} OtherCountIs(s: Spec.State, slots: seq<seq<InferenceRequest>>)
    requires s.cur < |s.slots| == |slots| && forall k :: 0 <= k < |slots| ==> |s.slots[k]| == |slots[k]|
    ensures OtherCount(slots, s.cur) == Spec.OtherInflight(s)
  {
    SameLengths(s.slots[..s.cur], slots[..s.cur]);
    SameLengths(s.slots[s.cur + 1..], slots[s.cur + 1..]);
  }

  lemma {:induction false} SameLengths<A, B>(a: seq<seq<A>>, b: seq<seq<B>>)
    requires |a| == |b| && forall k :: 0 <= k < |a| ==> |a[k]| == |b[k]|
    ensures Spec.TotalLength(a) == Spec.TotalLength(b)
  {
    if a != [] { SameLengths(a[1..], b[1..]); }
  }

  /** Objects of the other slots and of the results are none of those that a `schedule` call may touch. */
  lemma {:induction false} OthersUntouched(queue: seq<InferenceRequest>, slots: seq<seq<InferenceRequest>>,
                                           results: seq<seq<InferenceRequest>>, cur: nat)
    requires cur < |slots| && Placed(queue, slots, results)
    ensures AllOf(slots[cur := []]) !! Members(queue) + Members(slots[cur])
    ensures AllOf(results) !! Members(queue) + Members(slots[cur])
  {
    forall k | 0 <= k < |slots| && k != cur ensures Apart(slots[k], queue) && Apart(slots[k], slots[cur]) { }
    forall b | 0 <= b < |results| ensures Apart(results[b], queue) && Apart(results[b], slots[cur]) { }
  }

  lemma {:induction false} SubmittedPlaced(queue: seq<InferenceRequest>, slots: seq<seq<InferenceRequest>>,
                                           results: seq<seq<InferenceRequest>>, r: InferenceRequest)
    requires Placed(queue, slots, results) && r !in queue && r !in AllOf(slots) && r !in AllOf(results)
    ensures Placed(queue + [r], slots, results)
  {
    forall k | 0 <= k < |slots| ensures Apart(slots[k], queue + [r]) { assert r !in slots[k]; }
    forall b | 0 <= b < |results| ensures Apart(results[b], queue + [r]) { assert r !in results[b]; }
  }

  lemma {:induction false} ObjectsKept(queue: seq<InferenceRequest>, slots: seq<seq<InferenceRequest>>,
                                       queue': seq<InferenceRequest>, slots': seq<seq<InferenceRequest>>, cur: nat)
    requires SameBut(slots, slots', cur)
    requires Members(queue') + Members(slots'[cur]) == Members(queue) + Members(slots[cur])
    ensures Members(queue') + AllOf(slots') == Members(queue) + AllOf(slots)
  {
    AllOfSplit(slots, cur);
    AllOfSplit(slots', cur);
    assert AllOf(slots'[cur := []]) == AllOf(slots[cur := []]) by { assert slots'[cur := []] == slots[cur := []]; }
  }

  lemma {:induction false} ObjectsShrink(slots: seq<seq<InferenceRequest>>, slots': seq<seq<InferenceRequest>>,
                                         cur: nat)
    requires SameBut(slots, slots', cur) && Within(slots'[cur], slots[cur])
    ensures AllOf(slots') <= AllOf(slots)
  {
    forall r | r in AllOf(slots') ensures r in AllOf(slots) {
      var j :| 0 <= j < |slots'| && r in slots'[j];
      assert r in slots[j];
    }
  }

  lemma {:induction false} AllOfSplit(slots: seq<seq<InferenceRequest>>, k: nat)
    requires k < |slots|
    ensures AllOf(slots) == Members(slots[k]) + AllOf(slots[k := []])
  {
    var rest := slots[k := []];
    forall r | r in AllOf(slots) ensures r in Members(slots[k]) + AllOf(rest) {
      var j :| 0 <= j < |slots| && r in slots[j];
      if j != k { assert r in rest[j]; }
    }
    forall r | r in AllOf(rest) ensures r in AllOf(slots) {
      var j :| 0 <= j < |rest| && r in rest[j];
      assert r in slots[j];
    }
  }

  /** Moving requests between the queue and one slot keeps every object in one place. */
  lemma {:induction false} PlacedAfter(queue: seq<InferenceRequest>, slots: seq<seq<InferenceRequest>>,
                                       results: seq<seq<InferenceRequest>>,
                                       queue': seq<InferenceRequest>, slots': seq<seq<InferenceRequest>>, cur: nat)
    requires Placed(queue, slots, results) && SameBut(slots, slots', cur)
    requires Unique(queue') && Unique(slots'[cur]) && Apart(slots'[cur], queue')
    requires Members(queue') + Members(slots'[cur]) == Members(queue) + Members(slots[cur])
    ensures Placed(queue', slots', results)
  {
    forall x: seq<InferenceRequest> | Apart(x, queue) && Apart(x, slots[cur])
      ensures Apart(x, queue') && Apart(x, slots'[cur]) && Apart(slots'[cur], x)
    {
      forall r | r in x ensures r !in queue' && r !in slots'[cur] {
        assert r !in Members(queue) + Members(slots[cur]);
        assert r !in Members(queue') + Members(slots'[cur]);
      }
    }
    forall k | 0 <= k < |slots'| && k != cur ensures Apart(slots[k], queue) && Apart(slots[k], slots[cur]) { }
    forall b | 0 <= b < |results| ensures Apart(results[b], queue) && Apart(results[b], slots[cur]) { }
  }

  /** What `schedule` makes of a slot, given the number of requests in the others. */
  function FillFrom(c: Config, w: Spec.Work, others: nat): Spec.Work
    requires ValidConfig(c) && w.next <= |w.active|
  {
    var planned := Spec.PlanAll(c, w);
    Spec.Admit(c, planned, Spec.SeqsBudget(c, planned, others))
  }

  lemma {:induction false} LengthSplit<T>(slots: seq<seq<T>>, k: nat)
    requires k < |slots|
    ensures Spec.TotalLength(slots) == Spec.TotalLength(slots[..k]) + |slots[k]| + Spec.TotalLength(slots[k + 1..])
  {
    if k == 0 {
      assert slots[..0] == [] && slots[0 + 1..] == slots[1..];
    } else {
      LengthSplit(slots[1..], k - 1);
      assert slots[..k] == [slots[0]] + slots[1..][..k - 1];
      assert slots[1..][k..] == slots[k + 1..];
    }
  }

  /** One turn of the admission loop: the state after it, and whether it was the last. */
  function AdmitStep(c: Config, w: Spec.Work): (Spec.Work, bool)
    requires ValidConfig(c) && w.queue != []
  {
    var r := w.queue[0];
    var (tokens, upTo) := Spec.Plan(c, r, w.budget);
    var putBack := w.(queue := w.queue[1..] + [r]);
    if w.budget < tokens then (putBack, true)
    else
      match Allocate(c, w.pool, |r.input|, 0)
      case None => (putBack, true)
      case Some(pages) =>
        (w.(active := w.active + [r.Activate(pages).(step := tokens, computed := upTo)], queue := w.queue[1..],
            pool := Taken(w.pool, pages), budget := w.budget - tokens), false)
  }

  /** The turn looks at the head of the queue, the pages and the budget only. */
  lemma {:induction false} AdmitStepParts(c: Config, w: Spec.Work, stop: bool, r: Req, pool: Pool, left: int)
    requires ValidConfig(c) && w.queue != []
    requires AdmitStep(c, Spec.Work([], 0, [w.queue[0]], w.pool, w.budget))
             == (Spec.Work(if stop then [] else [r], 0, if stop then [r] else [], pool, left), stop)
    ensures AdmitStep(c, w)
            == (Spec.Work(if stop then w.active else w.active + [r], w.next,
                          if stop then w.queue[1..] + [r] else w.queue[1..], pool, left),
                stop)
  {
    var head := [w.queue[0]];
    assert head[1..] + head == head;
    assert forall x: Req :: [] + [x] == [x];
  }

  lemma {:induction false} AdmitEnds(c: Config, w: Spec.Work, seqs: int)
    requires ValidConfig(c)
    ensures w.budget <= 0 || seqs <= 0 ==> Spec.Admit(c, w, seqs) == w
  {
  }

  /** Taking the head of the queue and putting it into the slot, or back at the end, keeps all apart. */
  lemma {:induction false} HeadLeaves(queue: seq<InferenceRequest>, active: seq<InferenceRequest>)
    requires queue != [] && Unique(queue) && Unique(active) && Apart(active, queue)
    ensures queue[0] !in queue[1..] && queue[0] !in active
    ensures Unique(queue[1..] + [queue[0]]) && Apart(active, queue[1..] + [queue[0]])
    ensures Members(queue[1..] + [queue[0]]) == Members(queue)
    ensures Unique(queue[1..]) && Unique(active + [queue[0]]) && Apart(active + [queue[0]], queue[1..])
    ensures Members(queue[1..]) + Members(active + [queue[0]]) == Members(queue) + Members(active)
  {
    assert queue == [queue[0]] + queue[1..];
    assert queue[0] in queue;
  }

  /** `next` is where the rest of the copied list, as far as it is still in the slot, begins. */
  predicate ToPlan(list: seq<InferenceRequest>, k: nat, active: seq<InferenceRequest>, next: nat)
  {
    k <= |list| && next <= |active| && Unique(list) && Unique(active) && Still(list[k..], active) == active[next..]
  }

  predicate Within(a: seq<InferenceRequest>, b: seq<InferenceRequest>) { forall r :: r in a ==> r in b }

  /** All batch slots but one are as they were. */
  ghost predicate SameBut<T>(was: seq<T>, now: seq<T>, i: nat)
  {
    i < |was| && |now| == |was| && now == was[i := now[i]]
  }

  lemma {:induction false} SameButItself<T>(was: seq<T>, k: nat)
    requires k < |was|
    ensures SameBut(was, was, k)
  {
  }

  lemma {:induction false} SetTwice<T>(a: seq<T>, b: seq<T>, d: seq<T>, i: nat)
    requires SameBut(a, b, i) && SameBut(b, d, i)
    ensures SameBut(a, d, i)
  {
  }

  lemma {:induction false} PlanStart(list: seq<InferenceRequest>)
    requires Unique(list)
    ensures ToPlan(list, 0, list, 0) && Within(list, list)
  {
    StillAll(list, list);
    assert list[0..] == list;
  }

  lemma {:induction false} PlanDone(list: seq<InferenceRequest>, active: seq<InferenceRequest>, next: nat)
    requires ToPlan(list, |list|, active, next)
    ensures next == |active|
  {
    assert list[|list|..] == [];
  }

  lemma {:induction false} PlanAllDone(c: Config, w: Spec.Work)
    requires ValidConfig(c) && w.next == |w.active|
    ensures Spec.PlanAll(c, w) == w
  {
  }

  /** Where the planning loop goes on. */
  function NextToPlan(i: nat, evicted: Option<nat>): nat { if evicted == Some(i) then i else NextAfter(i, evicted) + 1 }

  /** The copy's element is the next one to plan. */
  lemma {:induction false} FrontIsNext(list: seq<InferenceRequest>, k: nat, active: seq<InferenceRequest>, next: nat)
    requires k < |list| && list[k] in active && ToPlan(list, k, active, next)
    ensures next < |active| && active[next] == list[k] && Still(list[k + 1..], active) == active[next + 1..]
  {
    assert list[k..][1..] == list[k + 1..];
    var rest := Still(list[k + 1..], active);
    assert Still(list[k..], active) == [list[k]] + rest;
    assert active[next..][1..] == active[next + 1..];
    assert ([list[k]] + rest)[1..] == rest;
  }

  /** After a turn the rest of the copy still is what remains to be planned. */
  lemma {:induction false} AfterEviction(list: seq<InferenceRequest>, k: nat, active: seq<InferenceRequest>, next: nat,
                                         active': seq<InferenceRequest>, evicted: Option<nat>)
    requires Unique(list) && Unique(active) && k < |list| && next < |active|
    requires Still(list[k + 1..], active) == active[next + 1..] && Within(active, list)
    requires match evicted
             case None => active' == active
             case Some(v) => v < |active| && active' == Remove(active, v)
    ensures ToPlan(list, k + 1, active', NextToPlan(next, evicted)) && Within(active', list)
  {
    if evicted.Some? {
      var v := evicted.value;
      var gone := active[v];
      var rest := active[next + 1..];
      assert forall r :: r in active' <==> r in Members(active');
      assert forall r :: r in active <==> r in Members(active);
      assert Unique(list[k + 1..]);
      StillWithout(list[k + 1..], active, active', gone);
      if v > next {
        assert rest[v - next - 1] == gone;
        assert Unique(rest);
        WithoutIsRemove(rest, v - next - 1);
        assert Remove(rest, v - next - 1) == active'[next + 1..];
      } else {
        assert gone !in rest;
        WithoutNone(rest, gone);
        assert rest == active'[next..];
      }
    }
  }

  /** A batch slot after at most one eviction. */
  predicate Left(was: seq<seq<InferenceRequest>>, now: seq<seq<InferenceRequest>>, k: nat, evicted: Option<nat>)
  {
    && k < |was|
    && match evicted
       case None => now == was
       case Some(v) => v < |was[k]| && now == was[k := Remove(was[k], v)]
  }

  lemma {:induction false} StillAt<T>(s: seq<T>, i: nat, v: nat)
    requires i < |s| && v < |s| && v != i
    ensures var j := NextAfter(i, Some(v)); j < |Remove(s, v)| && Remove(s, v)[j] == s[i]
  {
  }

  function NextAfter(i: nat, evicted: Option<nat>): nat { if evicted.Some? && evicted.value < i then i - 1 else i }

  /** Who has to go so that the next request can get its pages. */
  function Evictee(c: Config, w: Spec.Work): Option<nat>
    requires ValidConfig(c) && w.next < |w.active|
  {
    if Spec.Extend(c, w).Some? then None else Some(Spec.LeastProgress(w.active))
  }

  /** What `_extend_or_preempt` makes of the state, and its result. */
  function Secured(c: Config, w: Spec.Work): (Spec.Work, bool)
    requires ValidConfig(c) && w.next < |w.active|
  {
    match Spec.Extend(c, w)
    case Some(w2) => (w2, true)
    case None =>
      var v := Spec.LeastProgress(w.active);
      var w2 := Spec.Evict(w, v);
      if v == w.next then (w2, false)
      else
        match Spec.Extend(c, w2)
        case Some(w3) => (w3, true)
        case None => (w2, false)
  }

  /** One turn of the planning loop in terms of the two. */
  lemma {:induction false} PlanNextSecures(c: Config, w: Spec.Work)
    requires ValidConfig(c) && w.next < |w.active|
    ensures var w1 := Spec.Planned(c, w);
            var (w2, ok) := Secured(c, w1);
            Spec.PlanNext(c, w) == w2.(next := if Evictee(c, w1) == Some(w.next) then w2.next else w2.next + 1,
                                       budget := if ok then w.budget - Spec.Plan(c, w.active[w.next], w.budget).0
                                                 else w.budget)
  {
  }

  /** The request at place `i` is nowhere else. */
  lemma {:induction false} RestStays(active: seq<InferenceRequest>, queue: seq<InferenceRequest>, i: nat)
    requires Unique(active) && Apart(active, queue) && i < |active|
    ensures active[i] !in queue && forall j :: 0 <= j < |active| && j != i ==> active[j] != active[i]
  {
    assert active[i] in active;
  }

  lemma {:induction false} EvictLocal(active: seq<InferenceRequest>, queue: seq<InferenceRequest>, v: nat)
    requires Unique(queue) && Unique(active) && Apart(active, queue) && v < |active|
    ensures active[v] !in queue && active[v] !in Remove(active, v)
    ensures Unique(queue + [active[v]]) && Unique(Remove(active, v)) && Apart(Remove(active, v), queue + [active[v]])
    ensures Members(queue + [active[v]]) + Members(Remove(active, v)) == Members(queue) + Members(active)
  {
    assert active[v] in active;
    assert forall r :: r in Remove(active, v) ==> r in Members(Remove(active, v));
  }
}
