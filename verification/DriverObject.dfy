/** `DriverWorker`: the generation loop over the scheduler object, and what it serves. */
module DriverObject {
  import opened Prelude
  import opened Transformer
  import opened Requests
  import opened Pages
  import opened Cache
  import Spec = Scheduling
  import opened Device
  import opened DeviceProofs
  import opened Engine
  import opened Invariants
  import opened PhaseProofs
  import opened EngineProofs
  import opened Runs
  import opened RequestObject
  import opened PageManager
  import opened SchedulerObject

  class DriverWorker {
    const c: Config
    const m: Model
    const scheduler: Scheduler
    /** The pipeline: the stages' caches, and the outputs that have not come back to rank 0. */
    var store: Store
    var pending: seq<Output>

    ghost predicate Valid()
      reads this, scheduler
    {
      scheduler.c == c && scheduler.Valid()
    }

    function View(): System
      reads this, scheduler, scheduler.kv, scheduler.queue, AllOf(scheduler.slots), AllOf(scheduler.results)
    {
      System(scheduler.View(), store, pending)
    }

    constructor (c: Config, m: Model, store: Store)
      requires ValidConfig(c)
      ensures Valid() && this.c == c && this.m == m
      ensures fresh(scheduler) && fresh(scheduler.kv) && scheduler.Objects() == {}
      ensures View() == Started(c, store)
    {
      this.c, this.m, this.store, this.pending := c, m, store, [];
      var kv := new KVCacheManager(c);
      scheduler := new Scheduler(c, kv);
    }

    /** Rank 0's part of `infer`: issue the batch, and receive the oldest output if one is due. Sampling refuses a
        batch of requests that are not alike. */
    method Infer(batch: seq<Req>, receive: bool) returns (ok: bool, received: Option<Output>)
      requires ValidConfig(c) && Comes(c, pending, receive)
      modifies `store, `pending
      ensures ok <==> UniformSampling(batch)
      ensures ok ==> (store, pending, received) == InferStep(c, m, old(store), old(pending), batch, receive)
    {
      var (after, output) := Engine.Infer(c, m, store, batch);
      store := after;
      received := None;
      ok := UniformSampling(batch);
      if !ok {
        return;
      }
      if c.numSlots == 1 {
        received := Some(output);
      } else {
        if receive {
          received := Some(pending[0]);
          pending := pending[1..];
        }
        if batch != [] {
          pending := pending + [output];
        } else {
          assert pending + [] == pending;
        }
      }
    }

    /** One turn of `_generation_loop`; the loop ends when it raises. */
    method Turn(ghost before: System) returns (ok: bool)
      requires Valid() && before == View() && Inv(c, m, before)
      modifies this, scheduler, scheduler.kv, scheduler.Objects()
      ensures Valid() && scheduler.Objects() <= old(scheduler.Objects())
      ensures Spec.Shaped(c, before.sched)
      ensures if ok then Cycle(c, m, before) == Goes(View())
              else Cycle(c, m, before) == Stuck && scheduler.View() == Spec.Schedule(c, before.sched)
    {
      hide Inv, Live, Spec.Schedule, Spec.Snapshot, Cycle, Views, Delivering, AllOf, Members, Placed, UniformSampling,
        Scheduler.Valid, Spec.Shaped;
      scheduler.ValidIsShaped();
      CycleIs(c, m, before);
      scheduler.MineAmongObjects();
      ghost var goal, s := Cycle(c, m, before), Spec.Schedule(c, before.sched);
      var toInfer, toUpdate := scheduler.Schedule(before.sched);
      scheduler.ValidIsShaped();
      LiveIsSlot(scheduler.slots[scheduler.cur]);
      scheduler.MineAmongObjects();
      assert View() == before.(sched := s);
      ok := true;
      if toInfer != [] || toUpdate != [] {
        ok := Step(toInfer, toUpdate, View(), Views(toInfer));
      }
    }

    /** A submission makes a new request object. */
    method Submit(key: Key, ghost before: System)
      requires Valid() && before == View()
      modifies scheduler`queue
      ensures Valid() && forall r :: r in scheduler.Objects() ==> r in old(scheduler.Objects()) || fresh(r)
      ensures View() == before.(sched := Submitted(before.sched, key))
    {
      hide Placed, Fresh, Scheduler.Valid, ListViews, Views;
      var r := new InferenceRequest(key.id, key.cfg, key.prompt);
      scheduler.SubmitRequest(r, before.sched);
    }

    /** A submission, or a turn of the loop. */
    method Handle(e: Event, ghost before: System) returns (ok: bool)
      requires Valid() && before == View() && Inv(c, m, before)
      modifies this, scheduler, scheduler.kv, scheduler.Objects()
      ensures Valid() && forall r :: r in scheduler.Objects() ==> r in old(scheduler.Objects()) || fresh(r)
      ensures Spec.Shaped(c, before.sched)
      ensures if ok then Handled(c, m, before, e) == Goes(View())
              else Handled(c, m, before, e) == Stuck && View().sched.results == before.sched.results
    {
      hide Inv, Cycle, AllOf, Members, Placed, Spec.Shaped, Scheduler.Valid, Scheduler.Objects, Spec.Schedule,
        Submitted;
      ShapedBySound(c, m, before);
      match e
      case Submit(key) =>
        Submit(key, before);
        ok := true;
      case Turn =>
        ok := Turn(before);
        ScheduleResults(c, before.sched);
    }

    /** The part of a turn after `schedule`, when there is anything to do. */
    method Step(toInfer: seq<InferenceRequest>, toUpdate: seq<InferenceRequest>, ghost before: System,
                ghost batch: seq<Req>) returns (ok: bool)
      requires Valid() && before == View() && toUpdate == scheduler.slots[scheduler.cur] && batch == Views(toInfer)
      requires forall i :: 0 <= i < |toUpdate| ==> toUpdate[i].status != Finished
      requires Comes(c, before.pending, |toUpdate| != 0)
      requires UniformSampling(batch) ==> Delivering(c, m, before, batch, |toUpdate|).Some?
      modifies this, scheduler, scheduler.kv, toUpdate
      ensures Valid() && scheduler.Objects() <= old(scheduler.Objects())
      ensures ok <==> UniformSampling(batch)
      ensures ok ==> Some(View()) == Delivering(c, m, before, batch, |toUpdate|)
      ensures !ok ==> scheduler.View() == before.sched
    {
      hide InferStep, Spec.Update, Placed, Delivering, Views, UniformSampling, Scheduler.Valid, Scheduler.Objects,
        Comes, Spec.Shaped, ValidConfig;
      scheduler.ValidIsShaped();
      if UniformSampling(batch) { DeliveringIs(c, m, before, batch, |toUpdate|); }
      ghost var (after, left, output) := InferStep(c, m, before.store, before.pending, batch, |toUpdate| != 0);
      var received;
      ok, received := Infer(Views(toInfer), |toUpdate| != 0);
      if !ok {
        return;
      }
      assert scheduler.View() == before.sched && received == output;
      if received.Some? {
        scheduler.Update(toUpdate, received.value.tokens, before.sched);
      }
      assert View() == System(scheduler.View(), after, left);
    }
  }

  /** An engine serves a history of submissions and turns with objects that nobody else holds. It does
      exactly what the run of the model does, ends its loop exactly when that is stuck, never waits for an
      output that is not coming, and every request object in its results carries the tokens of the plain
      one-request loop. */
  method Serve(c: Config, m: Model, store: Store, history: seq<Event>) returns (d: DriverWorker, running: bool)
    requires ValidConfig(c) && StoreShape(c, m, store) && GoodHistory(history)
    ensures d.Valid() && d.c == c && d.m == m
    ensures Run(c, m, Started(c, store), history) == if running then Goes(d.View()) else Stuck
    ensures forall b, i :: 0 <= b < |d.scheduler.results| && 0 <= i < |d.scheduler.results[b]| ==>
              var r := d.scheduler.results[b][i];
              && Delivered(m, r.View())
              && IsOutput(m, r.cfg, r.View().Prompt(), r.generated)
  {
    hide IsOutput, Initial, GoodHistory, Run, AllOf, Members, Placed, Delivered, Handled, Inv, Serving, Spec.Shaped,
      StoreShape, Scheduler.Valid, Scheduler.Objects, ValidConfig, AllDelivered, ListViews;
    d := new DriverWorker(c, m, store);
    ghost var start := d.View();
    ServesNothing(c, m, store, history);
    var k := 0;
    running := true;
    while k < |history| && running
      invariant k <= |history| && d.Valid() && d.c == c && d.m == m
      invariant fresh(d) && fresh(d.scheduler) && fresh(d.scheduler.kv) && fresh(d.scheduler.Objects())
      invariant Serving(c, m, start, history[..k], running, d.View())
    {
      ghost var before := d.View();
      ServingKeeps(c, m, start, history, k, before);
      running := d.Handle(history[k], before);
      EventServed(c, m, start, history, k, before, running, d.View());
      k := k + 1;
    }
    AllServed(c, m, start, history, k, running, d.View());
    DeliveredObjects(m, d.scheduler.results);
  }

  /** How far the loop has come: the run so far, or its end, and right results in any case. */
  ghost predicate Serving(c: Config, m: Model, start: System, history: seq<Event>, running: bool, view: System)
    requires Spec.Shaped(c, start.sched)
  {
    && Run(c, m, start, history) == (if running then Goes(view) else Stuck)
    && AllDelivered(m, view.sched.results)
  }

  lemma {:induction false} ServesNothing(c: Config, m: Model, store: Store, history: seq<Event>)
    requires ValidConfig(c) && StoreShape(c, m, store)
    ensures Initial(c, m, Started(c, store)) && Spec.Shaped(c, Started(c, store).sched)
    ensures Serving(c, m, Started(c, store), history[..0], true, Started(c, store))
  {
    hide Delivered;
  }

  lemma {:induction false} ServingKeeps(c: Config, m: Model, start: System, history: seq<Event>, k: nat, view: System)
    requires Initial(c, m, start) && GoodHistory(history) && k < |history|
    requires Serving(c, m, start, history[..k], true, view)
    ensures Inv(c, m, view) && Spec.Shaped(c, view.sched)
    ensures Run(c, m, start, history[..k + 1]) == Handled(c, m, view, history[k])
  {
    hide Inv, BatchesAlike, Cycle;
    assert history[..k + 1][..k] == history[..k] && history[..k + 1][k] == history[k];
    RunKeeps(c, m, start, history[..k]);
    ShapedBySound(c, m, view);
  }

  lemma {:induction false} EventServed(c: Config, m: Model, start: System, history: seq<Event>, k: nat, before: System,
                                       ok: bool, after: System)
    requires Initial(c, m, start) && GoodHistory(history) && k < |history| && Spec.Shaped(c, before.sched)
    requires Serving(c, m, start, history[..k], true, before)
    requires Run(c, m, start, history[..k + 1]) == Handled(c, m, before, history[k])
    requires if ok then Handled(c, m, before, history[k]) == Goes(after)
             else Handled(c, m, before, history[k]) == Stuck && after.sched.results == before.sched.results
    ensures Serving(c, m, start, history[..k + 1], ok, after)
  {
    hide Run, Handled, AllDelivered;
    if ok { AllAnswered(c, m, start, history[..k + 1]); }
  }

  lemma {:induction false} AllServed(c: Config, m: Model, start: System, history: seq<Event>, k: nat, running: bool,
                                     view: System)
    requires Spec.Shaped(c, start.sched) && k <= |history| && (running ==> k == |history|)
    requires Serving(c, m, start, history[..k], running, view)
    ensures Run(c, m, start, history) == (if running then Goes(view) else Stuck)
    ensures AllDelivered(m, view.sched.results)
  {
    hide Run, AllDelivered;
    if running {
      assert history[..k] == history;
    } else {
      StuckStays(c, m, start, history, k);
    }
  }

  /** Every result so far is what the plain loop gives. */
  ghost predicate AllDelivered(m: Model, results: seq<seq<Req>>)
  {
    forall r :: r in Flat(results) ==> Delivered(m, r)
  }

  lemma {:induction false} ScheduleResults(c: Config, s: Spec.State)
    requires Spec.Shaped(c, s)
    ensures Spec.Schedule(c, s).results == s.results
  {
    hide Spec.Filled;
  }

  /** What comes after a stop changes nothing. */
  lemma {:induction false} StuckStays(c: Config, m: Model, start: System, history: seq<Event>, k: nat)
    requires Spec.Shaped(c, start.sched) && k <= |history| && Run(c, m, start, history[..k]) == Stuck
    ensures Run(c, m, start, history) == Stuck
    decreases |history|
  {
    if k < |history| {
      assert history[..|history| - 1][..k] == history[..k];
      StuckStays(c, m, start, history[..|history| - 1], k);
    } else {
      assert history[..k] == history;
    }
  }

  /** An output that rank 0 waits for is on its way. */
  predicate Comes(c: Config, pending: seq<Output>, receive: bool) { receive && c.numSlots > 1 ==> pending != [] }

  lemma {:induction false} DeliveringIs(c: Config, m: Model, sys: System, batch: seq<Req>, due: nat)
    requires Spec.Shaped(c, sys.sched) && Comes(c, sys.pending, due != 0)
    requires Delivering(c, m, sys, batch, due).Some?
    ensures var (store, pending, received) := InferStep(c, m, sys.store, sys.pending, batch, due != 0);
            && (received.Some? ==> |received.value.tokens| == due == |sys.sched.slots[sys.sched.cur]|)
            && Delivering(c, m, sys, batch, due)
               == Some(System(if received.Some? then Spec.Update(c, sys.sched, received.value.tokens) else sys.sched,
                              store, pending))
  {
    hide Engine.Infer, Spec.Update;
  }

  /** The effect of `infer` on rank 0. */
  function InferStep(c: Config, m: Model, store: Store, pending: seq<Output>, batch: seq<Req>, receive: bool)
    : (Store, seq<Output>, Option<Output>)
    requires ValidConfig(c) && Comes(c, pending, receive)
  {
    var (after, output) := Engine.Infer(c, m, store, batch);
    var sent := if batch == [] then [] else [output];
    if c.numSlots == 1 then (after, pending, Some(output))
    else if receive then (after, pending[1..] + sent, Some(pending[0]))
    else (after, pending + sent, None)
  }

  /** `infer` and then `update` on what it returned; None if the output does not have the batch's length. */
  function Delivering(c: Config, m: Model, sys: System, batch: seq<Req>, due: nat): Option<System>
    requires Spec.Shaped(c, sys.sched) && Comes(c, sys.pending, due != 0)
  {
    var (store, pending, received) := InferStep(c, m, sys.store, sys.pending, batch, due != 0);
    if received.None? then Some(System(sys.sched, store, pending))
    else if |received.value.tokens| != due || due != |sys.sched.slots[sys.sched.cur]| then None
    else Some(System(Spec.Update(c, sys.sched, received.value.tokens), store, pending))
  }

  /** The state of a new engine on a given cache. */
  function Started(c: Config, store: Store): System
  {
    System(Spec.State([], seq(c.numSlots, _ => []), 0, Pool(Universe(c.maxBlocks), {}), []), store, [])
  }

  /** If the values of a slot are their own snapshot, then so are its objects, and none is finished. */
  lemma {:induction false} LiveIsSlot(s: seq<InferenceRequest>)
    ensures Spec.Snapshot(Views(s)) == Views(s) ==>
              Live(s) == s && forall i :: 0 <= i < |s| ==> s[i].status != Finished
  {
    if Spec.Snapshot(Views(s)) == Views(s) {
      forall i | 0 <= i < |s| ensures s[i].status != Finished {
        assert Views(s)[i] in Spec.Snapshot(Views(s));
        SnapshotIsLive(Views(s), Views(s)[i]);
      }
      LiveIsAll(s);
    }
  }

  lemma {:induction false} SnapshotIsLive(v: seq<Req>, r: Req)
    requires r in Spec.Snapshot(v)
    ensures r.status != Finished
  {
    if v != [] && r in Spec.Snapshot(v[1..]) { SnapshotIsLive(v[1..], r); }
  }

  /** A turn that goes on, or stops because its requests are not alike. */
  ghost predicate TurnIs(c: Config, m: Model, sys: System, s: Spec.State)
    requires Spec.Shaped(c, sys.sched) && Spec.Shaped(c, s)
  {
    var (batch, due) := (s.slots[sys.sched.cur], s.slots[s.cur]);
    && Comes(c, sys.pending, |due| != 0)
    && if batch == [] && due == [] then Cycle(c, m, sys) == Goes(sys.(sched := s))
       else if !UniformSampling(batch) then Cycle(c, m, sys) == Stuck
       else
         var after := Delivering(c, m, sys.(sched := s), batch, |due|);
         after.Some? && Cycle(c, m, sys) == Goes(after.value)
  }

  /** A cycle of the engine, as the loop performs it: slots are their own snapshots, and an output is there
      when one is due and has the length of its batch. */
  lemma {:induction false} CycleIs(c: Config, m: Model, sys: System)
    requires Inv(c, m, sys)
    ensures Spec.Shaped(c, sys.sched)
    ensures var s := Spec.Schedule(c, sys.sched);
            var (batch, due) := (s.slots[sys.sched.cur], s.slots[s.cur]);
            && Spec.Snapshot(batch) == batch && Spec.Snapshot(due) == due
            && TurnIs(c, m, sys, s)
  {
    hide Inv, Scheduled, AllKeys, Spec.Schedule, Cycle, TurnIs, Spec.Snapshot, UniformSampling;
    ShapedBySound(c, m, sys);
    ScheduleKeeps(c, m, sys);
    CycleKeeps(c, m, sys);
    var s := Spec.Schedule(c, sys.sched);
    SnapshotsAreSlots(c, m, s, sys.store, sys.sched.cur, sys.sched.cur);
    SnapshotsAreSlots(c, m, s, sys.store, sys.sched.cur, s.cur);
    SameSlotAlone(c, sys.sched);
    OldestIsThere(c, m, sys);
    TurnValue(c, m, sys, s);
  }

  /** With several stages the output of a slot that is due is on its way. */
  lemma {:induction false} OldestIsThere(c: Config, m: Model, sys: System)
    requires Inv(c, m, sys) && Spec.Shaped(c, sys.sched)
    ensures var s := Spec.Schedule(c, sys.sched); Comes(c, sys.pending, |s.slots[s.cur]| != 0)
  {
    if c.numSlots > 1 {
      OldestAnswersNext(c, m, sys);
    }
  }

  lemma {:induction false} TurnValue(c: Config, m: Model, sys: System, s: Spec.State)
    requires Spec.Shaped(c, sys.sched) && s == Spec.Schedule(c, sys.sched)
    requires Spec.Snapshot(s.slots[sys.sched.cur]) == s.slots[sys.sched.cur]
    requires Spec.Snapshot(s.slots[s.cur]) == s.slots[s.cur]
    requires Cycle(c, m, sys).Goes? <==> UniformSampling(s.slots[sys.sched.cur])
    requires Comes(c, sys.pending, |s.slots[s.cur]| != 0)
    requires c.numSlots == 1 ==> s.cur == sys.sched.cur
    ensures TurnIs(c, m, sys, s)
  {
    var batch := s.slots[sys.sched.cur];
    if UniformSampling(batch) {
      var (store, output) := Engine.Infer(c, m, sys.store, batch);
      CycleValue(c, m, sys, s, store, output);
      AfterIsDelivering(c, m, sys, s, store, output);
    }
  }

  /** The rest of a turn is `infer` and then `update`. */
  lemma {:induction false} AfterIsDelivering(c: Config, m: Model, sys: System, s: Spec.State, store: Store,
                                             output: Output)
    requires Spec.Shaped(c, sys.sched) && Spec.Shaped(c, s)
    requires (store, output) == Engine.Infer(c, m, sys.store, s.slots[sys.sched.cur])
    requires AfterForward(c, sys, s, store, output).Goes? && Comes(c, sys.pending, |s.slots[s.cur]| != 0)
    requires c.numSlots == 1 ==> s.cur == sys.sched.cur
    ensures var (batch, due) := (s.slots[sys.sched.cur], s.slots[s.cur]);
            AfterForward(c, sys, s, store, output) ==
              if batch == [] && due == [] then Goes(sys.(sched := s))
              else
                var after := Delivering(c, m, sys.(sched := s), batch, |due|);
                if after.Some? then Goes(after.value) else Stuck
  {
    hide Engine.Infer, Spec.Update;
  }

  /** With one slot the batch is also the one whose outputs are due. */
  lemma {:induction false} SameSlotAlone(c: Config, s: Spec.State)
    requires Spec.Shaped(c, s)
    ensures c.numSlots == 1 ==> Spec.Schedule(c, s).cur == s.cur
  {
  }

  /** What one event makes of the engine. */
  function Handled(c: Config, m: Model, sys: System, e: Event): Outcome
    requires Spec.Shaped(c, sys.sched)
  {
    match e
    case Submit(key) => Goes(sys.(sched := Submitted(sys.sched, key)))
    case Turn => Cycle(c, m, sys)
  }

  lemma {:induction false} AllAnswered(c: Config, m: Model, start: System, history: seq<Event>)
    requires Initial(c, m, start) && GoodHistory(history) && Run(c, m, start, history).Goes?
    ensures AllDelivered(m, Run(c, m, start, history).sys.sched.results)
  {
    hide Run, Initial, RestingSlot, FlyingSlot, StoreShape, Aligned, Waiting, Conserved, Delivered, BatchesAlike;
    RunKeeps(c, m, start, history);
  }

  lemma {:induction false} DeliveredObjects(m: Model, results: seq<seq<InferenceRequest>>)
    requires AllDelivered(m, ListViews(results))
    ensures forall b, i :: 0 <= b < |results| && 0 <= i < |results[b]| ==>
              var r := results[b][i];
              Delivered(m, r.View()) && IsOutput(m, r.cfg, r.View().Prompt(), r.generated)
  {
    hide Reference, IsOutput;
    forall b, i | 0 <= b < |results| && 0 <= i < |results[b]|
      ensures var r := results[b][i];
              Delivered(m, r.View()) && IsOutput(m, r.cfg, r.View().Prompt(), r.generated)
    {
      var r := results[b][i].View();
      InFlatList(ListViews(results), b, i);
      assert Delivered(m, r);
      ReferenceIsOutput(m, r.cfg, r.Prompt(), r.generated);
    }
  }

  lemma {:induction false} InFlatList(ss: seq<seq<Req>>, b: nat, i: nat)
    requires b < |ss| && i < |ss[b]|
    ensures ss[b][i] in Flat(ss)
  {
    if b > 0 { InFlatList(ss[1..], b - 1, i); }
  }
}
