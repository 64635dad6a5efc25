/**
 The whole pipeline: the scheduler on rank 0, the ring that carries batches and outputs, and on every rank
 the cache of its own layers. Ranks run at their own speed; rank 0 learns the tokens of a batch only when they
 come back. Every run of it refines a run of the engine model, in which a batch is computed when it is issued.
 */
module Pipeline {
  import opened Prelude
  import opened Transformer
  import opened Requests
  import opened Pages
  import opened Cache
  import opened Scheduling
  import opened SchedulingProofs
  import opened Device
  import opened Engine
  import opened Invariants
  import opened PhaseProofs
  import opened EngineProofs
  import opened Runs
  import Ring
  import Stages

  /** `batches` logs what was issued; the ring carries a batch as its number in the log, and `pipe.outs[k]` holds
      what rank `k` made of the batches it has worked on. `got` is an output that rank 0 received in a call that is
      still sending. */
  datatype Ranks = Ranks(sched: State, ring: Ring.State, pipe: Stages.Pipe, batches: seq<seq<Req>>,
                         got: Option<seq<Token>>)

  /** All ranks idle, all caches of the right shape and empty. */
  ghost predicate Started(c: Config, m: Model, parts: seq<Store>, s: Ranks)
  {
    && |parts| == c.numSlots >= 2 && Ring.Init(c.numSlots, s.ring)
    && s.pipe == Stages.Pipe(parts, seq(|parts|, _ => [])) && s.batches == [] && s.got == None
    && Initial(c, m, System(s.sched, Flat(parts), []))
  }

  /** `update` on an output; one of the wrong length changes nothing here, and never comes. */
  function Counted(c: Config, s: State, tokens: seq<Token>): (s': State)
    requires Shaped(c, s)
    ensures Shaped(c, s')
  {
    if |tokens| == |s.slots[s.cur]| then Update(c, s, tokens) else s
  }

  /** A turn of rank 0 begins: it schedules, runs its own layers, and then receives if an output is due. */
  function Begun(c: Config, s: Ranks): Ranks
    requires Shaped(c, s.sched) && s.ring.window != []
  {
    var t := Schedule(c, s.sched);
    var toInfer, toUpdate := Snapshot(t.slots[s.sched.cur]), Snapshot(t.slots[t.cur]);
    var x := if toInfer == [] then None else Some(|s.batches|);
    var batches := if toInfer == [] then s.batches else s.batches + [toInfer];
    s.(sched := t, batches := batches,
       pipe := if toInfer == [] then s.pipe else Stages.Run(c, batches, s.pipe, 0),
       ring := if toUpdate == [] then Ring.Opened(s.ring, x) else s.ring.(zero := Ring.Receiving(x)))
  }

  predicate Begin(c: Config, s: Ranks, s': Ranks)
  {
    Shaped(c, s.sched) && s.ring.window != [] && s.ring.zero == Ring.Ready && s' == Begun(c, s)
  }

  /** Rank 0 receives: the last rank has sampled what its layers made of the batch. */
  predicate Receive(c: Config, m: Model, s: Ranks, s': Ranks)
  {
    && Ring.ReceiveOutput(s.ring, s'.ring) && Shaped(c, s.sched) && s.pipe.outs != []
    && var b, outs := s.ring.stages[|s.ring.stages| - 1].value, s.pipe.outs[|s.pipe.outs| - 1];
       && b < |s.batches| && b < |outs|
       && var tokens := Select(m, s.batches[b], outs[b]);
          s' == if s'.ring.zero == Ring.Ready then s.(ring := s'.ring, sched := Counted(c, s.sched, tokens))
                else s.(ring := s'.ring, got := Some(tokens))
  }

  /** Rank 0 sends to rank 1, which runs its layers; the call returns and `update` follows. */
  predicate Send(c: Config, s: Ranks, s': Ranks)
  {
    && Ring.SendFirst(s.ring, s'.ring) && Shaped(c, s.sched)
    && s' == s.(ring := s'.ring, pipe := Stages.Run(c, s.batches, s.pipe, 1), got := None,
                sched := if s.got.Some? then Counted(c, s.sched, s.got.value) else s.sched)
  }

  /** Rank j+1 sends to rank j+2, which runs its layers. */
  predicate Pass(c: Config, s: Ranks, s': Ranks, j: nat)
  {
    && ValidConfig(c) && Ring.Hand(s.ring, s'.ring, j)
    && s' == s.(ring := s'.ring, pipe := Stages.Run(c, s.batches, s.pipe, j + 2))
  }

  /** What happens inside the pipeline. */
  ghost predicate Meeting(c: Config, m: Model, s: Ranks, s': Ranks)
  {
    Receive(c, m, s, s') || Send(c, s, s') || exists j :: Pass(c, s, s', j)
  }

  /** A step: an event of the engine, or a meeting of two ranks. Submissions come at any time. */
  ghost predicate Step(c: Config, m: Model, s: Ranks, s': Ranks, e: Option<Event>)
  {
    match e
    case None => Meeting(c, m, s, s')
    case Some(Turn) => Begin(c, s, s')
    case Some(Submit(key)) => s' == s.(sched := Submitted(s.sched, key))
  }

  ghost predicate IsRun(c: Config, m: Model, parts: seq<Store>, run: seq<Ranks>, labels: seq<Option<Event>>)
  {
    && |run| == |labels| + 1 && Started(c, m, parts, run[0])
    && forall i :: 0 <= i < |labels| ==> Step(c, m, run[i], run[i + 1], labels[i])
  }

  /** The history that the steps of a run amount to. */
  function History(labels: seq<Option<Event>>): seq<Event>
  {
    if labels == [] then []
    else
      var last := labels[|labels| - 1];
      History(labels[..|labels| - 1]) + (if last.Some? then [last.value] else [])
  }

  /** What the engine model computes for batch `n` of the log when it issues it. */
  function Expect(c: Config, m: Model, parts: seq<Store>, batches: seq<seq<Req>>, n: nat): Output
    requires ValidConfig(c) && n < |batches|
  {
    Infer(c, m, Stages.Immediately(c, batches, n, Flat(parts)), batches[n]).1
  }

  function Outs(c: Config, m: Model, parts: seq<Store>, batches: seq<seq<Req>>, from: nat): (outs: seq<Output>)
    requires ValidConfig(c) && from <= |batches|
    ensures |outs| == |batches| - from
  {
    seq(|batches| - from, i requires 0 <= i < |batches| - from => Expect(c, m, parts, batches, from + i))
  }

  /** The output due in the call under way, if rank 0 has not counted it yet. */
  function Due(c: Config, m: Model, parts: seq<Store>, s: Ranks): Option<seq<Token>>
    requires ValidConfig(c)
  {
    if s.ring.zero.Receiving? && |s.ring.received| < |s.batches| then
      Some(Expect(c, m, parts, s.batches, |s.ring.received|).tokens)
    else s.got
  }

  /** Outputs that the engine model has taken from the ring. */
  function Taken(s: Ranks): nat { |s.ring.received| + (if s.ring.zero.Receiving? then 1 else 0) }

  /** The state of the engine model: the call under way is over, and every batch is computed. */
  function Abstract(c: Config, m: Model, parts: seq<Store>, s: Ranks): System
    requires Shaped(c, s.sched) && Taken(s) <= |s.batches|
  {
    var due := Due(c, m, parts, s);
    System(if due.Some? then Counted(c, s.sched, due.value) else s.sched,
           Stages.Immediately(c, s.batches, |s.batches|, Flat(parts)),
           Outs(c, m, parts, s.batches, Taken(s)))
  }

  /** The batch that a rank has worked on and not yet handed on. */
  function Holding(s: Ranks, k: nat): Option<nat>
    requires k <= |s.ring.stages|
  {
    if k > 0 then s.ring.stages[k - 1]
    else
      match s.ring.zero
      case Ready => None
      case Receiving(x) => x
      case Sending(b) => Some(b)
  }

  /** Batches that rank `k` has worked on; past the last rank, outputs received. */
  function Done(s: Ranks, k: nat): nat
    requires k <= |s.pipe.outs|
  {
    if k < |s.pipe.outs| then |s.pipe.outs[k]| else |s.ring.received|
  }

  /** A rank is ahead of the next by exactly the batch it holds. */
  predicate Linked(s: Ranks, k: nat)
    requires k < |s.pipe.outs| == |s.ring.stages| + 1
  {
    match Holding(s, k)
    case None => Done(s, k) == Done(s, k + 1)
    case Some(b) => Done(s, k) == b + 1 && Done(s, k + 1) == b
  }

  /** The window, with the call under way counted. */
  function Window(r: Ring.State): seq<Option<nat>>
  {
    if r.zero.Receiving? && r.window != [] then r.window[1..] + [r.zero.next] else r.window
  }

  /** A call issued a batch exactly when its slot is not empty. */
  predicate WindowFits(s: Ranks)
    requires s.sched.cur < |s.sched.slots|
  {
    var up, w := Upcoming(s.sched.slots, s.sched.cur), Window(s.ring);
    |w| == |up| && forall i :: 0 <= i < |w| ==> (w[i].Some? <==> up[i] != [])
  }

  /** Every rank has done its part of the log as far as it has come, and holds the batch it is ahead by. */
  ghost predicate PipeFits(c: Config, parts: seq<Store>, s: Ranks)
    requires ValidConfig(c)
  {
    && |parts| == |s.pipe.outs| == |s.ring.stages| + 1
    && Stages.InStep(c, s.batches, parts, s.pipe) && Done(s, 0) == |s.batches|
    && (forall k :: 0 <= k < |s.pipe.outs| ==> Linked(s, k))
  }

  /** What holds of the ranks between any two steps. */
  ghost predicate Together(c: Config, m: Model, parts: seq<Store>, s: Ranks)
  {
    && Shaped(c, s.sched) && |parts| == c.numSlots >= 2
    && Ring.RingInv(c.numSlots, s.ring) && PipeFits(c, parts, s)
    && WindowFits(s) && Taken(s) <= |s.batches|
    && (s.got.Some? ==> s.ring.zero.Sending?)
  }

  lemma {:induction false} StartsTogether(c: Config, m: Model, parts: seq<Store>, s: Ranks)
    requires Started(c, m, parts, s)
    ensures Together(c, m, parts, s)
    ensures Abstract(c, m, parts, s) == System(s.sched, Flat(parts), [])
  {
    Ring.NoneOnRing(s.ring.stages);
    Ring.NoneOnRing(s.ring.window);
    var up := Upcoming(s.sched.slots, s.sched.cur);
    assert forall i :: 0 <= i < |up| ==> up[i] == [];
  }

  /** The last rank's output for a batch is what the engine model computed when it issued the batch. */
  lemma {:induction false} OutputIsExpected(c: Config, m: Model, parts: seq<Store>, s: Ranks, b: nat)
    requires ValidConfig(c) && PipeFits(c, parts, s) && b < |s.pipe.outs[|parts| - 1]|
    ensures b < |s.batches|
    ensures Select(m, s.batches[b], s.pipe.outs[|parts| - 1][b]) == Expect(c, m, parts, s.batches, b).tokens
  {
    hide Stages.InStep, Forward, Select, Linked;
    Stages.LastHandsOn(c, s.batches, parts, s.pipe, b);
  }

  /** The output that is received is the one due next. */
  lemma {:induction false} ReceivedIsNext(c: Config, parts: seq<Store>, s: Ranks, s': Ranks)
    requires ValidConfig(c) && PipeFits(c, parts, s) && Ring.ReceiveOutput(s.ring, s'.ring)
    requires s'.pipe == s.pipe && s'.batches == s.batches
    ensures s.ring.stages[|s.ring.stages| - 1] == Some(|s.ring.received|)
    ensures |s.ring.received| < |s.pipe.outs[|parts| - 1]| && PipeFits(c, parts, s')
  {
    hide Stages.InStep;
    var n := |s.ring.stages|;
    assert Linked(s, n) && Holding(s, n) == s.ring.stages[n - 1];
    forall k | 0 <= k <= n ensures Linked(s', k) { assert Linked(s, k); }
  }

  lemma {:induction false} ReceiveKeeps(c: Config, m: Model, parts: seq<Store>, s: Ranks, s': Ranks)
    requires Together(c, m, parts, s) && Receive(c, m, s, s')
    ensures Together(c, m, parts, s')
    ensures Abstract(c, m, parts, s') == Abstract(c, m, parts, s)
  {
    hide PipeFits, Ring.RingInv, Select, Expect, WindowFits, Abstract, Counted, Ring.ReceiveOutput;
    SizesFit(c, parts, s);
    ReceivedIsNext(c, parts, s, s');
    OutputIsExpected(c, m, parts, s, |s.ring.received|);
    Ring.ReceiveKeeps(c.numSlots, s.ring, s'.ring);
    ReceivedShape(c, m, s, s');
    ReceivedAbstract(c, m, parts, s, s');
    ReceivedWindow(c, s, s', Expect(c, m, parts, s.batches, |s.ring.received|).tokens);
  }

  /** What a receive changes. */
  ghost predicate Received(c: Config, s: Ranks, s': Ranks, tokens: seq<Token>)
    requires Shaped(c, s.sched)
  {
    && |s.ring.received| < |s.batches| && s.ring.zero.Receiving?
    && |s'.ring.received| == |s.ring.received| + 1 && Window(s'.ring) == Window(s.ring) && s'.batches == s.batches
    && if s.ring.zero.next == None then
         s'.ring.zero == Ring.Ready && s'.got == s.got && s'.sched == Counted(c, s.sched, tokens)
       else s'.ring.zero.Sending? && s'.got == Some(tokens) && s'.sched == s.sched
  }

  lemma {:induction false} ReceivedShape(c: Config, m: Model, s: Ranks, s': Ranks)
    requires Receive(c, m, s, s') && s.ring.stages[|s.ring.stages| - 1] == Some(|s.ring.received|)
    ensures var b, outs := |s.ring.received|, s.pipe.outs[|s.pipe.outs| - 1];
            && b < |s.batches| && b < |outs| && s'.pipe == s.pipe
            && Received(c, s, s', Select(m, s.batches[b], outs[b]))
  {
    hide Select, Counted;
  }

  lemma {:induction false} ReceivedAbstract(c: Config, m: Model, parts: seq<Store>, s: Ranks, s': Ranks)
    requires Shaped(c, s.sched) && Taken(s) <= |s.batches| && s.got == None && |s.ring.received| < |s.batches|
    requires Received(c, s, s', Expect(c, m, parts, s.batches, |s.ring.received|).tokens)
    ensures Shaped(c, s'.sched) && Taken(s') <= |s'.batches|
    ensures Abstract(c, m, parts, s') == Abstract(c, m, parts, s)
  {
    hide Expect, Counted, Outs, Stages.Immediately, Flat;
  }

  lemma {:induction false} ReceivedWindow(c: Config, s: Ranks, s': Ranks, tokens: seq<Token>)
    requires Shaped(c, s.sched) && Received(c, s, s', tokens) && WindowFits(s)
    ensures Shaped(c, s'.sched) && WindowFits(s')
  {
    hide Counted, Upcoming, Window;
    CountedUpcoming(c, s.sched, tokens);
  }

  /** Counting the tokens of the current slot leaves the others alone. */
  lemma {:induction false} CountedUpcoming(c: Config, s: State, tokens: seq<Token>)
    requires Shaped(c, s)
    ensures var s' := Counted(c, s, tokens); s'.cur == s.cur && Upcoming(s'.slots, s'.cur) == Upcoming(s.slots, s.cur)
  {
    if |tokens| == |s.slots[s.cur]| {
      UpcomingIgnoresCurrent(s.slots, s.cur, Settle(s.slots[s.cur], tokens, s.pool).kept);
    }
  }

  /** Two ranks meet: the second takes exactly the batch it has not worked on yet. */
  lemma {:induction false} NextRuns(c: Config, parts: seq<Store>, s: Ranks, k: nat, pipe: Stages.Pipe)
    requires ValidConfig(c) && PipeFits(c, parts, s)
    requires k + 1 < |s.pipe.outs| && Holding(s, k).Some? && Holding(s, k + 1) == None
    requires pipe == Stages.Run(c, s.batches, s.pipe, k + 1)
    ensures Stages.InStep(c, s.batches, parts, pipe) && |pipe.outs| == |s.pipe.outs|
    ensures |pipe.outs[k + 1]| == |s.pipe.outs[k + 1]| + 1
    ensures forall i :: 0 <= i < |pipe.outs| && i != k + 1 ==> pipe.outs[i] == s.pipe.outs[i]
  {
    assert Linked(s, k) && Linked(s, k + 1);
    Stages.RunKeeps(c, s.batches, parts, s.pipe, k + 1);
    assert |s.pipe.parts| == |s.pipe.outs|;
    assert Stages.CanRun(s.pipe, |s.batches|, k + 1);
    Stages.RunAdvances(c, s.batches, parts, s.pipe, k + 1);
  }

  /** The batch moves on by one rank. */
  lemma {:induction false} LinksMove(c: Config, parts: seq<Store>, s: Ranks, s': Ranks, k: nat)
    requires ValidConfig(c) && PipeFits(c, parts, s) && s'.batches == s.batches
    requires k + 1 < |s.pipe.outs| && Holding(s, k).Some? && Holding(s, k + 1) == None
    requires s'.pipe == Stages.Run(c, s.batches, s.pipe, k + 1)
    requires |s'.ring.stages| == |s.ring.stages| && s'.ring.received == s.ring.received
    requires Holding(s', k) == None && Holding(s', k + 1) == Holding(s, k)
    requires forall i :: 0 <= i <= |s.ring.stages| && i != k && i != k + 1 ==> Holding(s', i) == Holding(s, i)
    ensures PipeFits(c, parts, s')
  {
    hide Stages.InStep, Stages.Run, Holding;
    NextRuns(c, parts, s, k, s'.pipe);
    assert Linked(s, k) && Linked(s, k + 1);
    forall i | 0 <= i < |s.pipe.outs| ensures Linked(s', i) {
      assert Linked(s, i);
    }
  }

  lemma {:induction false} SendKeeps(c: Config, m: Model, parts: seq<Store>, s: Ranks, s': Ranks)
    requires Together(c, m, parts, s) && Send(c, s, s')
    ensures Together(c, m, parts, s')
    ensures Abstract(c, m, parts, s') == Abstract(c, m, parts, s)
  {
    hide PipeFits;
    SizesFit(c, parts, s);
    LinksMove(c, parts, s, s', 0);
    Ring.SendKeeps(c.numSlots, s.ring, s'.ring);
    if s.got.Some? { CountedUpcoming(c, s.sched, s.got.value); }
  }

  lemma {:induction false} SizesFit(c: Config, parts: seq<Store>, s: Ranks)
    requires ValidConfig(c) && PipeFits(c, parts, s)
    ensures |parts| == |s.pipe.outs| == |s.ring.stages| + 1
  {
  }

  lemma {:induction false} PassKeeps(c: Config, m: Model, parts: seq<Store>, s: Ranks, s': Ranks, j: nat)
    requires Together(c, m, parts, s) && Pass(c, s, s', j)
    ensures Together(c, m, parts, s')
    ensures Abstract(c, m, parts, s') == Abstract(c, m, parts, s)
  {
    hide PipeFits, Stages.Run, Ring.RingInv, Expect, Upcoming;
    SizesFit(c, parts, s);
    LinksMove(c, parts, s, s', j + 1);
    Ring.HandedOn(c.numSlots, s.ring, s'.ring, j);
  }

  lemma {:induction false} MeetingKeeps(c: Config, m: Model, parts: seq<Store>, s: Ranks, s': Ranks)
    requires Together(c, m, parts, s) && Meeting(c, m, s, s')
    ensures Together(c, m, parts, s')
    ensures Abstract(c, m, parts, s') == Abstract(c, m, parts, s)
  {
    hide Together, Abstract, Receive, Send, Pass;
    if Receive(c, m, s, s') {
      ReceiveKeeps(c, m, parts, s, s');
    } else if Send(c, s, s') {
      SendKeeps(c, m, parts, s, s');
    } else {
      var j :| Pass(c, s, s', j);
      PassKeeps(c, m, parts, s, s', j);
    }
  }

  lemma {:induction false} SubmitKeepsTogether(c: Config, m: Model, parts: seq<Store>, s: Ranks, s': Ranks, key: Key)
    requires Together(c, m, parts, s) && s' == s.(sched := Submitted(s.sched, key))
    ensures Together(c, m, parts, s')
    ensures var sys := Abstract(c, m, parts, s);
            Abstract(c, m, parts, s') == sys.(sched := Submitted(sys.sched, key))
  {
    hide Ring.RingInv, Expect, Upcoming, Settle;
    assert PipeFits(c, parts, s') by {
      forall k | 0 <= k < |s.pipe.outs| ensures Linked(s', k) { assert Linked(s, k); }
    }
  }

  /** A forward pass of nothing writes nothing. */
  lemma {:induction false} NothingForward(c: Config, store: Store)
    requires ValidConfig(c)
    ensures Forward(c, store, []).0 == store
  {
    NoRows(c, 0, store);
  }

  lemma {:induction false} NoRows(c: Config, l: nat, store: Store)
    requires ValidConfig(c) && l <= |store|
    ensures Layers(c, [], [], l, store, []).0 == store
    decreases |store| - l
  {
    if l < |store| {
      assert store[l := StoreRows(store[l], [], [])] == store;
      assert AttendRows(c, [], store[l], [], []) == [];
      NoRows(c, l + 1, store);
    }
  }

  /** Issuing one more batch changes nothing about the earlier ones. */
  lemma {:induction false} ExpectGrows(c: Config, m: Model, parts: seq<Store>, batches: seq<seq<Req>>, batch: seq<Req>,
                                       n: nat)
    requires ValidConfig(c) && n < |batches|
    ensures Expect(c, m, parts, batches + [batch], n) == Expect(c, m, parts, batches, n)
  {
    hide Stages.Immediately, Infer, Flat;
    Stages.ImmediatelyGrows(c, batches, batch, n, Flat(parts));
    assert (batches + [batch])[n] == batches[n];
  }

  /** The batch just issued, as the engine model computes it. */
  lemma {:induction false} IssuedLast(c: Config, m: Model, parts: seq<Store>, batches: seq<seq<Req>>, batch: seq<Req>)
    requires ValidConfig(c)
    ensures var store, more := Stages.Immediately(c, batches, |batches|, Flat(parts)), batches + [batch];
            var (after, out) := Infer(c, m, store, batch);
            Stages.Immediately(c, more, |more|, Flat(parts)) == after && Expect(c, m, parts, more, |batches|) == out
  {
    hide Forward, Select, Flat;
    Stages.ImmediatelyGrows(c, batches, batch, |batches|, Flat(parts));
    assert (batches + [batch])[|batches|] == batch;
  }

  /** Issuing one more batch: the outputs still to come, and the store when all are computed. */
  lemma {:induction false} IssuedOne(c: Config, m: Model, parts: seq<Store>, batches: seq<seq<Req>>, batch: seq<Req>,
                                     from: nat)
    requires ValidConfig(c) && from <= |batches|
    ensures var store, more := Stages.Immediately(c, batches, |batches|, Flat(parts)), batches + [batch];
            var (after, out) := Infer(c, m, store, batch);
            && Stages.Immediately(c, more, |more|, Flat(parts)) == after
            && Outs(c, m, parts, more, from) == Outs(c, m, parts, batches, from) + [out]
  {
    hide Infer, Stages.Immediately, Flat, Expect;
    IssuedLast(c, m, parts, batches, batch);
    forall n | 0 <= n < |batches|
      ensures Expect(c, m, parts, batches + [batch], n) == Expect(c, m, parts, batches, n)
    {
      ExpectGrows(c, m, parts, batches, batch, n);
    }
  }

  /** The facts about a turn that the refinement needs. */
  ghost predicate TurnFacts(c: Config, m: Model, sys: System, t: State)
  {
    && Shaped(c, sys.sched) && t == Schedule(c, sys.sched) && Shaped(c, t)
    && Snapshot(t.slots[sys.sched.cur]) == t.slots[sys.sched.cur] && Snapshot(t.slots[t.cur]) == t.slots[t.cur]
    && UniformSampling(t.slots[sys.sched.cur])
    && (t.slots[t.cur] != [] ==> sys.pending != [] && |sys.pending[0].tokens| == |t.slots[t.cur]|)
  }

  lemma {:induction false} TurnHas(c: Config, m: Model, sys: System) returns (t: State)
    requires Inv(c, m, sys) && AllAlike(AllKeys(sys.sched)) && c.numSlots > 1
    ensures TurnFacts(c, m, sys, t)
  {
    hide Schedule, Cycle, AllKeys, AllAlike, UniformSampling, Snapshot, Answers, Scheduled;
    assert Shaped(c, sys.sched);
    t := Schedule(c, sys.sched);
    CycleGoes(c, m, sys);
    CycleKeeps(c, m, sys);
    ScheduleKeeps(c, m, sys);
    SnapshotsAreSlots(c, m, t, sys.store, sys.sched.cur, sys.sched.cur);
    SnapshotsAreSlots(c, m, t, sys.store, sys.sched.cur, t.cur);
    OldestAnswersNext(c, m, sys);
    if t.slots[t.cur] != [] { AnswerLength(m, sys.pending[0], t.slots[t.cur]); }
  }

  lemma {:induction false} AnswerLength(m: Model, out: Output, batch: seq<Req>)
    requires Answers(m, out, batch)
    ensures |out.tokens| == |batch|
  {
  }

  /** Rank 0 between two calls. */
  predicate AtReady(c: Config, s: Ranks)
  {
    && Shaped(c, s.sched) && Taken(s) <= |s.batches| && s.ring.zero == Ring.Ready && s.ring.window != []
    && s.got == None && c.numSlots > 1
  }

  lemma {:induction false} ReadyFacts(c: Config, m: Model, parts: seq<Store>, s: Ranks)
    requires Together(c, m, parts, s) && s.ring.zero == Ring.Ready
    ensures AtReady(c, s)
  {
    hide PipeFits, WindowFits;
  }

  /** The beginning of a turn is the whole turn of the engine model. */
  lemma {:induction false} BeginIsCycle(c: Config, m: Model, parts: seq<Store>, s: Ranks, t: State)
    requires AtReady(c, s) && TurnFacts(c, m, Abstract(c, m, parts, s), t)
    ensures Taken(Begun(c, s)) <= |Begun(c, s).batches|
    ensures Cycle(c, m, Abstract(c, m, parts, s)) == Goes(Abstract(c, m, parts, Begun(c, s)))
  {
    hide Cycle, Schedule, Snapshot, UniformSampling, Stages.Run, Update, Infer, Stages.Immediately, Outs,
      AfterForward, Begun;
    var sys, batch := Abstract(c, m, parts, s), t.slots[s.sched.cur];
    var (store, out) := Infer(c, m, sys.store, batch);
    CycleValue(c, m, sys, t, store, out);
    if batch == [] {
      InferNothing(c, m, sys.store);
    } else {
      IssuedOne(c, m, parts, s.batches, batch, Taken(s));
    }
    BegunAbstract(c, m, parts, s, t, store, out);
  }

  lemma {:induction false} InferNothing(c: Config, m: Model, store: Store)
    requires ValidConfig(c)
    ensures Infer(c, m, store, []).0 == store
  {
    NothingForward(c, store);
  }

  lemma {:induction false} BegunAbstract(c: Config, m: Model, parts: seq<Store>, s: Ranks, t: State, store: Store,
                                         out: Output)
    requires AtReady(c, s) && TurnFacts(c, m, Abstract(c, m, parts, s), t)
    requires var sys, batch, more := Abstract(c, m, parts, s), t.slots[s.sched.cur], s.batches + [t.slots[s.sched.cur]];
             if batch == [] then store == sys.store
             else
               && store == Stages.Immediately(c, more, |more|, Flat(parts))
               && Outs(c, m, parts, more, Taken(s)) == sys.pending + [out]
    ensures Taken(Begun(c, s)) <= |Begun(c, s).batches|
    ensures AfterForward(c, Abstract(c, m, parts, s), t, store, out) == Goes(Abstract(c, m, parts, Begun(c, s)))
  {
    hide Schedule, Snapshot, UniformSampling, Stages.Run, Update, Stages.Immediately, Expect;
    var sys, s', from := Abstract(c, m, parts, s), Begun(c, s), |s.ring.received|;
    var batch, sent := t.slots[s.sched.cur], if t.slots[s.sched.cur] == [] then [] else [out];
    assert Outs(c, m, parts, s'.batches, from) == sys.pending + sent;
    if t.slots[t.cur] != [] {
      OutsFirst(c, m, parts, s'.batches, from);
      assert (sys.pending + sent)[1..] == sys.pending[1..] + sent;
    }
  }

  lemma {:induction false} OutsFirst(c: Config, m: Model, parts: seq<Store>, batches: seq<seq<Req>>, from: nat)
    requires ValidConfig(c) && from < |batches|
    ensures var outs := Outs(c, m, parts, batches, from);
            outs[0] == Expect(c, m, parts, batches, from) && outs[1..] == Outs(c, m, parts, batches, from + 1)
  {
    hide Expect;
  }

  /** The call begins as the ring's protocol says: it receives exactly when the call that filled the slot issued. */
  lemma {:induction false} BeginIsRingStep(c: Config, m: Model, parts: seq<Store>, s: Ranks, t: State)
    requires Together(c, m, parts, s) && s.ring.zero == Ring.Ready && TurnFacts(c, m, Abstract(c, m, parts, s), t)
    ensures AtReady(c, s)
    ensures var s' := Begun(c, s);
            && Ring.Begin(s.ring, s'.ring, if t.slots[s.sched.cur] == [] then None else Some(|s.batches|))
            && WindowFits(s')
  {
    hide Abstract, AtReady;
    ReadyFacts(c, m, parts, s);
    BetweenCalls(c, m, parts, s);
    assert WindowFits(s) && |s.sched.slots| == c.numSlots;
    BegunRing(c, s, t, Abstract(c, m, parts, s), m);
  }

  lemma {:induction false} BegunRing(c: Config, s: Ranks, t: State, sys: System, m: Model)
    requires AtReady(c, s) && WindowFits(s) && TurnFacts(c, m, sys, t) && sys.sched == s.sched
    ensures var s' := Begun(c, s);
            && Ring.Begin(s.ring, s'.ring, if t.slots[s.sched.cur] == [] then None else Some(|s.batches|))
            && WindowFits(s')
  {
    hide Stages.Run, Schedule, Snapshot, UniformSampling, Upcoming;
    var batch := t.slots[s.sched.cur];
    CycleShape(c, s.sched);
    var others := UpcomingTurns(s.sched.slots, s.sched.cur, batch);
    WindowMoves(s.ring.window, others, s.sched.slots[t.cur], batch, if batch == [] then None else Some(|s.batches|));
  }

  lemma {:induction false} WindowMoves(window: seq<Option<nat>>, others: seq<seq<Req>>, first: seq<Req>,
                                       batch: seq<Req>, x: Option<nat>)
    requires |window| == 1 + |others| && (x.Some? <==> batch != [])
    requires forall i :: 0 <= i < |window| ==> (window[i].Some? <==> ([first] + others)[i] != [])
    ensures window[0].Some? <==> first != []
    ensures var w := window[1..] + [x];
            |w| == |others| + 1 && forall i :: 0 <= i < |w| ==> (w[i].Some? <==> (others + [batch])[i] != [])
  {
    forall i | 0 <= i < |others| ensures window[1..][i].Some? <==> others[i] != [] {
      assert window[i + 1].Some? <==> ([first] + others)[i + 1] != [];
    }
  }

  lemma {:induction false} BeginKeeps(c: Config, m: Model, parts: seq<Store>, s: Ranks, t: State)
    requires Together(c, m, parts, s) && s.ring.zero == Ring.Ready && TurnFacts(c, m, Abstract(c, m, parts, s), t)
    ensures AtReady(c, s) && Together(c, m, parts, Begun(c, s))
  {
    hide Cycle, Schedule, Snapshot, UniformSampling, Upcoming, WindowFits, Ring.RingInv, PipeFits;
    BeginIsRingStep(c, m, parts, s, t);
    BeginIsCycle(c, m, parts, s, t);
    var s', batch := Begun(c, s), t.slots[s.sched.cur];
    Ring.BeginKeeps(c.numSlots, s.ring, s'.ring, if batch == [] then None else Some(|s.batches|));
    BeginPipe(c, parts, s, s', batch);
  }

  lemma {:induction false} BeginPipe(c: Config, parts: seq<Store>, s: Ranks, s': Ranks, batch: seq<Req>)
    requires ValidConfig(c) && PipeFits(c, parts, s) && Holding(s, 0) == None
    requires s'.batches == if batch == [] then s.batches else s.batches + [batch]
    requires s'.pipe == if batch == [] then s.pipe else Stages.Run(c, s'.batches, s.pipe, 0)
    requires s'.ring.stages == s.ring.stages && s'.ring.received == s.ring.received
    requires Holding(s', 0) == if batch == [] then None else Some(|s.batches|)
    ensures PipeFits(c, parts, s')
  {
    hide Stages.Run;
    assert Linked(s, 0);
    if batch != [] {
      assert |s.pipe.parts| == |s.pipe.outs| && Stages.CanRun(s.pipe, |s'.batches|, 0);
      Stages.InStepGrows(c, s.batches, batch, parts, s.pipe);
      Stages.RunKeeps(c, s'.batches, parts, s.pipe, 0);
      Stages.RunAdvances(c, s'.batches, parts, s.pipe, 0);
    }
    forall k | 0 <= k < |s.pipe.outs| ensures Linked(s', k) {
      assert Linked(s, k);
    }
  }

  /** One step: the ranks stay together, and the engine model takes the step's event, or none. */
  lemma {:induction false} StepKeeps(c: Config, m: Model, parts: seq<Store>, s: Ranks, s': Ranks, e: Option<Event>)
    requires Together(c, m, parts, s) && Step(c, m, s, s', e)
    requires Inv(c, m, Abstract(c, m, parts, s)) && AllAlike(AllKeys(Abstract(c, m, parts, s).sched))
    ensures Together(c, m, parts, s')
    ensures var sys, sys' := Abstract(c, m, parts, s), Abstract(c, m, parts, s');
            match e
            case None => sys' == sys
            case Some(Turn) => Cycle(c, m, sys) == Goes(sys')
            case Some(Submit(key)) => sys' == sys.(sched := Submitted(sys.sched, key))
  {
    match e
    case None => MeetingKeeps(c, m, parts, s, s');
    case Some(Submit(key)) => SubmitKeepsTogether(c, m, parts, s, s', key);
    case Some(Turn) =>
      SeveralSlots(c, m, parts, s);
      var t := TurnHas(c, m, Abstract(c, m, parts, s));
      BeginKeeps(c, m, parts, s, t);
      BeginIsCycle(c, m, parts, s, t);
  }

  lemma {:induction false} SeveralSlots(c: Config, m: Model, parts: seq<Store>, s: Ranks)
    requires Together(c, m, parts, s)
    ensures c.numSlots > 1
  {
  }

  /** The pipeline refines the engine: whatever the ranks' speeds and whenever submissions come, a run of the
      pipeline does what the engine model does with the history of its events. Between two calls of rank 0 its
      scheduler is the engine's, results included. */
  lemma {:induction false} PipelineRefinesEngine(c: Config, m: Model, parts: seq<Store>, run: seq<Ranks>,
                                                 labels: seq<Option<Event>>)
    requires IsRun(c, m, parts, run, labels)
    requires GoodHistory(History(labels)) && AllAlike(Submissions(History(labels)))
    ensures var s, start := run[|labels|], System(run[0].sched, Flat(parts), []);
            && Together(c, m, parts, s) && Initial(c, m, start)
            && Engine.Run(c, m, start, History(labels)) == Goes(Abstract(c, m, parts, s))
            && (s.ring.zero == Ring.Ready ==> Abstract(c, m, parts, s).sched == s.sched)
  {
    var start := System(run[0].sched, Flat(parts), []);
    if labels == [] {
      StartsTogether(c, m, parts, run[0]);
    } else {
      var n := |labels| - 1;
      PrefixRun(c, m, parts, run, labels);
      PrefixHistory(labels);
      PipelineRefinesEngine(c, m, parts, run[..n + 1], labels[..n]);
      assert run[..n + 1][n] == run[n] && run[..n + 1][0] == run[0];
      RunStep(c, m, parts, start, History(labels[..n]), run[n], run[n + 1], labels[n]);
      BetweenCalls(c, m, parts, run[n + 1]);
    }
  }

  /** So what rank 0 has finished between two calls carries the tokens of the plain one-request loop. */
  lemma {:induction false} PipelineDelivers(c: Config, m: Model, parts: seq<Store>, run: seq<Ranks>,
                                            labels: seq<Option<Event>>)
    requires IsRun(c, m, parts, run, labels) && run[|labels|].ring.zero == Ring.Ready
    requires GoodHistory(History(labels)) && AllAlike(Submissions(History(labels)))
    ensures forall r :: r in Flat(run[|labels|].sched.results) ==>
              && KeyOf(r) in Submissions(History(labels)) && KeyOf(r).prompt != []
              && r.generated == Reference(m, KeyOf(r).cfg, KeyOf(r).prompt)
              && IsOutput(m, KeyOf(r).cfg, KeyOf(r).prompt, r.generated)
  {
    hide IsOutput, Together, Abstract, Engine.Run, AllAlike, Initial, BatchesAlike, Reference, KeyOf;
    PipelineRefinesEngine(c, m, parts, run, labels);
    SchedulingTransparency(c, m, System(run[0].sched, Flat(parts), []), History(labels));
  }

  lemma {:induction false} RunStep(c: Config, m: Model, parts: seq<Store>, start: System, history: seq<Event>, s: Ranks,
                                   s': Ranks, e: Option<Event>)
    requires Initial(c, m, start) && GoodHistory(history) && AllAlike(Submissions(history))
    requires Together(c, m, parts, s) && Engine.Run(c, m, start, history) == Goes(Abstract(c, m, parts, s))
    requires Step(c, m, s, s', e)
    ensures Together(c, m, parts, s')
    ensures Engine.Run(c, m, start, history + (if e.Some? then [e.value] else [])) == Goes(Abstract(c, m, parts, s'))
  {
    hide Inv, Together, Abstract, Step, Engine.Run, AllAlike, AllKeys, Cycle, Submitted, BatchesAlike, GoodHistory,
      Submissions;
    RunKeeps(c, m, start, history);
    StepKeeps(c, m, parts, s, s', e);
    if e.Some? {
      OneMoreEvent(c, m, start, history, e.value);
    } else {
      assert history + [] == history;
    }
  }

  lemma {:induction false} BetweenCalls(c: Config, m: Model, parts: seq<Store>, s: Ranks)
    requires Together(c, m, parts, s)
    ensures s.ring.zero == Ring.Ready ==> Abstract(c, m, parts, s).sched == s.sched
  {
    hide PipeFits, WindowFits, Ring.RingInv;
  }

  lemma {:induction false} PrefixRun(c: Config, m: Model, parts: seq<Store>, run: seq<Ranks>,
                                     labels: seq<Option<Event>>)
    requires IsRun(c, m, parts, run, labels) && labels != []
    ensures IsRun(c, m, parts, run[..|labels|], labels[..|labels| - 1])
    ensures Step(c, m, run[|labels| - 1], run[|labels|], labels[|labels| - 1])
  {
    hide Step, Started;
    var n := |labels| - 1;
    assert Step(c, m, run[n], run[n + 1], labels[n]);
    forall i | 0 <= i < n ensures Step(c, m, run[..n + 1][i], run[..n + 1][i + 1], labels[..n][i]) {
      assert Step(c, m, run[i], run[i + 1], labels[i]);
    }
  }

  /** A prefix of a good history of alike requests is one. */
  lemma {:induction false} PrefixHistory(labels: seq<Option<Event>>)
    requires labels != [] && GoodHistory(History(labels)) && AllAlike(Submissions(History(labels)))
    ensures var h := History(labels[..|labels| - 1]);
            && GoodHistory(h) && AllAlike(Submissions(h))
            && History(labels) == h + (if labels[|labels| - 1].Some? then [labels[|labels| - 1].value] else [])
  {
    hide Alike;
    var h, last := History(labels[..|labels| - 1]), labels[|labels| - 1];
    if last.Some? {
      assert (h + [last.value])[..|h|] == h;
      assert forall e :: e in h ==> e in h + [last.value];
      assert Submissions(h) <= Submissions(h + [last.value]);
    } else {
      assert h + [] == h;
    }
  }

  /** No deadlock: while rank 0 is in a call, two ranks can meet. */
  lemma {:induction false} SomeRanksMeet(c: Config, m: Model, parts: seq<Store>, s: Ranks)
    requires Together(c, m, parts, s) && s.ring.zero != Ring.Ready
    ensures exists s' :: Meeting(c, m, s, s')
  {
    hide Ring.RingInv, WindowFits;
    var r := Ring.SomeMeeting(c.numSlots, s.ring);
    if Ring.ReceiveOutput(s.ring, r) {
      LastHasIt(c, parts, s);
      var n := |s.ring.stages|;
      var b := s.ring.stages[n - 1].value;
      var tokens := Select(m, s.batches[b], s.pipe.outs[n][b]);
      var s' := if r.zero == Ring.Ready then s.(ring := r, sched := Counted(c, s.sched, tokens))
                else s.(ring := r, got := Some(tokens));
      assert Receive(c, m, s, s') && Meeting(c, m, s, s');
    } else if Ring.SendFirst(s.ring, r) {
      var s' := s.(ring := r, pipe := Stages.Run(c, s.batches, s.pipe, 1), got := None,
                   sched := if s.got.Some? then Counted(c, s.sched, s.got.value) else s.sched);
      assert Send(c, s, s') && Meeting(c, m, s, s');
    } else {
      var j: nat :| Ring.Hand(s.ring, r, j);
      var s' := s.(ring := r, pipe := Stages.Run(c, s.batches, s.pipe, j + 2));
      assert Pass(c, s, s', j) && Meeting(c, m, s, s');
    }
  }

  lemma {:induction false} LastHasIt(c: Config, parts: seq<Store>, s: Ranks)
    requires ValidConfig(c) && PipeFits(c, parts, s) && s.ring.stages != []
    requires s.ring.stages[|s.ring.stages| - 1].Some?
    ensures s.ring.stages[|s.ring.stages| - 1].value < |s.pipe.outs[|s.ring.stages|]|
    ensures |s.pipe.outs[|s.ring.stages|]| <= |s.batches|
  {
    var n := |s.ring.stages|;
    assert Linked(s, n) && Holding(s, n) == s.ring.stages[n - 1];
    Stages.InStepAt(c, s.batches, parts, s.pipe, n);
  }

  /** And every meeting brings the call closer to its return. */
  lemma {:induction false} MeetingsEnd(c: Config, m: Model, parts: seq<Store>, s: Ranks, s': Ranks)
    requires Together(c, m, parts, s) && Meeting(c, m, s, s')
    ensures Ring.Work(c.numSlots, s'.ring) < Ring.Work(c.numSlots, s.ring)
  {
    hide PipeFits, WindowFits;
    assert Ring.Internal(s.ring, s'.ring);
    Ring.CallsReturn(c.numSlots, s.ring, s'.ring);
  }
}
