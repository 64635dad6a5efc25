/** The promises of the engine, over every history of submissions and turns. */
module Runs {
  import opened Prelude
  import opened Transformer
  import opened Requests
  import opened Pages
  import opened Cache
  import opened Scheduling
  import opened SchedulingProofs
  import opened Device
  import opened DeviceProofs
  import opened Engine
  import opened Invariants
  import opened PhaseProofs
  import opened EngineProofs

  /** What has been submitted. */
  ghost function Submissions(history: seq<Event>): multiset<Key>
  {
    if history == [] then multiset{}
    else
      Submissions(history[..|history| - 1]) +
      (if history[|history| - 1].Submit? then multiset{history[|history| - 1].key} else multiset{})
  }

  /** No empty prompt. */
  predicate GoodHistory(history: seq<Event>)
  {
    forall e :: e in history && e.Submit? ==> e.key.prompt != []
  }

  lemma {:induction false} NothingInEmptySlots(slots: seq<seq<Req>>)
    requires forall k :: 0 <= k < |slots| ==> slots[k] == []
    ensures Flat(slots) == [] && NonEmpty(slots) == []
  {
    if slots != [] { NothingInEmptySlots(slots[1..]); }
  }

  lemma {:induction false} InitialHolds(c: Config, m: Model, sys: System)
    requires Initial(c, m, sys)
    ensures Inv(c, m, sys) && AllKeys(sys.sched) == multiset{}
  {
    hide Sound, RestingSlot, FlyingSlot, Aligned, AllKeys, StoreShape, Flat, NonEmpty;
    var slots, cur := sys.sched.slots, sys.sched.cur;
    NothingInEmptySlots(slots);
    NothingInEmptySlots(Upcoming(slots, cur));
    InitialSound(c, m, sys.sched);
    InitialStore(c, m, sys);
    EmptySlotRests(c, m, sys.store);
    EmptySlotFlies(c, m, sys.store);
    NothingAligned(m, Upcoming(slots, cur));
    NoKeys(sys.sched);
  }

  lemma {:induction false} InitialStore(c: Config, m: Model, sys: System)
    requires Initial(c, m, sys)
    ensures StoreShape(c, m, sys.store)
  {
  }

  lemma {:induction false} NothingAligned(m: Model, slots: seq<seq<Req>>)
    requires NonEmpty(slots) == []
    ensures Aligned(m, [], slots)
  {
  }

  lemma {:induction false} NoKeys(s: State)
    requires s.queue == [] && s.results == [] && Flat(s.slots) == []
    ensures AllKeys(s) == multiset{}
  {
  }

  lemma {:induction false} InitialSound(c: Config, m: Model, s: State)
    requires Shaped(c, s) && s.queue == [] && s.results == [] && Flat(s.slots) == []
    requires s.pool == Pool(Universe(c.maxBlocks), {})
    ensures Sound(c, m, s)
  {
    hide Waiting, Delivered;
    assert Owned([]) == multiset{};
  }

  lemma {:induction false} EmptySlotFlies(c: Config, m: Model, store: Store)
    requires ValidConfig(c)
    ensures FlyingSlot(c, m, store, [])
  {
  }

  lemma {:induction false} OldestAnswersNext(c: Config, m: Model, sys: System)
    requires Inv(c, m, sys) && c.numSlots > 1
    ensures Shaped(c, sys.sched)
    ensures var s := Schedule(c, sys.sched);
            s.slots[s.cur] != [] ==> sys.pending != [] && Answers(m, sys.pending[0], s.slots[s.cur])
  {
    hide Schedule, Upcoming, Aligned, Answers, Sound, RestingSlot, FlyingSlot, StoreShape;
    ShapedBySound(c, m, sys);
    CycleShape(c, sys.sched);
    var slots, cur := sys.sched.slots, sys.sched.cur;
    var others := UpcomingTurns(slots, cur, []);
    AlignedFirst(m, sys.pending, slots[(cur + 1) % |slots|], others);
  }

  /** Whenever the slot about to be updated is not empty, the output received is the one computed for
      exactly its requests in their order; with one stage it is this cycle's own. */
  lemma {:induction false} OutputMeetsItsBatch(c: Config, m: Model, sys: System)
    requires Reachable(c, m, sys) && c.numSlots > 1
    ensures Shaped(c, sys.sched)
    ensures var s := Schedule(c, sys.sched);
            s.slots[s.cur] != [] ==> sys.pending != [] && sys.pending[0].batch == s.slots[s.cur]
                                     && RightTokens(m, s.slots[s.cur], sys.pending[0].tokens)
  {
    hide Reachable, Schedule, RightTokens, Inv;
    ReachableKeeps(c, m, sys);
    OldestAnswersNext(c, m, sys);
  }

  lemma {:induction false} SubmitKeeps(c: Config, m: Model, sys: System, key: Key)
    requires Inv(c, m, sys) && key.prompt != []
    ensures Inv(c, m, sys.(sched := Submitted(sys.sched, key)))
    ensures AllKeys(Submitted(sys.sched, key)) == AllKeys(sys.sched) + multiset{key}
  {
    hide Fresh, Waiting, RestingSlot, FlyingSlot, Conserved, Delivered, Aligned, StoreShape, Upcoming, AllKeys, Flat,
      Owned;
    FreshWaits(m, key.id, key.cfg, key.prompt);
    SubmitKeys(sys.sched, key);
  }

  lemma {:induction false} SubmitKeys(s: State, key: Key)
    ensures AllKeys(Submitted(s, key)) == AllKeys(s) + multiset{key}
  {
    hide Gather, Flat;
    var r := Fresh(key.id, key.cfg, key.prompt);
    assert KeyOf(r) == key by { assert key.prompt[..|key.prompt|] == key.prompt; }
    GatherConcat(KeyBag, s.queue, [r]);
    GatherSingle(KeyBag, r);
    RotateBag(multiset{key}, Keys(Flat(s.slots)), Keys(Flat(s.results)));
  }

  /** Every turn of the history so far has had a batch that can be sampled together. */
  ghost predicate BatchesAlike(c: Config, m: Model, start: System, history: seq<Event>)
    requires Shaped(c, start.sched)
  {
    history == [] ||
    var h, o := history[..|history| - 1], Run(c, m, start, history[..|history| - 1]);
    && BatchesAlike(c, m, start, h)
    && (history[|history| - 1].Turn? && o.Goes? ==> UniformSampling(BatchOf(c, o.sys)))
  }

  /** Every run goes on exactly while its batches can be sampled together; it keeps the invariant and knows exactly
      the submitted requests. */
  lemma {:induction false} RunKeeps(c: Config, m: Model, start: System, history: seq<Event>)
    requires Initial(c, m, start) && GoodHistory(history)
    ensures var o := Run(c, m, start, history);
            && (o.Goes? <==> BatchesAlike(c, m, start, history))
            && (o.Goes? ==> Inv(c, m, o.sys) && AllKeys(o.sys.sched) == Submissions(history))
  {
    if history == [] {
      InitialHolds(c, m, start);
    } else {
      RunKeeps(c, m, start, history[..|history| - 1]);
      var before := Run(c, m, start, history[..|history| - 1]);
      if before.Goes? {
        match history[|history| - 1]
        case Submit(key) => SubmitKeeps(c, m, before.sys, key);
        case Turn => CycleKeeps(c, m, before.sys);
      }
    }
  }

  /** When all submitted requests may share a batch, no history stops the engine. */
  lemma {:induction false} RunGoes(c: Config, m: Model, start: System, history: seq<Event>)
    requires Initial(c, m, start) && GoodHistory(history) && AllAlike(Submissions(history))
    ensures Run(c, m, start, history).Goes?
  {
    if history != [] {
      var h := history[..|history| - 1];
      RunGoes(c, m, start, h);
      RunKeeps(c, m, start, h);
      if history[|history| - 1].Turn? { CycleGoes(c, m, Run(c, m, start, h).sys); }
    }
  }

  /** A request of one token enters a slot when there is a page, a token and a sequence left for it. */
  lemma {:induction false} HeadOfOneToken(c: Config, w: Work, seqs: int) returns (w': Work)
    requires ValidConfig(c) && w.budget >= 1 && seqs >= 1 && w.queue != [] && |w.pool.free| >= 1
    requires |w.queue[0].input| == 1 && w.queue[0].computed == 0
    ensures Admit(c, w, seqs) == Admit(c, w', seqs - 1)
    ensures |w'.active| == |w.active| + 1 && w'.active[..|w.active|] == w.active
    ensures w'.active[|w.active|].cfg == w.queue[0].cfg && w'.active[|w.active|].status == Running
    ensures w'.queue == w.queue[1..] && w'.budget == w.budget - 1 && |w'.pool.free| >= |w.pool.free| - 1
  {
    hide Allocate, Taken;
    var pages := OnePage(c, w.pool);
    assert Plan(c, w.queue[0], w.budget) == (1, 1);
    var r := w.queue[0].Activate(pages).(step := 1, computed := 1);
    w' := w.(active := w.active + [r], queue := w.queue[1..], pool := Taken(w.pool, pages), budget := w.budget - 1);
  }

  lemma {:induction false} OnePage(c: Config, pool: Pool) returns (pages: seq<int>)
    requires ValidConfig(c) && |pool.free| >= 1
    ensures Allocate(c, pool, 1, 0) == Some(pages) && |Taken(pool, pages).free| >= |pool.free| - 1
  {
    hide Lowest;
    CeilDivUnique(1, c.pageSize, 1);
    pages := Lowest(pool.free, 1);
    var taken := ToSet(pages);
    assert taken == {pages[0]} && pool.free == (pool.free - taken) + taken;
  }

  /** Two requests of one token each meet in the first batch. The engine goes on if and only if they draw tokens
      with the same parameters and, when drawing at random, both with a seed or both without one. */
  lemma {:induction false} UnlikeRequestsStop(c: Config, m: Model, start: System, key: Key, key': Key)
    requires Initial(c, m, start) && c.numSlots == 1 && c.maxTokens >= 2 && c.maxSeqs >= 2 && c.maxBlocks >= 2
    requires |key.prompt| == 1 == |key'.prompt|
    ensures GoodHistory([Submit(key), Submit(key'), Turn])
    ensures Run(c, m, start, [Submit(key), Submit(key'), Turn]) != Stuck
            <==> key.cfg.sampling == key'.cfg.sampling
                 && (key.cfg.sampling.random ==> (key.cfg.seed != None <==> key'.cfg.seed != None))
  {
    hide Run, Cycle, Filled, BatchOf, UniformSampling, Inv, Initial, Submitted, AllKeys;
    var one := start.(sched := Submitted(start.sched, key));
    var sys := one.(sched := Submitted(one.sched, key'));
    InitialHolds(c, m, start);
    SubmitKeeps(c, m, start, key);
    SubmitKeeps(c, m, one, key');
    ShapedBySound(c, m, start);
    ShapedBySound(c, m, sys);
    TwoSubmissions(c, m, start, key, key');
    var batch := FirstPair(c, m, start, key, key');
    PairIsUniform(c, sys, batch);
    CycleKeeps(c, m, sys);
  }

  lemma {:induction false} FirstPair(c: Config, m: Model, start: System, key: Key, key': Key) returns (batch: seq<Req>)
    requires Initial(c, m, start) && c.numSlots == 1 && c.maxTokens >= 2 && c.maxSeqs >= 2 && c.maxBlocks >= 2
    requires |key.prompt| == 1 == |key'.prompt|
    ensures Shaped(c, start.sched) && Filled(c, Submitted(Submitted(start.sched, key), key')).active == batch
    ensures |batch| == 2 && batch[0].cfg == key.cfg && batch[1].cfg == key'.cfg
    ensures batch[0].status == batch[1].status == Running
  {
    hide OtherInflight, Admit;
    var s := Submitted(Submitted(start.sched, key), key');
    var w := WorkOf(c, s);
    assert PlanAll(c, w) == w && SeqsBudget(c, w, OtherInflight(s)) == c.maxSeqs;
    assert w.queue == [Fresh(key.id, key.cfg, key.prompt), Fresh(key'.id, key'.cfg, key'.prompt)];
    var w1 := HeadOfOneToken(c, w, c.maxSeqs);
    var w2 := HeadOfOneToken(c, w1, c.maxSeqs - 1);
    assert w2.queue == [] && |w2.active| == 2 && w2.active[0] == w2.active[..1][0];
    NothingToAdmit(c, w2, c.maxSeqs - 2);
    batch := w2.active;
  }

  lemma {:induction false} NothingToAdmit(c: Config, w: Work, seqs: int)
    requires ValidConfig(c) && w.queue == []
    ensures Admit(c, w, seqs) == w
  {
  }

  lemma {:induction false} PairIsUniform(c: Config, sys: System, batch: seq<Req>)
    requires Shaped(c, sys.sched) && Filled(c, sys.sched).active == batch && |batch| == 2
    requires batch[0].status == batch[1].status == Running
    ensures UniformSampling(BatchOf(c, sys)) <==> Alike(batch[0].cfg, batch[1].cfg)
  {
    hide Filled, Snapshot;
    SnapshotIsSlot(batch);
  }

  lemma {:induction false} TwoSubmissions(c: Config, m: Model, start: System, key: Key, key': Key)
    requires Shaped(c, start.sched)
    ensures Run(c, m, start, [Submit(key), Submit(key'), Turn])
            == Cycle(c, m, start.(sched := Submitted(Submitted(start.sched, key), key')))
  {
    hide Cycle, Submitted;
    var one, two := Submitted(start.sched, key), [Submit(key), Submit(key')];
    assert Run(c, m, start, []) == Goes(start);
    OneMoreEvent(c, m, start, [], Submit(key));
    assert [] + [Submit(key)] == [Submit(key)];
    OneMoreEvent(c, m, start, [Submit(key)], Submit(key'));
    assert [Submit(key)] + [Submit(key')] == two;
    OneMoreEvent(c, m, start, two, Turn);
    assert two + [Turn] == [Submit(key), Submit(key'), Turn];
  }

  /** A state that some run reaches. */
  ghost predicate Reachable(c: Config, m: Model, sys: System)
  {
    exists start, history ::
      Initial(c, m, start) && GoodHistory(history) && Run(c, m, start, history) == Goes(sys)
  }

  /** A submission leads from reachable states to reachable states, and so does a turn, which goes on if and only
      if its batch can be sampled together. */
  lemma {:induction false} ReachableGrows(c: Config, m: Model, sys: System, e: Event)
    requires Reachable(c, m, sys) && (e.Submit? ==> e.key.prompt != [])
    ensures Shaped(c, sys.sched)
    ensures match e
            case Submit(key) => Reachable(c, m, sys.(sched := Submitted(sys.sched, key)))
            case Turn =>
              && (Cycle(c, m, sys).Goes? <==> UniformSampling(BatchOf(c, sys)))
              && (Cycle(c, m, sys).Goes? ==> Reachable(c, m, Cycle(c, m, sys).sys))
  {
    hide Inv, Cycle, Submitted, UniformSampling, BatchOf, Run, GoodHistory, Shaped;
    ReachableKeeps(c, m, sys);
    ShapedBySound(c, m, sys);
    CycleKeeps(c, m, sys);
    var start, history :| Initial(c, m, start) && GoodHistory(history) && Run(c, m, start, history) == Goes(sys);
    GoodHistoryGrows(history, e);
    OneMoreEvent(c, m, start, history, e);
    match e
    case Submit(key) => RunReaches(c, m, start, history + [e], sys.(sched := Submitted(sys.sched, key)));
    case Turn => if Cycle(c, m, sys).Goes? { RunReaches(c, m, start, history + [e], Cycle(c, m, sys).sys); }
  }

  lemma {:induction false} RunReaches(c: Config, m: Model, start: System, history: seq<Event>, sys: System)
    requires Initial(c, m, start) && GoodHistory(history) && Run(c, m, start, history) == Goes(sys)
    ensures Reachable(c, m, sys)
  {
  }

  lemma {:induction false} GoodHistoryGrows(history: seq<Event>, e: Event)
    requires GoodHistory(history) && (e.Submit? ==> e.key.prompt != [])
    ensures GoodHistory(history + [e])
  {
  }

  lemma {:induction false} OneMoreEvent(c: Config, m: Model, start: System, history: seq<Event>, e: Event)
    requires Shaped(c, start.sched) && Run(c, m, start, history).Goes?
    ensures var sys := Run(c, m, start, history).sys;
            Run(c, m, start, history + [e]) ==
            match e
            case Submit(key) => Goes(sys.(sched := Submitted(sys.sched, key)))
            case Turn => Cycle(c, m, sys)
  {
    hide Cycle, Submitted;
    var h := history + [e];
    assert h[..|h| - 1] == history && h[|h| - 1] == e;
  }

  lemma {:induction false} ReachableKeeps(c: Config, m: Model, sys: System)
    requires Reachable(c, m, sys)
    ensures Inv(c, m, sys)
  {
    hide Inv, Run;
    var start, history :| Initial(c, m, start) && GoodHistory(history) && Run(c, m, start, history) == Goes(sys);
    RunKeeps(c, m, start, history);
  }

  /** Scheduling transparency. Whatever else was submitted and whenever, however prefills were
      chunked, whoever was preempted and however many slots there are: the engine goes on exactly while
      its batches can be sampled together, as they always can when all requests are alike. Every finished
      request is one that was submitted, and its tokens are exactly those of the plain one-request loop on
      its own prompt: each is sampled after its own text, and the last is the first that is EOS or reaches a
      limit. No request is lost and none is answered twice. */
  lemma {:induction false} SchedulingTransparency(c: Config, m: Model, start: System, history: seq<Event>)
    requires Initial(c, m, start) && GoodHistory(history)
    ensures Run(c, m, start, history).Goes? <==> BatchesAlike(c, m, start, history)
    ensures AllAlike(Submissions(history)) ==> Run(c, m, start, history).Goes?
    ensures var o := Run(c, m, start, history);
            o.Goes? ==>
              var s := o.sys.sched;
              && Keys(s.queue) + Keys(Flat(s.slots)) + Keys(Flat(s.results)) == Submissions(history)
              && (forall r :: r in Flat(s.results) ==>
                    && KeyOf(r) in Submissions(history) && KeyOf(r).prompt != []
                    && r.generated == Reference(m, KeyOf(r).cfg, KeyOf(r).prompt)
                    && IsOutput(m, KeyOf(r).cfg, KeyOf(r).prompt, r.generated))
  {
    hide AllAlike, BatchesAlike, IsOutput;
    RunKeeps(c, m, start, history);
    if AllAlike(Submissions(history)) { RunGoes(c, m, start, history); }
    if Run(c, m, start, history).Goes? { ResultsAreReferences(c, m, start, history); }
  }

  lemma {:induction false} ResultsAreReferences(c: Config, m: Model, start: System, history: seq<Event>)
    requires Initial(c, m, start) && GoodHistory(history) && Run(c, m, start, history).Goes?
    ensures var s := Run(c, m, start, history).sys.sched;
            && Keys(s.queue) + Keys(Flat(s.slots)) + Keys(Flat(s.results)) == Submissions(history)
            && (forall r :: r in Flat(s.results) ==>
                  && KeyOf(r) in Submissions(history) && KeyOf(r).prompt != []
                  && r.generated == Reference(m, KeyOf(r).cfg, KeyOf(r).prompt)
                  && IsOutput(m, KeyOf(r).cfg, KeyOf(r).prompt, r.generated))
  {
    hide BatchesAlike, IsOutput;
    RunKeeps(c, m, start, history);
    var s := Run(c, m, start, history).sys.sched;
    forall r | r in Flat(s.results)
      ensures KeyOf(r) in Submissions(history) && KeyOf(r).prompt != []
      ensures r.generated == Reference(m, KeyOf(r).cfg, KeyOf(r).prompt)
      ensures IsOutput(m, KeyOf(r).cfg, KeyOf(r).prompt, r.generated)
    {
      var i :| 0 <= i < |Flat(s.results)| && Flat(s.results)[i] == r;
      assert Delivered(m, r);
      GatherContains(KeyBag, Flat(s.results), i);
      assert KeyOf(r) in KeyBag(r);
      ReferenceIsOutput(m, KeyOf(r).cfg, KeyOf(r).prompt, r.generated);
    }
  }

  /** Two engines with the same model, however configured and whatever their histories, give the same
      tokens to requests with the same prompt and configuration. */
  lemma {:induction false} RunsAgree(c: Config, c': Config, m: Model, start: System, start': System,
                                     history: seq<Event>, history': seq<Event>, r: Req, r': Req)
    requires Initial(c, m, start) && GoodHistory(history)
    requires Initial(c', m, start') && GoodHistory(history')
    requires Run(c, m, start, history).Goes? && r in Flat(Run(c, m, start, history).sys.sched.results)
    requires Run(c', m, start', history').Goes? && r' in Flat(Run(c', m, start', history').sys.sched.results)
    requires KeyOf(r).cfg == KeyOf(r').cfg && KeyOf(r).prompt == KeyOf(r').prompt
    ensures r.generated == r'.generated
  {
    hide Run, Initial, Reference, KeyOf, BatchesAlike, AllAlike;
    SchedulingTransparency(c, m, start, history);
    SchedulingTransparency(c', m, start', history');
  }

  /** The paged cache agrees with a contiguous one: for every request in any slot and every position
      it has computed, reading through its block table gives what was computed for the prefix of its
      own text ending there. */
  lemma {:induction false} PagedCacheAgrees(c: Config, m: Model, sys: System, k: nat, i: nat, l: nat, p: nat)
    requires Reachable(c, m, sys)
    requires k < |sys.sched.slots| && i < |sys.sched.slots[k]| && l < m.layers
    requires p < sys.sched.slots[k][i].computed
    ensures var r := sys.sched.slots[k][i];
            && ValidConfig(c) && r.WellFormed() && p < |r.Text()|
            && Read(sys.store, l, Slot(c, r.blocks, p)) == Some(Ideal(l, r.Text()[..p + 1]))
  {
    hide Reachable;
    ReachableKeeps(c, m, sys);
    if k != sys.sched.cur {
      assert FlyingSlot(c, m, sys.store, sys.sched.slots[k]);
    }
    assert Cached(c, m, sys.store, sys.sched.slots[k][i], sys.sched.slots[k][i].computed);
  }

  lemma {:induction false} ShapedBySound(c: Config, m: Model, sys: System)
    requires Inv(c, m, sys)
    ensures Shaped(c, sys.sched) && Conserved(c, sys.sched.pool, Owned(Flat(sys.sched.slots)))
  {
  }

  /** Page conservation: free and allocated pages split the cache; the allocated ones are exactly those
      in the tables of the requests in the slots, each in one table and once. */
  lemma {:induction false} PageConservation(c: Config, m: Model, sys: System)
    requires Reachable(c, m, sys)
    ensures Partition(c, sys.sched.pool)
    ensures forall b :: b in sys.sched.pool.used <==>
              exists i, a :: 0 <= i < |Flat(sys.sched.slots)| && 0 <= a < |Flat(sys.sched.slots)[i].blocks|
                             && Flat(sys.sched.slots)[i].blocks[a] == b
    ensures forall i, a, j, b | 0 <= i < |Flat(sys.sched.slots)| && 0 <= j < |Flat(sys.sched.slots)|
              && 0 <= a < |Flat(sys.sched.slots)[i].blocks| && 0 <= b < |Flat(sys.sched.slots)[j].blocks|
              && Flat(sys.sched.slots)[i].blocks[a] == Flat(sys.sched.slots)[j].blocks[b] :: i == j && a == b
  {
    hide Reachable, Inv, Conserved, Gather;
    ReachableKeeps(c, m, sys);
    ShapedBySound(c, m, sys);
    var all, pool := Flat(sys.sched.slots), sys.sched.pool;
    ConservedPartition(c, pool, Owned(all));
    forall b
      ensures b in pool.used <==> exists i, a :: 0 <= i < |all| && 0 <= a < |all[i].blocks| && all[i].blocks[a] == b
    {
      InSomeTable(all, b);
    }
    forall i, a, j, b | 0 <= i < |all| && 0 <= j < |all| && 0 <= a < |all[i].blocks| && 0 <= b < |all[j].blocks|
                        && all[i].blocks[a] == all[j].blocks[b]
      ensures i == j && a == b
    {
      PageHasOneOwner(c, pool, all, i, a, j, b);
    }
  }

  lemma {:induction false} InSomeTable(all: seq<Req>, b: int)
    ensures b in Owned(all) <==> exists i, a :: 0 <= i < |all| && 0 <= a < |all[i].blocks| && all[i].blocks[a] == b
  {
    if b in Owned(all) {
      var i := TableOf(all, b);
    }
    if i, a :| 0 <= i < |all| && 0 <= a < |all[i].blocks| && all[i].blocks[a] == b {
      GatherContains(BlocksOf, all, i);
      assert b in multiset(all[i].blocks);
      assert BlocksOf(all[i])[b] <= Owned(all)[b];
    }
  }

  lemma {:induction false} TableOf(all: seq<Req>, b: int) returns (i: nat)
    requires b in Owned(all)
    ensures i < |all| && b in all[i].blocks
  {
    if b in multiset(all[0].blocks) {
      i := 0;
    } else {
      i := TableOf(all[1..], b);
      i := i + 1;
    }
  }

  /** Every request in a slot owns exactly the pages of its longer of input and computed positions. */
  lemma {:induction false} OwnsExactlyItsPages(c: Config, m: Model, sys: System, k: nat, i: nat)
    requires Reachable(c, m, sys) && k < |sys.sched.slots| && i < |sys.sched.slots[k]|
    ensures ValidConfig(c)
    ensures var r := sys.sched.slots[k][i]; |r.blocks| == PagesFor(c, Max(|r.input|, r.computed)) >= 1
    ensures var r := sys.sched.slots[k][i];
            (|r.blocks| - 1) * c.pageSize < Max(|r.input|, r.computed) <= |r.blocks| * c.pageSize
  {
    hide Reachable;
    ReachableKeeps(c, m, sys);
    if k != sys.sched.cur {
      assert FlyingSlot(c, m, sys.store, sys.sched.slots[k]);
    }
    var r := sys.sched.slots[k][i];
    assert k != sys.sched.cur ==> Computed(c, m, sys.store, r);
    assert k == sys.sched.cur ==> AtRest(c, m, sys.store, r);
    CeilDivMonotone(1, Max(|r.input|, r.computed), c.pageSize);
    CeilDivUnique(1, c.pageSize, 1);
  }

  /** Every batch that `schedule` emits: at least one token per request, tokens and requests within
      their budgets, and with chunked prefill only its last request in the middle of a prefill. */
  lemma {:induction false} BatchesFit(c: Config, m: Model, sys: System)
    requires Reachable(c, m, sys)
    ensures Shaped(c, sys.sched)
    ensures var batch := Snapshot(Schedule(c, sys.sched).slots[sys.sched.cur]);
            && batch == Schedule(c, sys.sched).slots[sys.sched.cur]
            && |batch| <= c.maxSeqs && |batch| <= Steps(batch) <= c.maxTokens
            && (forall i :: 0 <= i < |batch| ==> 1 <= batch[i].step)
            && (forall i :: 0 <= i < |batch| - 1 ==> !MidPrefill(batch[i]))
            && (!c.chunked ==> forall i :: 0 <= i < |batch| ==> !MidPrefill(batch[i]))
  {
    hide Reachable;
    ReachableKeeps(c, m, sys);
    ShapedBySound(c, m, sys);
    ScheduleKeeps(c, m, sys);
    var s := Schedule(c, sys.sched);
    var batch := s.slots[sys.sched.cur];
    SnapshotsAreSlots(c, m, s, sys.store, sys.sched.cur, sys.sched.cur);
    forall i | 0 <= i < |batch| ensures 1 <= batch[i].step && (!c.chunked ==> !MidPrefill(batch[i])) {
      assert Ready(c, m, sys.store, batch[i]);
    }
    StepsBound(batch);
  }

  /** The writes of a batch are pairwise distinct, in range, and never touch a position that another
      request, in this or any other slot, has computed. */
  lemma {:induction false} BatchWritesAreSafe(c: Config, m: Model, sys: System)
    requires Reachable(c, m, sys)
    ensures Shaped(c, sys.sched)
    ensures var s := Schedule(c, sys.sched);
            var batch := s.slots[sys.sched.cur];
            var rows := Rows(c, batch, |batch|);
            && DistinctSlots(rows)
            && (forall j :: 0 <= j < |rows| ==> 0 <= rows[j].slot < c.maxBlocks * c.pageSize)
            && (forall j, k, i, p :: 0 <= j < |rows| && 0 <= k < |s.slots| && k != sys.sched.cur
                  && 0 <= i < |s.slots[k]| && 0 <= p < s.slots[k][i].computed
                  ==> rows[j].slot != Slot(c, s.slots[k][i].blocks, p))
            && (forall j, i, p :: 0 <= j < |rows| && 0 <= i < |batch| && 0 <= p < Before(batch[i])
                  ==> rows[j].slot != Slot(c, batch[i].blocks, p))
  {
    hide Reachable, Inv, Scheduled, Slot, DistinctSlots, Among;
    ReachableKeeps(c, m, sys);
    ShapedBySound(c, m, sys);
    ScheduleKeeps(c, m, sys);
    var s, cur := Schedule(c, sys.sched), sys.sched.cur;
    BatchIsAmong(c, m, s, sys.store, cur);
    var batch := s.slots[cur];
    var all, pre := Flat(s.slots), |Flat(s.slots[..cur])|;
    BatchWritesAreDistinct(c, m, sys.store, batch, all, pre);
    var rows := Rows(c, batch, |batch|);
    forall j, k, i, p | 0 <= j < |rows| && 0 <= k < |s.slots| && k != cur
                        && 0 <= i < |s.slots[k]| && 0 <= p < s.slots[k][i].computed
      ensures rows[j].slot != Slot(c, s.slots[k][i].blocks, p)
    {
      WritesSpareOthers(c, m, s, sys.store, cur, k, i, p);
    }
    forall j, i, p | 0 <= j < |rows| && 0 <= i < |batch| && 0 <= p < Before(batch[i])
      ensures rows[j].slot != Slot(c, batch[i].blocks, p)
    {
      BatchIsReady(c, m, sys.store, batch, all, pre, i);
      EarlierIsUntouched(c, m, sys.store, batch, all, pre, i, p, j);
    }
  }

  lemma {:induction false} WritesSpareOthers(c: Config, m: Model, s: State, store: Store, cur: nat, k: nat, i: nat,
                                             p: int)
    requires Scheduled(c, m, s, store, cur)
    requires k < |s.slots| && k != cur && i < |s.slots[k]| && 0 <= p < s.slots[k][i].computed
    ensures forall j :: 0 <= j < |Rows(c, s.slots[cur], |s.slots[cur]|)| ==>
              Rows(c, s.slots[cur], |s.slots[cur]|)[j].slot != Slot(c, s.slots[k][i].blocks, p)
  {
    hide Among, Conserved, Issued, Slot, PageAt, Flat, Rows, SlotBudget;
    assert FlyingSlot(c, m, store, s.slots[k]) && Shaped(c, s) && Conserved(c, s.pool, Owned(Flat(s.slots)));
    BatchIsAmong(c, m, s, store, cur);
    assert Computed(c, m, store, s.slots[k][i]);
    var at := OtherPlace(s.slots, cur, k, i);
    CoveredHasPage(c, s.pool, Flat(s.slots), at, s.slots[k][i].computed);
    OtherIsUntouched(c, m, store, s.slots[cur], Flat(s.slots), |Flat(s.slots[..cur])|, at, p);
  }

  /** Number of turns in a history. */
  function Turns(history: seq<Event>): nat
  {
    if history == [] then 0
    else Turns(history[..|history| - 1]) + (if history[|history| - 1].Turn? then 1 else 0)
  }

  function NextTurn(cur: nat, n: nat): nat
    requires n > 0
  {
    (cur + 1) % n
  }

  lemma {:induction false} CycleMoves(c: Config, m: Model, sys: System)
    requires Shaped(c, sys.sched) && Cycle(c, m, sys).Goes?
    ensures var n, cur := c.numSlots, sys.sched.cur;
            var after := Cycle(c, m, sys).sys.sched;
            && after.cur == NextTurn(cur, n)
            && forall k :: 0 <= k < n && k != cur && k != NextTurn(cur, n) ==> after.slots[k] == sys.sched.slots[k]
  {
    hide Schedule, Infer, Snapshot, Settle;
    CycleShape(c, sys.sched);
  }

  /** The slot whose turn comes `t` turns after the one that follows slot `k`. */
  function TurnSlot(k: nat, t: nat, n: nat): nat
    requires n > 0
  {
    (k + 1 + t) % n
  }

  /** Counting slots around the circle: every other slot has its turn before `k` has it again. */
  lemma {:induction false} TurnSlots(k: nat, t: nat, n: nat)
    requires k < n && t <= n - 2
    ensures TurnSlot(k, t, n) < n && TurnSlot(k, t, n) != k
    ensures NextTurn(TurnSlot(k, t, n), n) == TurnSlot(k, t + 1, n)
    ensures TurnSlot(k, t + 1, n) == k <==> t == n - 2
  {
    Wrap(k + 1 + t, n);
    Wrap(k + 2 + t, n);
    NextSlot(n, (k + 1 + t) % n);
  }

  /** What a slot holds after its turn is still there, request for request, when its outputs come back
      `numSlots - 1` turns later: no field of its requests has changed in between. */
  lemma {:induction false} SlotWaitsForItsOutput(c: Config, m: Model, sys: System, k: nat, history: seq<Event>)
    requires Shaped(c, sys.sched) && k < c.numSlots && Turns(history) <= c.numSlots - 2
    requires sys.sched.cur == TurnSlot(k, 0, c.numSlots)
    requires Run(c, m, sys, history).Goes?
    ensures var after := Run(c, m, sys, history).sys.sched;
            && after.slots[k] == sys.sched.slots[k]
            && after.cur == TurnSlot(k, Turns(history), c.numSlots)
            && (Turns(history) == c.numSlots - 2 ==>
                  Schedule(c, after).cur == k && Schedule(c, after).slots[k] == sys.sched.slots[k])
  {
    hide Run, Schedule, Turns, TurnSlot;
    SlotWaits(c, m, sys, k, history);
    DueAgain(c, sys.sched, Run(c, m, sys, history).sys.sched, k, Turns(history));
  }

  lemma {:induction false} ScheduleMoves(c: Config, s: State)
    requires Shaped(c, s)
    ensures Schedule(c, s).cur == NextTurn(s.cur, c.numSlots)
    ensures c.numSlots > 1 ==> Schedule(c, s).slots[Schedule(c, s).cur] == s.slots[Schedule(c, s).cur]
  {
    hide Schedule;
    CycleShape(c, s);
  }

  lemma {:induction false} DueAgain(c: Config, before: State, s: State, k: nat, t: nat)
    requires WaitsAt(c, before, s, k, t) && t <= c.numSlots - 2
    ensures t == c.numSlots - 2 ==> Schedule(c, s).cur == k && Schedule(c, s).slots[k] == before.slots[k]
  {
    hide Schedule, NextTurn, TurnSlot;
    ScheduleMoves(c, s);
    TurnSlots(k, t, c.numSlots);
  }

  /** Slot `k` holds the same requests as before, and the turn is `t` slots past it. */
  predicate WaitsAt(c: Config, before: State, s: State, k: nat, t: nat)
  {
    && Shaped(c, before) && Shaped(c, s) && k < c.numSlots && s.slots[k] == before.slots[k]
    && s.cur == TurnSlot(k, t, c.numSlots)
  }

  lemma {:induction false} TurnWaits(c: Config, m: Model, before: State, sys: System, k: nat, t: nat)
    requires WaitsAt(c, before, sys.sched, k, t) && t < c.numSlots - 2 && Cycle(c, m, sys).Goes?
    ensures WaitsAt(c, before, Cycle(c, m, sys).sys.sched, k, t + 1)
  {
    hide Cycle, TurnSlot, NextTurn;
    CycleMoves(c, m, sys);
    TurnSlots(k, t, c.numSlots);
  }

  lemma {:induction false} SubmissionWaits(c: Config, before: State, s: State, k: nat, t: nat, key: Key)
    requires WaitsAt(c, before, s, k, t)
    ensures WaitsAt(c, before, Submitted(s, key), k, t)
  {
  }

  lemma {:induction false} SlotWaits(c: Config, m: Model, sys: System, k: nat, history: seq<Event>)
    requires Shaped(c, sys.sched) && WaitsAt(c, sys.sched, sys.sched, k, 0) && Turns(history) <= c.numSlots - 2
    requires Run(c, m, sys, history).Goes?
    ensures WaitsAt(c, sys.sched, Run(c, m, sys, history).sys.sched, k, Turns(history))
  {
    hide Run, Turns, Cycle, WaitsAt, Submitted;
    if history == [] {
      NoEvents(c, m, sys);
    } else {
      LastEvent(c, m, sys, history);
      var h := history[..|history| - 1];
      var before := Run(c, m, sys, h).sys;
      SlotWaits(c, m, sys, k, h);
      match history[|history| - 1]
      case Submit(key) => SubmissionWaits(c, sys.sched, before.sched, k, Turns(h), key);
      case Turn => TurnWaits(c, m, sys.sched, before, k, Turns(h));
    }
  }

  lemma {:induction false} NoEvents(c: Config, m: Model, start: System)
    requires Shaped(c, start.sched)
    ensures Run(c, m, start, []) == Goes(start) && Turns([]) == 0
  {
  }

  lemma {:induction false} LastEvent(c: Config, m: Model, start: System, history: seq<Event>)
    requires Shaped(c, start.sched) && history != [] && Run(c, m, start, history).Goes?
    ensures var h, e := history[..|history| - 1], history[|history| - 1];
            && Run(c, m, start, h).Goes? && Shaped(c, Run(c, m, start, h).sys.sched)
            && Turns(history) == Turns(h) + (if e.Turn? then 1 else 0)
            && Run(c, m, start, history) ==
               match e
               case Submit(key) =>
                 Goes(Run(c, m, start, h).sys.(sched := Submitted(Run(c, m, start, h).sys.sched, key)))
               case Turn => Cycle(c, m, Run(c, m, start, h).sys)
  {
    hide Cycle, Submitted;
  }
}
