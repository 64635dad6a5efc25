/** Every batch of every run can be packed, finds a captured graph, and is unchanged by its padding. */
module PackedRuns {
  import opened Prelude
  import opened Transformer
  import opened Requests
  import opened Pages
  import opened Cache
  import opened Scheduling
  import opened SchedulingProofs
  import opened Device
  import opened DeviceProofs
  import opened Engine
  import opened Invariants
  import opened PhaseProofs
  import opened EngineProofs
  import opened Runs
  import opened GenContext
  import opened GraphDispatch

  predicate HasNoTokens(starts: seq<int>, i: int, at: int) { 0 <= i < |starts| - 1 && starts[i] == starts[i + 1] == at }

  /** The rows of a padded batch: real ones end at the last position of their request, padded ones have
      no tokens and name a row that exists. */
  lemma {:induction false} PaddedRows(c: Config, batch: seq<Req>, width: nat, g: Context, starts: seq<int>,
                                      last: seq<int>, n: nat)
    requires ValidConfig(c) && Represents(c, batch, width, g) && batch != []
    requires forall i :: 0 <= i < |batch| ==> batch[i].step >= 1
    requires PrefixThen(starts, g.queryStart, n + 1, |g.positions|) && n <= |last|
    requires forall i :: 0 <= i < n ==> last[i] == starts[i + 1] - 1
    ensures forall i :: 0 <= i < n ==> 0 <= last[i] < |g.positions|
    ensures forall i :: |batch| <= i < n ==> HasNoTokens(starts, i, |g.positions|)
    ensures forall i :: 0 <= i < |batch| ==>
              last[i] == g.queryStart[i + 1] - 1 && g.positions[last[i]] == g.contextLens[i] - 1
  {
    assert starts[|batch|] == starts[..|g.queryStart|][|batch|];
    forall i | 0 <= i < |batch|
      ensures last[i] == g.queryStart[i + 1] - 1 && 0 <= last[i] < |g.positions|
      ensures g.positions[last[i]] == g.contextLens[i] - 1
    {
      assert starts[i + 1] == starts[..|g.queryStart|][i + 1];
      SampledRow(c, batch, width, g, i);
    }
    SampledRow(c, batch, width, g, 0);
  }

  /** Every request of every batch can be packed, and fits the block tables if its prompt and longest output,
      the last token left out, fit the model length. */
  lemma {:induction false} BatchesCanBePacked(c: Config, m: Model, sys: System, i: nat, maxModelLen: nat)
    requires Reachable(c, m, sys)
    ensures Shaped(c, sys.sched)
    ensures i < |BatchOf(c, sys)| ==> Batchable(c, BatchOf(c, sys)[i])
    ensures i < |BatchOf(c, sys)| ==>
              var r := BatchOf(c, sys)[i];
              r.promptLen + Longest(r.cfg, r.promptLen) - 1 <= maxModelLen ==>
                |r.blocks| <= CeilDiv(maxModelLen, c.pageSize)
  {
    hide Reachable;
    ReachableKeeps(c, m, sys);
    ShapedBySound(c, m, sys);
    ScheduleKeeps(c, m, sys);
    var s := Schedule(c, sys.sched);
    SnapshotsAreSlots(c, m, s, sys.store, sys.sched.cur, sys.sched.cur);
    if i < |BatchOf(c, sys)| {
      var r := s.slots[sys.sched.cur][i];
      assert Ready(c, m, sys.store, r);
      IssuedHasPages(c, m, s, sys.store, sys.sched.cur, i);
      IssuedIsBatchable(c, m, r);
      if r.promptLen + Longest(r.cfg, r.promptLen) - 1 <= maxModelLen { TableIsWideEnough(c, m, r, maxModelLen); }
    }
  }

  lemma {:induction false} IssuedHasPages(c: Config, m: Model, s: State, store: Store, cur: nat, i: nat)
    requires Scheduled(c, m, s, store, cur) && i < |s.slots[cur]|
    ensures forall a :: 0 <= a < |s.slots[cur][i].blocks| ==> s.slots[cur][i].blocks[a] >= 0
  {
    hide Conserved, Flat;
    var all, pre := Flat(s.slots), |Flat(s.slots[..cur])|;
    assert Conserved(c, s.pool, Owned(all)) && Shaped(c, s);
    InFlat(s.slots, cur, i);
    forall a | 0 <= a < |s.slots[cur][i].blocks| ensures s.slots[cur][i].blocks[a] >= 0 {
      OwnedPage(c, s.pool, all, pre + i, a);
    }
  }

  lemma {:induction false} InFlat(slots: seq<seq<Req>>, k: nat, i: nat)
    requires k < |slots| && i < |slots[k]|
    ensures |Flat(slots[..k])| + i < |Flat(slots)| && Flat(slots)[|Flat(slots[..k])| + i] == slots[k][i]
  {
    assert slots == slots[..k] + ([slots[k]] + slots[k + 1..]);
    FlatConcat(slots[..k], [slots[k]] + slots[k + 1..]);
    FlatConcat([slots[k]], slots[k + 1..]);
    FlatSingle(slots[k]);
  }

  /** Every non-empty batch of every run finds a captured graph of less than twice its tokens. */
  lemma {:induction false} EveryBatchFindsAGraph(c: Config, m: Model, sys: System, sizes: seq<nat>)
    requires Reachable(c, m, sys) && IsCaptureSizes(sizes, c.maxTokens)
    ensures Shaped(c, sys.sched)
    ensures var batch := BatchOf(c, sys);
            batch != [] ==>
              var ds := Descriptors(sizes, c.maxSeqs);
              && Steps(batch) >= 0
              && (exists i :: FirstCover(ds, i, |batch|, Steps(batch)))
              && forall i :: FirstCover(ds, i, |batch|, Steps(batch)) ==> Steps(batch) <= sizes[i] < 2 * Steps(batch)
  {
    hide Reachable, Snapshot, Schedule;
    BatchesFit(c, m, sys);
    var batch := BatchOf(c, sys);
    if batch != [] {
      DispatchCoversTightly(sizes, c.maxTokens, c.maxSeqs, |batch|, Steps(batch));
      var i :| 0 <= i < |sizes| && Covers(Descriptors(sizes, c.maxSeqs)[i], |batch|, Steps(batch));
      var first := EarliestCover(Descriptors(sizes, c.maxSeqs), i, |batch|, Steps(batch));
    }
  }

  lemma {:induction false} EarliestCover(ds: seq<Shape>, i: nat, seqs: nat, tokens: nat) returns (first: nat)
    requires i < |ds| && Covers(ds[i], seqs, tokens)
    ensures FirstCover(ds, first, seqs, tokens)
    decreases i
  {
    if j :| 0 <= j < i && Covers(ds[j], seqs, tokens) {
      first := EarliestCover(ds, j, seqs, tokens);
    } else {
      first := i;
    }
  }
}
