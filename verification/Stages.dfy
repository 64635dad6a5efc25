/**
 The pipeline stages, each with the cache of its own layers. A stage takes the next batch whenever the
 stage before it has finished that batch, so different stages work on different batches at once; the
 engine model runs every batch through all layers when it is issued. This module shows that no
 interleaving of the stages can tell the difference.
 */
module Stages {
  import opened Prelude
  import opened Transformer
  import opened Requests
  import opened Pages
  import opened Cache
  import opened Device

  /** The stages' caches, and for each stage what it has handed on, batch by batch. */
  datatype Pipe = Pipe(parts: seq<Store>, outs: seq<seq<seq<Hidden>>>)

  /** What a batch's packed rows enter the first layer with. */
  function Entry(c: Config, batch: seq<Req>): (h: seq<Hidden>)
    requires ValidConfig(c)
    ensures |h| == |Rows(c, batch, |batch|)|
  {
    Embeddings(Rows(c, batch, |batch|))
  }

  /** One batch through the layers of one stage. */
  function StageRun(c: Config, batch: seq<Req>, part: Store, h: seq<Hidden>): (out: (Store, seq<Hidden>))
    requires ValidConfig(c) && |h| == |Rows(c, batch, |batch|)|
    ensures |out.1| == |h|
  {
    OwnersInRange(c, batch);
    Layers(c, batch, Rows(c, batch, |batch|), 0, part, h)
  }

  /** One batch through all stages at once: the caches after it, and what each stage hands on. */
  function Through(c: Config, batch: seq<Req>, parts: seq<Store>, h: seq<Hidden>): (out: (seq<Store>, seq<seq<Hidden>>))
    requires ValidConfig(c) && |h| == |Rows(c, batch, |batch|)|
    ensures |out.0| == |out.1| == |parts|
    ensures forall s :: 0 <= s < |parts| ==> |out.1[s]| == |h|
    decreases |parts|
  {
    if parts == [] then ([], [])
    else
      var (part, h') := StageRun(c, batch, parts[0], h);
      var rest := Through(c, batch, parts[1..], h');
      ([part] + rest.0, [h'] + rest.1)
  }

  /** The caches after the first `n` batches, one batch at a time. */
  function After(c: Config, batches: seq<seq<Req>>, n: nat, parts: seq<Store>): (after: seq<Store>)
    requires ValidConfig(c) && n <= |batches|
    ensures |after| == |parts|
  {
    if n == 0 then parts
    else Through(c, batches[n - 1], After(c, batches, n - 1, parts), Entry(c, batches[n - 1])).0
  }

  /** What stage `s` hands on for batch `n`, one batch at a time. */
  function Handed(c: Config, batches: seq<seq<Req>>, n: nat, s: nat, parts: seq<Store>): (h: seq<Hidden>)
    requires ValidConfig(c) && n < |batches| && s < |parts|
    ensures |h| == |Rows(c, batches[n], |batches[n]|)|
  {
    Through(c, batches[n], After(c, batches, n, parts), Entry(c, batches[n])).1[s]
  }

  /** A stage of a batch run is that stage alone, on what the stage before it handed on. */
  lemma {:induction false} ThroughAt(c: Config, batch: seq<Req>, parts: seq<Store>, h: seq<Hidden>, s: nat)
    requires ValidConfig(c) && |h| == |Rows(c, batch, |batch|)| && s < |parts|
    ensures var out := Through(c, batch, parts, h);
            StageRun(c, batch, parts[s], if s == 0 then h else out.1[s - 1]) == (out.0[s], out.1[s])
  {
    hide StageRun, Rows;
    if s > 0 {
      var h' := StageRun(c, batch, parts[0], h).1;
      ThroughAt(c, batch, parts[1..], h', s - 1);
    }
  }

  /** Stage `s` may work when the stage before it is ahead, or, for the first, when a batch was issued. */
  predicate CanRun(p: Pipe, issued: nat, s: nat)
  {
    s < |p.parts| == |p.outs| && |p.outs[s]| < (if s == 0 then issued else |p.outs[s - 1]|)
  }

  /** Every stage has done what it would have done one batch at a time, as far as it has come. */
  ghost predicate InStep(c: Config, batches: seq<seq<Req>>, start: seq<Store>, p: Pipe)
    requires ValidConfig(c)
  {
    && |p.parts| == |p.outs| == |start|
    && (forall s :: 0 <= s < |p.parts| ==> StageInStep(c, batches, start, p, s))
  }

  ghost predicate StageInStep(c: Config, batches: seq<seq<Req>>, start: seq<Store>, p: Pipe, s: nat)
    requires ValidConfig(c) && s < |p.parts| == |p.outs| == |start|
  {
    && |p.outs[s]| <= |batches|
    && p.parts[s] == After(c, batches, |p.outs[s]|, start)[s]
    && forall n :: 0 <= n < |p.outs[s]| ==> p.outs[s][n] == Handed(c, batches, n, s, start)
  }

  /** What stage `s` takes for batch `n`: the packed rows, or what the stage before it handed on. */
  function Input(c: Config, batches: seq<seq<Req>>, p: Pipe, s: nat, n: nat): seq<Hidden>
    requires ValidConfig(c) && n < |batches| && s < |p.outs| && (s > 0 ==> n < |p.outs[s - 1]|)
  {
    if s == 0 then Entry(c, batches[n]) else p.outs[s - 1][n]
  }

  /** Stage `s` takes its next batch, if there is one and it has the right number of rows. */
  function Run(c: Config, batches: seq<seq<Req>>, p: Pipe, s: nat): Pipe
    requires ValidConfig(c)
  {
    if !CanRun(p, |batches|, s) || |p.outs[s]| >= |batches| then p
    else
      var n := |p.outs[s]|;
      var h := Input(c, batches, p, s, n);
      if |h| != |Rows(c, batches[n], |batches[n]|)| then p
      else
        var (part, h') := StageRun(c, batches[n], p.parts[s], h);
        p.(parts := p.parts[s := part], outs := p.outs[s := p.outs[s] + [h']])
  }

  /** The pipe after its stages have taken steps in the given order. */
  function Execute(c: Config, batches: seq<seq<Req>>, start: seq<Store>, order: seq<nat>): Pipe
    requires ValidConfig(c)
  {
    if order == [] then Pipe(start, seq(|start|, _ => []))
    else Run(c, batches, Execute(c, batches, start, order[..|order| - 1]), order[|order| - 1])
  }

  lemma {:induction false} InputInStep(c: Config, batches: seq<seq<Req>>, start: seq<Store>, p: Pipe, s: nat)
    requires ValidConfig(c) && InStep(c, batches, start, p) && CanRun(p, |batches|, s)
    ensures var n := |p.outs[s]|;
            && n < |batches| && p.parts[s] == After(c, batches, n, start)[s]
            && Input(c, batches, p, s, n)
               == (if s == 0 then Entry(c, batches[n]) else Handed(c, batches, n, s - 1, start))
  {
    assert StageInStep(c, batches, start, p, s);
    if s > 0 { assert StageInStep(c, batches, start, p, s - 1); }
  }

  lemma {:induction false} RunKeeps(c: Config, batches: seq<seq<Req>>, start: seq<Store>, p: Pipe, s: nat)
    requires ValidConfig(c) && InStep(c, batches, start, p)
    ensures InStep(c, batches, start, Run(c, batches, p, s))
  {
    if CanRun(p, |batches|, s) {
      var n := |p.outs[s]|;
      InputInStep(c, batches, start, p, s);
      StageDoes(c, batches, start, n, s);
      StepInStep(c, batches, start, p, s, n);
    }
  }

  lemma {:induction false} OtherStage(c: Config, batches: seq<seq<Req>>, start: seq<Store>, p: Pipe, p': Pipe, k: nat)
    requires ValidConfig(c) && k < |p.parts| == |p.outs| == |start| && |p'.parts| == |p'.outs| == |start|
    requires StageInStep(c, batches, start, p, k) && p'.parts[k] == p.parts[k] && p'.outs[k] == p.outs[k]
    ensures StageInStep(c, batches, start, p', k)
  {
    hide After, Handed;
  }

  lemma {:induction false} OwnStage(c: Config, batches: seq<seq<Req>>, start: seq<Store>, p: Pipe, p': Pipe, s: nat,
                                    n: nat)
    requires ValidConfig(c) && s < |p.parts| == |p.outs| == |start| && |p'.parts| == |p'.outs| == |start|
    requires StageInStep(c, batches, start, p, s) && n == |p.outs[s]| < |batches|
    requires p'.parts[s] == After(c, batches, n + 1, start)[s]
    requires p'.outs[s] == p.outs[s] + [Handed(c, batches, n, s, start)]
    ensures StageInStep(c, batches, start, p', s)
  {
    hide After, Handed;
  }

  /** The state with one more batch done by stage `s`. */
  lemma {:induction false} StepInStep(c: Config, batches: seq<seq<Req>>, start: seq<Store>, p: Pipe, s: nat, n: nat)
    requires ValidConfig(c) && InStep(c, batches, start, p) && s < |start| && n == |p.outs[s]| < |batches|
    ensures InStep(c, batches, start,
                   p.(parts := p.parts[s := After(c, batches, n + 1, start)[s]],
                      outs := p.outs[s := p.outs[s] + [Handed(c, batches, n, s, start)]]))
  {
    hide After, Handed, Rows;
    var part, h := After(c, batches, n + 1, start)[s], Handed(c, batches, n, s, start);
    InStepAt(c, batches, start, p, s);
    var p' := p.(parts := p.parts[s := part], outs := p.outs[s := p.outs[s] + [h]]);
    forall k | 0 <= k < |start| ensures StageInStep(c, batches, start, p', k) {
      InStepAt(c, batches, start, p, k);
      if k == s { OwnStage(c, batches, start, p, p', s, n); } else { OtherStage(c, batches, start, p, p', k); }
    }
    AllInStep(c, batches, start, p');
  }

  lemma {:induction false} StageDoes(c: Config, batches: seq<seq<Req>>, start: seq<Store>, n: nat, s: nat)
    requires ValidConfig(c) && n < |batches| && s < |start|
    ensures var h := if s == 0 then Entry(c, batches[n]) else Handed(c, batches, n, s - 1, start);
            StageRun(c, batches[n], After(c, batches, n, start)[s], h)
            == (After(c, batches, n + 1, start)[s], Handed(c, batches, n, s, start))
  {
    ThroughAt(c, batches[n], After(c, batches, n, start), Entry(c, batches[n]), s);
  }

  lemma {:induction false} InStepAt(c: Config, batches: seq<seq<Req>>, start: seq<Store>, p: Pipe, k: nat)
    requires ValidConfig(c) && InStep(c, batches, start, p) && k < |start|
    ensures |p.parts| == |p.outs| == |start| && StageInStep(c, batches, start, p, k)
  {
  }

  lemma {:induction false} AllInStep(c: Config, batches: seq<seq<Req>>, start: seq<Store>, p: Pipe)
    requires ValidConfig(c) && |p.parts| == |p.outs| == |start|
    requires forall k :: 0 <= k < |start| ==> StageInStep(c, batches, start, p, k)
    ensures InStep(c, batches, start, p)
  {
  }

  lemma {:induction false} ExecuteInStep(c: Config, batches: seq<seq<Req>>, start: seq<Store>, order: seq<nat>)
    requires ValidConfig(c)
    ensures InStep(c, batches, start, Execute(c, batches, start, order))
  {
    if order == [] {
    } else {
      ExecuteInStep(c, batches, start, order[..|order| - 1]);
      RunKeeps(c, batches, start, Execute(c, batches, start, order[..|order| - 1]), order[|order| - 1]);
    }
  }

  /** Running the layers of two stages one after the other is running all of them. */
  lemma {:induction false} LayersSplit(c: Config, batch: seq<Req>, rows: seq<Row>, l: nat, a: Store, b: Store,
                                       h: seq<Hidden>)
    requires ValidConfig(c) && |h| == |rows| && l <= |a|
    requires forall j :: 0 <= j < |rows| ==> rows[j].owner < |batch|
    ensures var (a', h') := Layers(c, batch, rows, l, a, h);
            var (b', h'') := Layers(c, batch, rows, 0, b, h');
            Layers(c, batch, rows, l, a + b, h) == (a' + b', h'')
    decreases |a| - l
  {
    hide StoreRows, AttendRows;
    if l == |a| {
      LayersShift(c, batch, rows, 0, a, b, h);
    } else {
      var layer := StoreRows(a[l], rows, h);
      assert (a + b)[l := layer] == a[l := layer] + b;
      LayersSplit(c, batch, rows, l + 1, a[l := layer], b, AttendRows(c, batch, layer, rows, h));
    }
  }

  /** Layers behind others do not look at them. */
  lemma {:induction false} LayersShift(c: Config, batch: seq<Req>, rows: seq<Row>, l: nat, a: Store, b: Store,
                                       h: seq<Hidden>)
    requires ValidConfig(c) && |h| == |rows| && l <= |b|
    requires forall j :: 0 <= j < |rows| ==> rows[j].owner < |batch|
    ensures var (b', h') := Layers(c, batch, rows, l, b, h);
            Layers(c, batch, rows, |a| + l, a + b, h) == (a + b', h')
    decreases |b| - l
  {
    hide StoreRows, AttendRows;
    if l < |b| {
      var layer := StoreRows(b[l], rows, h);
      assert (a + b)[|a| + l] == b[l] && (a + b)[|a| + l := layer] == a + b[l := layer];
      LayersShift(c, batch, rows, l + 1, a, b[l := layer], AttendRows(c, batch, layer, rows, h));
    }
  }

  /** All stages one after the other are the whole model. */
  lemma {:induction false} ThroughIsWhole(c: Config, batch: seq<Req>, parts: seq<Store>, h: seq<Hidden>)
    requires ValidConfig(c) && |h| == |Rows(c, batch, |batch|)|
    ensures var out := Through(c, batch, parts, h);
            StageRun(c, batch, Flat(parts), h) == (Flat(out.0), if parts == [] then h else out.1[|parts| - 1])
    decreases |parts|
  {
    OwnersInRange(c, batch);
    if parts == [] {
    } else {
      var rows := Rows(c, batch, |batch|);
      var (part, h') := StageRun(c, batch, parts[0], h);
      LayersSplit(c, batch, rows, 0, parts[0], Flat(parts[1..]), h);
      ThroughIsWhole(c, batch, parts[1..], h');
      var rest := Through(c, batch, parts[1..], h');
      assert ([part] + rest.0)[1..] == rest.0;
    }
  }

  /** The whole cache after the first `n` batches, each run through all layers when it is issued. */
  function Immediately(c: Config, batches: seq<seq<Req>>, n: nat, store: Store): Store
    requires ValidConfig(c) && n <= |batches|
  {
    if n == 0 then store else Forward(c, Immediately(c, batches, n - 1, store), batches[n - 1]).0
  }

  lemma {:induction false} AfterIsImmediate(c: Config, batches: seq<seq<Req>>, n: nat, parts: seq<Store>)
    requires ValidConfig(c) && n <= |batches|
    ensures Flat(After(c, batches, n, parts)) == Immediately(c, batches, n, Flat(parts))
  {
    if n > 0 {
      AfterIsImmediate(c, batches, n - 1, parts);
      ThroughIsWhole(c, batches[n - 1], After(c, batches, n - 1, parts), Entry(c, batches[n - 1]));
    }
  }

  /** What the last stage hands on is what the whole model makes of the batch right after all earlier batches. */
  lemma {:induction false} LastHandsOn(c: Config, batches: seq<seq<Req>>, start: seq<Store>, p: Pipe, n: nat)
    requires ValidConfig(c) && start != [] && InStep(c, batches, start, p) && n < |p.outs[|start| - 1]|
    ensures n < |batches|
    ensures p.outs[|start| - 1][n] == Forward(c, Immediately(c, batches, n, Flat(start)), batches[n]).1
  {
    InStepAt(c, batches, start, p, |start| - 1);
    AfterIsImmediate(c, batches, n, start);
    ThroughIsWhole(c, batches[n], After(c, batches, n, start), Entry(c, batches[n]));
  }

  /** The pipeline refines the engine model: in whatever order the stages take their steps, what the last
      stage hands on for a batch is what the whole model makes of it right after all earlier batches; and
      when every stage is done, the caches together are the whole cache. */
  lemma {:induction false} PipelineIsImmediate(c: Config, batches: seq<seq<Req>>, start: seq<Store>, order: seq<nat>)
    requires ValidConfig(c) && start != []
    ensures var p := Execute(c, batches, start, order);
            var last := |start| - 1;
            && |p.parts| == |p.outs| == |start| && |p.outs[last]| <= |batches|
            && (forall n :: 0 <= n < |p.outs[last]| ==>
                  p.outs[last][n] == Forward(c, Immediately(c, batches, n, Flat(start)), batches[n]).1)
            && ((forall s :: 0 <= s < |start| ==> |p.outs[s]| == |batches|) ==>
                  Flat(p.parts) == Immediately(c, batches, |batches|, Flat(start)))
  {
    ExecuteInStep(c, batches, start, order);
    var p, last := Execute(c, batches, start, order), |start| - 1;
    InStepAt(c, batches, start, p, last);
    forall n | 0 <= n < |p.outs[last]|
      ensures p.outs[last][n] == Forward(c, Immediately(c, batches, n, Flat(start)), batches[n]).1
    {
      LastHandsOn(c, batches, start, p, n);
    }
    if forall s :: 0 <= s < |start| ==> |p.outs[s]| == |batches| {
      forall s | 0 <= s < |start| ensures p.parts[s] == After(c, batches, |batches|, start)[s] {
        InStepAt(c, batches, start, p, s);
      }
      assert p.parts == After(c, batches, |batches|, start);
      AfterIsImmediate(c, batches, |batches|, start);
    }
  }

  /** A stage that can run hands on one more batch. */
  lemma {:induction false} RunAdvances(c: Config, batches: seq<seq<Req>>, start: seq<Store>, p: Pipe, s: nat)
    requires ValidConfig(c) && InStep(c, batches, start, p) && CanRun(p, |batches|, s)
    ensures var p' := Run(c, batches, p, s);
            && |p'.outs| == |p.outs| && |p'.parts| == |p.parts|
            && |p'.outs[s]| == |p.outs[s]| + 1
            && forall k :: 0 <= k < |p.outs| && k != s ==> p'.outs[k] == p.outs[k]
  {
    hide InStep, StageRun, Through, After, Input;
    InputInStep(c, batches, start, p, s);
  }

  /** One more batch in the log changes nothing about the earlier ones. */
  lemma {:induction false} AfterGrows(c: Config, batches: seq<seq<Req>>, more: seq<Req>, n: nat, start: seq<Store>)
    requires ValidConfig(c) && n <= |batches|
    ensures After(c, batches + [more], n, start) == After(c, batches, n, start)
  {
    hide Through, Entry;
    if n > 0 { AfterGrows(c, batches, more, n - 1, start); }
  }

  lemma {:induction false} ImmediatelyGrows(c: Config, batches: seq<seq<Req>>, more: seq<Req>, n: nat, store: Store)
    requires ValidConfig(c) && n <= |batches|
    ensures Immediately(c, batches + [more], n, store) == Immediately(c, batches, n, store)
  {
    if n > 0 { ImmediatelyGrows(c, batches, more, n - 1, store); }
  }

  lemma {:induction false} InStepGrows(c: Config, batches: seq<seq<Req>>, more: seq<Req>, start: seq<Store>, p: Pipe)
    requires ValidConfig(c) && InStep(c, batches, start, p)
    ensures InStep(c, batches + [more], start, p)
  {
    forall s | 0 <= s < |start| ensures StageInStep(c, batches + [more], start, p, s) {
      InStepAt(c, batches, start, p, s);
      AfterGrows(c, batches, more, |p.outs[s]|, start);
      forall n | 0 <= n < |p.outs[s]|
        ensures Handed(c, batches + [more], n, s, start) == Handed(c, batches, n, s, start)
      {
        AfterGrows(c, batches, more, n, start);
      }
    }
  }
}
