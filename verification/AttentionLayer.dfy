/**
 The kernel and the model of a layer. What the engine model calls a layer's result, a term over the row's own state and
 the states of all positions up to its own, is all that the kernel's result depends on.
 */
module AttentionLayer {
  import opened Prelude
  import opened Transformer
  import opened Requests
  import opened Pages
  import opened Device
  import A = Attention
  import opened AttentionKernel

  /** The rows of a projection of the cached states, slot by slot. */
  ghost predicate Projects<F>(cache: seq<seq<F>>, layer: seq<Hidden>, proj: Hidden -> seq<F>)
  {
    |cache| == |layer| && forall slot :: 0 <= slot < |layer| ==> cache[slot] == proj(layer[slot])
  }

  /** Keys and values projected from a list of states. */
  function FromStates<F>(states: seq<Hidden>, key: Hidden -> seq<F>, value: Hidden -> seq<F>): A.Source<F>
  {
    A.Source(n => if 0 <= n < |states| then key(states[n]) else [],
             n => if 0 <= n < |states| then value(states[n]) else [], |states|)
  }

  /** The kernel reads a position from the slot in which the engine's store kernel wrote it. */
  lemma {:induction false} SameSlot<F>(launch: Launch<F>, c: Config, blocks: seq<int>, i: nat, n: nat)
    requires ValidConfig(c) && launch.Valid() && i < |launch.used| && launch.pageSize == c.pageSize
    requires launch.table[i] == blocks
    ensures launch.SlotOf(i, n) == Slot(c, blocks, n)
  {
  }

  /** A launch over the projections of a layer's cache computes for a row at position `p` a function of the row's own
      query and of the states that the model's layer attends to, whatever else the cache holds. */
  lemma {:induction false} KernelIsLayer<F(!new)>(ops: A.Ops<F>, launch: Launch<F>, s: A.Shape, c: Config,
                                                  layer: seq<Hidden>, blocks: seq<int>, key: Hidden -> seq<F>,
                                                  value: Hidden -> seq<F>, i: nat, p: nat, h: Hidden, q: seq<F>)
    requires ValidConfig(c) && A.ValidShape(s) && A.IgnoresWeightless(ops)
    requires launch.Valid() && i < |launch.used| && p < launch.used[i] && launch.pageSize == c.pageSize
    requires launch.table[i] == blocks
    requires Projects(launch.keys, layer, key) && Projects(launch.values, layer, value)
    requires forall n :: 0 <= n <= p ==> 0 <= Slot(c, blocks, n) < |layer|
    ensures var term := Attend(c, layer, blocks, p, h);
            && term.Layer? && term.self == h && p < |term.context|
            && A.Row(ops, q, launch.SourceOf(i), s, p) == A.Row(ops, q, FromStates(term.context, key, value), s, p)
  {
    hide A.Row, A.IgnoresWeightless, A.ValidShape, Slot;
    var states := Attend(c, layer, blocks, p, h).context;
    var a, b := launch.SourceOf(i), FromStates(states, key, value);
    forall n: nat | n <= p ensures a.key(n) == b.key(n) && a.value(n) == b.value(n) {
      SameSlot(launch, c, blocks, i, n);
      assert states[n] == layer[Slot(c, blocks, n)];
    }
    A.RowInvariance(ops, q, a, b, s, p);
  }
}
