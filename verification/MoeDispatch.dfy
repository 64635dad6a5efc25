/** The fused MoE forward pass of both backends: scatter, per-expert layers, gate, gather. */
module MoeDispatch {
  import opened Prelude
  import opened Gemm
  import opened GroupGemm
  import opened MoeIndex

  /** The flat index of a (token, choice) pair. */
  function Pair(t: nat, i: nat, topk: nat): int { t * topk + i }

  /** `index[t, i]`. */
  function At(index: seq<int>, tokens: nat, topk: nat, t: nat, i: nat): (row: int)
    requires |index| == tokens * topk && t < tokens && i < topk
    ensures row in index
  {
    PairIn(t, i, tokens, topk);
    Pick(index, Pair(t, i, topk))
  }

  function Pick(index: seq<int>, f: int): (row: int)
    requires 0 <= f < |index|
    ensures row == index[f] && row in index
  {
    index[f]
  }

  /** Every pair has a row of its own. */
  ghost predicate Separate(index: seq<int>, tokens: nat, topk: nat, rows: nat)
    requires |index| == tokens * topk
  {
    && (forall t, i :: 0 <= t < tokens && 0 <= i < topk ==> 0 <= At(index, tokens, topk, t, i) < rows)
    && (forall t, i, t', i' | 0 <= t < tokens && 0 <= i < topk && 0 <= t' < tokens && 0 <= i' < topk
          && At(index, tokens, topk, t, i) == At(index, tokens, topk, t', i') :: t' == t && i' == i)
  }

  /** `_moe_scatter_kernel`: one program per token, in any order, each storing its row `topk` times. */
  method Scatter<T(0)>(x: seq<T>, index: seq<int>, topk: nat, programs: seq<nat>) returns (out: array<T>)
    requires |index| == |x| * topk && IsPermutation(index, |index|) && topk > 0
    requires forall t :: t in programs <==> 0 <= t < |x|
    ensures fresh(out) && out.Length == |index|
    ensures forall f :: 0 <= f < |index| ==> 0 <= f / topk < |x| && out[index[f]] == x[f / topk]
  {
    hide At, Pair;
    out := new T[|index|];
    AtIsInjective(index, |x|, topk);
    for k := 0 to |programs|
      invariant fresh(out)
      invariant forall t, i :: 0 <= t < |x| && t in programs[..k] && 0 <= i < topk ==>
        out[At(index, |x|, topk, t, i)] == x[t]
    {
      assert programs[k] in programs;
      StoreToken(x, index, topk, programs[k], out);
      assert programs[..k + 1] == programs[..k] + [programs[k]];
    }
    assert programs[..|programs|] == programs;
    forall f | 0 <= f < |index| ensures 0 <= f / topk < |x| && out[index[f]] == x[f / topk] {
      AtPair(index, |x|, topk, f);
      assert out[At(index, |x|, topk, f / topk, f % topk)] == x[f / topk];
    }
  }

  method StoreToken<T>(x: seq<T>, index: seq<int>, topk: nat, t: nat, out: array<T>)
    requires |index| == |x| * topk && t < |x| && Separate(index, |x|, topk, out.Length)
    modifies out
    ensures forall t', i :: 0 <= t' < |x| && 0 <= i < topk ==>
      out[At(index, |x|, topk, t', i)] == if t' == t then x[t] else old(out[At(index, |x|, topk, t', i)])
  {
    hide At;
    for i := 0 to topk
      invariant forall t', i' :: 0 <= t' < |x| && 0 <= i' < topk ==>
        out[At(index, |x|, topk, t', i')] == if t' == t && i' < i then x[t] else old(out[At(index, |x|, topk, t', i')])
    {
      out[At(index, |x|, topk, t, i)] := x[t];
    }
  }

  lemma {:induction false} PairInRange(t: nat, i: nat, n: nat, topk: nat)
    requires t < n && i < topk
    ensures 0 <= t * topk + i < n * topk
  {
    MulLe(t + 1, n, topk);
    MulLe(0, t, topk);
    assert (t + 1) * topk == t * topk + topk;
  }

  lemma {:induction false} AtPair(index: seq<int>, tokens: nat, topk: nat, f: nat)
    requires |index| == tokens * topk && topk > 0 && f < |index|
    ensures f / topk < tokens && 0 <= f % topk < topk && At(index, tokens, topk, f / topk, f % topk) == index[f]
  {
    if f / topk >= tokens { MulLe(tokens, f / topk, topk); }
  }

  lemma {:induction false} AtIsInjective(index: seq<int>, tokens: nat, topk: nat)
    requires |index| == tokens * topk && IsPermutation(index, |index|)
    ensures Separate(index, tokens, topk, |index|)
  {
    hide Pair;
    forall t, i | 0 <= t < tokens && 0 <= i < topk ensures 0 <= At(index, tokens, topk, t, i) < |index| {
      PairIn(t, i, tokens, topk);
    }
    forall t, i, t', i' | 0 <= t < tokens && 0 <= i < topk && 0 <= t' < tokens && 0 <= i' < topk
                          && At(index, tokens, topk, t, i) == At(index, tokens, topk, t', i')
      ensures t' == t && i' == i
    {
      PairIn(t, i, tokens, topk);
      PairIn(t', i', tokens, topk);
      PairIsInjective(t, i, t', i', topk);
    }
  }

  lemma {:induction false} PairIn(t: nat, i: nat, tokens: nat, topk: nat)
    requires t < tokens && i < topk
    ensures 0 <= Pair(t, i, topk) < tokens * topk
  {
    PairInRange(t, i, tokens, topk);
  }

  lemma {:induction false} PairIsInjective(t: nat, i: nat, t': nat, i': nat, topk: nat)
    requires i < topk && i' < topk && Pair(t, i, topk) == Pair(t', i', topk)
    ensures t == t' && i == i'
  {
    DivModUnique(t, i, t', i', topk);
  }

  /** The sum of a token's rows, in the order k = 0, 1, ... */
  function Sum<T>(zero: T, add: (T, T) -> T, rows: seq<T>): T
  {
    if rows == [] then zero else add(Sum(zero, add, rows[..|rows| - 1]), rows[|rows| - 1])
  }

  /** An addition in which order does not matter. */
  ghost predicate IsCommutative<T(!new)>(add: (T, T) -> T)
  {
    && (forall a, b :: add(a, b) == add(b, a))
    && (forall a, b, c :: add(add(a, b), c) == add(a, add(b, c)))
  }

  lemma {:induction false} Exchange<T(!new)>(add: (T, T) -> T, a: T, b: T, c: T)
    requires IsCommutative(add)
    ensures add(add(a, b), c) == add(add(a, c), b)
  {
    assert add(add(a, b), c) == add(a, add(b, c)) && add(b, c) == add(c, b);
  }

  /** Every row counts once: changing one of them changes the sum by exactly that, and no rows give `zero`. */
  lemma {:induction false} SumCountsEveryRow<T(!new)>(zero: T, add: (T, T) -> T, rows: seq<T>, i: nat, x: T)
    requires IsCommutative(add) && i < |rows|
    ensures add(Sum(zero, add, rows[i := x]), rows[i]) == add(Sum(zero, add, rows), x)
    ensures Sum(zero, add, []) == zero
  {
    hide IsCommutative;
    var n, rows' := |rows| - 1, rows[i := x];
    if i == n {
      assert rows'[..n] == rows[..n];
      Exchange(add, Sum(zero, add, rows[..n]), x, rows[n]);
    } else {
      assert rows'[..n] == rows[..n][i := x];
      SumCountsEveryRow(zero, add, rows[..n], i, x);
      Exchange(add, Sum(zero, add, rows'[..n]), rows[n], rows[i]);
      Exchange(add, Sum(zero, add, rows[..n]), x, rows[n]);
    }
  }

  /** The rows that a token gathers, by choice. */
  function TokenRows<T>(x: seq<T>, index: seq<int>, tokens: nat, topk: nat, t: nat): (rows: seq<T>)
    requires |index| == tokens * topk && t < tokens && forall f :: 0 <= f < |index| ==> 0 <= index[f] < |x|
    ensures |rows| == topk
  {
    seq(topk, i requires 0 <= i < topk => RowAt(x, index, tokens, topk, t, i))
  }

  function RowAt<T>(x: seq<T>, index: seq<int>, tokens: nat, topk: nat, t: nat, i: nat): T
    requires |index| == tokens * topk && t < tokens && i < topk && forall f :: 0 <= f < |index| ==> 0 <= index[f] < |x|
  {
    x[At(index, tokens, topk, t, i)]
  }

  /** `_moe_gather_kernel`: one program per token, adding its `topk` rows in order. */
  method Gather<T(0)>(x: seq<T>, index: seq<int>, tokens: nat, topk: nat, zero: T,
                      add: (T, T) -> T) returns (out: array<T>)
    requires |index| == tokens * topk && forall f :: 0 <= f < |index| ==> 0 <= index[f] < |x|
    ensures fresh(out) && out.Length == tokens
    ensures forall t :: 0 <= t < tokens ==> out[t] == Sum(zero, add, TokenRows(x, index, tokens, topk, t))
  {
    out := new T[tokens];
    for t := 0 to tokens
      invariant fresh(out)
      invariant forall t' :: 0 <= t' < t ==> out[t'] == Sum(zero, add, TokenRows(x, index, tokens, topk, t'))
    {
      var rows := TokenRows(x, index, tokens, topk, t);
      var y := zero;
      for i := 0 to topk
        invariant y == Sum(zero, add, rows[..i])
      {
        assert rows[..i + 1][..i] == rows[..i];
        y := add(y, RowAt(x, index, tokens, topk, t, i));
      }
      assert rows[..topk] == rows;
      out[t] := y;
    }
  }

  /** A token through one weight matrix. */
  function Through<F>(ops: Arith<F>, b: seq<seq<F>>, cols: nat, x: seq<F>): (y: seq<F>)
    requires |x| == |b| && Matrix(b, |b|, cols)
    ensures |y| == cols
  {
    seq(cols, j requires 0 <= j < cols => Fold(ops, x, b, j, |b|))
  }

  predicate Weights<F>(w: seq<seq<seq<F>>>, experts: nat, rows: nat, cols: nat)
  {
    |w| == experts && forall e :: 0 <= e < experts ==> Matrix(w[e], rows, cols)
  }

  function NoActivation<F>(x: F): F { x }

  /** One grouped GEMM of the forward pass: every row goes through the matrix of its own expert. */
  method GroupedRows<F(0,!new)>(ops: Arith<F>, x: seq<seq<F>>, w: seq<seq<seq<F>>>, cu: seq<nat>, g: Grid,
                                order: seq<(nat, nat)>, depth: nat) returns (y: seq<seq<F>>)
    requires PadsK(ops) && ValidGrid(g) && Boundaries(cu, |x|) && Matrix(x, |x|, depth)
    requires Weights(w, |cu| - 1, depth, g.cols) && AllPrograms(order, |w|, g)
    requires forall e: nat :: SegmentLength(cu, e) <= g.maxM
    ensures Matrix(y, |x|, g.cols)
    ensures forall e: nat, row :: InSegment(cu, e, row) && row < |x| ==> y[row] == Through(ops, w[e], g.cols, x[row])
  {
    hide Reach;
    var work := Work(ops, NoActivation, x, w);
    forall e: nat ensures SegmentLength(cu, e) <= Reach(g) { SegmentFits(g, SegmentLength(cu, e)); }
    var c := new F[|x|, g.cols];
    Launch(work, cu, g, order, c);
    y := seq(|x|, row requires 0 <= row < |x| reads c =>
      seq(g.cols, col requires 0 <= col < g.cols reads c => c[row, col]));
    forall e: nat, row | InSegment(cu, e, row) && row < |x| ensures y[row] == Through(ops, w[e], g.cols, x[row]) {
      var z := Through(ops, w[e], g.cols, x[row]);
      assert row - cu[e] < SegmentLength(cu, e) <= Reach(g);
      forall col | 0 <= col < g.cols ensures y[row][col] == z[col] {
        assert c[row, col] == Value(work, e, row, col, g.cols);
      }
    }
  }

  /** The weights and the elementwise steps of one layer. */
  datatype Layer<!F> = Layer(ops: Arith<F>, silu: F -> F, mul: (F, F) -> F, fc11: seq<seq<seq<F>>>,
                             fc12: seq<seq<seq<F>>>, fc2: seq<seq<seq<F>>>, dim: nat, inner: nat)

  ghost predicate ValidLayer<F(!new)>(l: Layer<F>, experts: nat)
  {
    && PadsK(l.ops) && Weights(l.fc11, experts, l.dim, l.inner) && Weights(l.fc12, experts, l.dim, l.inner)
    && Weights(l.fc2, experts, l.inner, l.dim)
  }

  /** `silu(u) * v * gate`, element by element. */
  function Gated<F>(l: Layer<F>, u: seq<F>, v: seq<F>, gate: F): (h: seq<F>)
    requires |u| == |v| == l.inner
    ensures |h| == l.inner
  {
    seq(l.inner, j requires 0 <= j < l.inner => l.mul(l.mul(l.silu(u[j]), v[j]), gate))
  }

  /** What the layer means for one token and one of its choices: all through the chosen expert, with its gate. */
  function Contribution<F(!new)>(l: Layer<F>, experts: nat, e: int, gate: F, x: seq<F>): (y: seq<F>)
    requires ValidLayer(l, experts) && 0 <= e < experts && |x| == l.dim
    ensures |y| == l.dim
  {
    Through(l.ops, l.fc2[e], l.dim,
            Gated(l, Through(l.ops, l.fc11[e], l.inner, x), Through(l.ops, l.fc12[e], l.inner, x), gate))
  }

  /** The same, said of the numbers: between the two layers stands `silu` of the first projection, times the second
      projection, times the gate. */
  ghost predicate IsExpertOutput<F(!new)>(l: Layer<F>, e: int, gate: F, x: seq<F>, y: seq<F>)
    requires 0 <= e < |l.fc11| && ValidLayer(l, |l.fc11|) && |x| == l.dim
  {
    exists h: seq<F> ::
      && |h| == l.inner && |y| == l.dim
      && (forall j :: 0 <= j < l.inner ==>
            var gated := l.mul(l.silu(Fold(l.ops, x, l.fc11[e], j, l.dim)), Fold(l.ops, x, l.fc12[e], j, l.dim));
            h[j] == l.mul(gated, gate))
      && forall k :: 0 <= k < l.dim ==> y[k] == Fold(l.ops, h, l.fc2[e], k, l.inner)
  }

  lemma {:induction false} ContributionIsOutput<F(!new)>(l: Layer<F>, experts: nat, e: int, gate: F, x: seq<F>)
    requires ValidLayer(l, experts) && 0 <= e < experts && |x| == l.dim
    ensures |l.fc11| == experts && IsExpertOutput(l, e, gate, x, Contribution(l, experts, e, gate, x))
  {
    hide Fold, PadsK;
    var h := Gated(l, Through(l.ops, l.fc11[e], l.inner, x), Through(l.ops, l.fc12[e], l.inner, x), gate);
    var y := Contribution(l, experts, e, gate, x);
    assert forall k :: 0 <= k < l.dim ==> y[k] == Fold(l.ops, h, l.fc2[e], k, l.inner);
  }

  /** The routing of a batch: experts and gates of every (token, choice) pair. */
  datatype Routing<!F> = Routing(keys: seq<int>, gates: seq<F>, topk: nat, experts: nat)

  predicate ValidRouting<F>(r: Routing<F>, tokens: nat)
  {
    && r.topk > 0 && |r.keys| == |r.gates| == tokens * r.topk
    && forall f :: 0 <= f < |r.keys| ==> 0 <= r.keys[f] < r.experts
  }

  /** A token's contributions, in the order of its choices. */
  function TokenMeaning<F(!new)>(l: Layer<F>, r: Routing<F>, x: seq<F>, tokens: nat, t: nat): (rows: seq<seq<F>>)
    requires ValidRouting(r, tokens) && ValidLayer(l, r.experts) && t < tokens && |x| == l.dim
    ensures |rows| == r.topk
  {
    seq(r.topk, i requires 0 <= i < r.topk => PairMeaning(l, r, x, tokens, t, i))
  }

  function PairMeaning<F(!new)>(l: Layer<F>, r: Routing<F>, x: seq<F>, tokens: nat, t: nat, i: nat): seq<F>
    requires ValidRouting(r, tokens) && ValidLayer(l, r.experts) && t < tokens && |x| == l.dim && i < r.topk
  {
    PairInRange(t, i, tokens, r.topk);
    var f := Pair(t, i, r.topk);
    Contribution(l, r.experts, r.keys[f], r.gates[f], x)
  }

  /** A token's result: the sum of what the experts of its own choices make of it, each with its own gate. */
  ghost predicate IsMixture<F(!new)>(l: Layer<F>, r: Routing<F>, x: seq<F>, tokens: nat, t: nat, zero: seq<F>,
                                     add: (seq<F>, seq<F>) -> seq<F>, y: seq<F>)
    requires ValidRouting(r, tokens) && ValidLayer(l, r.experts) && t < tokens && |x| == l.dim
  {
    exists rows: seq<seq<F>> ::
      && |rows| == r.topk && y == Sum(zero, add, rows)
      && forall i :: 0 <= i < r.topk ==> IsChoice(l, r, x, tokens, t, i, rows[i])
  }

  ghost predicate IsChoice<F(!new)>(l: Layer<F>, r: Routing<F>, x: seq<F>, tokens: nat, t: nat, i: nat, row: seq<F>)
    requires ValidRouting(r, tokens) && ValidLayer(l, r.experts) && t < tokens && |x| == l.dim && i < r.topk
  {
    PairInRange(t, i, tokens, r.topk);
    IsExpertOutput(l, r.keys[t * r.topk + i], r.gates[t * r.topk + i], x, row)
  }

  lemma {:induction false} MeaningIsMixture<F(!new)>(l: Layer<F>, r: Routing<F>, x: seq<F>, tokens: nat, t: nat,
                                                     zero: seq<F>, add: (seq<F>, seq<F>) -> seq<F>, y: seq<F>)
    requires ValidRouting(r, tokens) && ValidLayer(l, r.experts) && t < tokens && |x| == l.dim
    requires y == Sum(zero, add, TokenMeaning(l, r, x, tokens, t))
    ensures IsMixture(l, r, x, tokens, t, zero, add, y)
  {
    hide IsExpertOutput, Contribution, ValidLayer, Sum;
    var rows := TokenMeaning(l, r, x, tokens, t);
    forall i | 0 <= i < r.topk ensures IsChoice(l, r, x, tokens, t, i, rows[i]) {
      PairInRange(t, i, tokens, r.topk);
      var f := t * r.topk + i;
      ContributionIsOutput(l, r.experts, r.keys[f], r.gates[f], x);
    }
  }

  /** Segment boundaries from the histogram. */
  ghost predicate IsCuSeqlens(keys: seq<int>, experts: nat, cu: seq<nat>)
  {
    |cu| == experts + 1 && forall e :: 0 <= e <= experts ==> cu[e] == SegmentStart(keys, e)
  }

  /** `cu_seqlens_m[1:] = cumsum(splits)`. */
  method CumSum(keys: seq<int>, experts: nat, splits: array<int>) returns (cu: seq<nat>)
    requires splits.Length == experts && forall e :: 0 <= e < experts ==> splits[e] == |Members(keys, e)|
    requires forall f :: 0 <= f < |keys| ==> 0 <= keys[f] < experts
    ensures IsCuSeqlens(keys, experts, cu) && cu[0] == 0 && cu[experts] == |keys|
    ensures forall e, e' :: 0 <= e <= e' <= experts ==> cu[e] <= cu[e']
  {
    assert Below(keys, 0) == {};
    cu := [0];
    for e := 0 to experts
      invariant |cu| == e + 1 && forall e' :: 0 <= e' <= e ==> cu[e'] == SegmentStart(keys, e')
    {
      SegmentsAbut(keys, e);
      cu := cu + [cu[e] + splits[e]];
    }
    EveryPairBelow(keys, experts);
    forall e, e' | 0 <= e <= e' <= experts ensures cu[e] <= cu[e'] { SegmentsAreOrdered(keys, e, e'); }
  }

  lemma {:induction false} EveryPairBelow(keys: seq<int>, experts: nat)
    requires forall f :: 0 <= f < |keys| ==> 0 <= keys[f] < experts
    ensures SegmentStart(keys, experts) == |keys|
  {
    assert Below(keys, experts) == Universe(|keys|);
  }

  /** Every pair's row holds what its own expert and gate make of its own token. */
  ghost predicate RowsHold<F(!new)>(l: Layer<F>, r: Routing<F>, hidden: seq<seq<F>>, scatter: seq<int>, z: seq<seq<F>>)
    requires ValidRouting(r, |hidden|) && ValidLayer(l, r.experts) && Matrix(hidden, |hidden|, l.dim)
  {
    && IsPermutation(scatter, |r.keys|) && |z| == |r.keys|
    && forall f :: 0 <= f < |r.keys| ==> RowHolds(l, r, hidden, scatter, z, f)
  }

  ghost predicate RowHolds<F(!new)>(l: Layer<F>, r: Routing<F>, hidden: seq<seq<F>>, scatter: seq<int>, z: seq<seq<F>>,
                                    f: int)
    requires ValidRouting(r, |hidden|) && ValidLayer(l, r.experts) && Matrix(hidden, |hidden|, l.dim)
    requires IsPermutation(scatter, |r.keys|) && |z| == |r.keys| && 0 <= f < |r.keys|
  {
    && 0 <= f / r.topk < |hidden|
    && z[scatter[f]] == Contribution(l, r.experts, r.keys[f], r.gates[f], hidden[f / r.topk])
  }

  /** `scattered_gate_weight[scatter_index.flatten()] = gate_weights`. */
  method ScatterGates<F(0)>(gates: seq<F>, scatter: seq<int>) returns (out: seq<F>)
    requires IsPermutation(scatter, |gates|)
    ensures |out| == |gates| && forall f :: 0 <= f < |gates| ==> out[scatter[f]] == gates[f]
  {
    var a := new F[|gates|];
    forall f | 0 <= f < |gates| { a[scatter[f]] := gates[f]; }
    out := a[..];
  }

  /** Activation, product and gate of all rows. */
  method GateRows<F(!new)>(l: Layer<F>, u: seq<seq<F>>, v: seq<seq<F>>, gates: seq<F>) returns (h: seq<seq<F>>)
    requires Matrix(u, |gates|, l.inner) && Matrix(v, |gates|, l.inner)
    ensures Matrix(h, |gates|, l.inner)
    ensures forall row :: 0 <= row < |gates| ==> h[row] == Gated(l, u[row], v[row], gates[row])
  {
    h := seq(|gates|, row requires 0 <= row < |gates| => Gated(l, u[row], v[row], gates[row]));
  }

  /** A pair's row lies in the segment of its own expert. */
  lemma {:induction false} PairSegment<F>(r: Routing<F>, tokens: nat, order: seq<int>, scatter: seq<int>, cu: seq<nat>,
                                          f: nat)
    requires ValidRouting(r, tokens) && IsStableArgsort(r.keys, order) && IsArgsort(order, scatter)
    requires IsCuSeqlens(r.keys, r.experts, cu) && f < |r.keys|
    ensures 0 <= scatter[f] < |r.keys| && 0 <= r.keys[f] < r.experts && InSegment(cu, r.keys[f], scatter[f])
  {
    hide SegmentStart, IsStableArgsort, IsArgsort;
    ArgsortFacts(r.keys, order, scatter);
    ScatterIndexIsRank(r.keys, order, scatter, f);
  }

  /** A row that was scattered from the pairs. */
  lemma {:induction false} PairOfRow(scatter: seq<int>, n: nat, row: nat) returns (f: nat)
    requires IsPermutation(scatter, n) && row < n
    ensures f < n && scatter[f] == row
  {
    Onto(scatter, n, row);
    f :| f < n && scatter[f] == row;
  }

  lemma {:induction false} SegmentsWithin(keys: seq<int>, experts: nat, cu: seq<nat>, e: nat)
    requires IsCuSeqlens(keys, experts, cu)
    ensures SegmentLength(cu, e) <= |keys|
  {
    if e < experts {
      SegmentsAbut(keys, e);
      ForwardSegmentsFit(keys, e);
    }
  }

  /** The grids and program orders of the three launches. */
  ghost predicate Launchable<F>(l: Layer<F>, pairs: nat, experts: nat, g1: Grid, g2: Grid, orders: seq<seq<(nat, nat)>>)
  {
    && ValidGrid(g1) && ValidGrid(g2) && g1.maxM == g2.maxM == pairs && g1.cols == l.inner && g2.cols == l.dim
    && |orders| == 3 && AllPrograms(orders[0], experts, g1) && AllPrograms(orders[1], experts, g1)
    && AllPrograms(orders[2], experts, g2)
  }

  /** The expert layers of the first backend on scattered rows: three grouped launches and the gate. */
  method ExpertLayers<F(0,!new)>(l: Layer<F>, experts: nat, x: seq<seq<F>>, gates: seq<F>, cu: seq<nat>, g1: Grid,
                                 g2: Grid, orders: seq<seq<(nat, nat)>>) returns (z: seq<seq<F>>)
    requires ValidLayer(l, experts) && Matrix(x, |gates|, l.dim) && Boundaries(cu, |gates|) && |cu| == experts + 1
    requires Launchable(l, |gates|, experts, g1, g2, orders)
    requires forall e: nat :: SegmentLength(cu, e) <= |gates|
    ensures |z| == |gates|
    ensures forall e: nat, row :: InSegment(cu, e, row) && row < |gates| ==>
              z[row] == Contribution(l, experts, e, gates[row], x[row])
  {
    hide Through, Gated, AllPrograms, SegmentLength, PadsK;
    var u := GroupedRows(l.ops, x, l.fc11, cu, g1, orders[0], l.dim);
    var v := GroupedRows(l.ops, x, l.fc12, cu, g1, orders[1], l.dim);
    var h := GateRows(l, u, v, gates);
    z := GroupedRows(l.ops, h, l.fc2, cu, g2, orders[2], l.inner);
  }

  /** The fused forward pass of the first backend: every token gets the sum, in order, of its own choices'
      contributions, and nothing of any other token. */
  method Forward<F(0,!new)>(l: Layer<F>, r: Routing<F>, hidden: seq<seq<F>>, order: seq<int>, scatter: seq<int>,
                            programs: seq<nat>, g1: Grid, g2: Grid, orders: seq<seq<(nat, nat)>>,
                            zero: seq<F>, add: (seq<F>, seq<F>) -> seq<F>)
    returns (out: array<seq<F>>)
    requires ValidRouting(r, |hidden|) && ValidLayer(l, r.experts) && Matrix(hidden, |hidden|, l.dim)
    requires IsStableArgsort(r.keys, order) && IsArgsort(order, scatter)
    requires forall t :: t in programs <==> 0 <= t < |hidden|
    requires Launchable(l, |r.keys|, r.experts, g1, g2, orders)
    ensures fresh(out) && out.Length == |hidden|
    ensures forall t :: 0 <= t < |hidden| ==> out[t] == Sum(zero, add, TokenMeaning(l, r, hidden[t], |hidden|, t))
    ensures forall t :: 0 <= t < |hidden| ==> IsMixture(l, r, hidden[t], |hidden|, t, zero, add, out[t])
  {
    hide SegmentStart, IsStableArgsort, IsArgsort, IsPermutation, ValidLayer, SegmentLength;
    ArgsortFacts(r.keys, order, scatter);
    var cu := SegmentBoundaries(r.keys, r.experts);
    var scattered := Scatter(hidden, scatter, r.topk, programs);
    var x := scattered[..];
    forall row | 0 <= row < |r.keys| ensures |x[row]| == l.dim {
      var f := PairOfRow(scatter, |r.keys|, row);
    }
    forall e: nat ensures SegmentLength(cu, e) <= |r.keys| { SegmentsWithin(r.keys, r.experts, cu, e); }
    var gates := ScatterGates(r.gates, scatter);
    var z := ExpertLayers(l, r.experts, x, gates, cu, g1, g2, orders);
    forall f: nat | f < |r.keys| ensures RowHolds(l, r, hidden, scatter, z, f) {
      PairSegment(r, |hidden|, order, scatter, cu, f);
      assert x[scatter[f]] == hidden[f / r.topk];
    }
    out := GatherPairs(l, r, hidden, scatter, z, zero, add);
  }

  /** Histogram and cumulative sum. */
  method SegmentBoundaries(keys: seq<int>, experts: nat) returns (cu: seq<nat>)
    requires forall f :: 0 <= f < |keys| ==> 0 <= keys[f] < experts
    ensures IsCuSeqlens(keys, experts, cu) && Boundaries(cu, |keys|)
  {
    var blocks := seq(CeilDiv(|keys|, 1024), b => b);
    BlocksListed(CeilDiv(|keys|, 1024), blocks);
    var splits := Histogram(keys, experts, 1024, blocks);
    cu := CumSum(keys, experts, splits);
  }

  /** The last step of both backends. */
  method GatherPairs<F(0,!new)>(l: Layer<F>, r: Routing<F>, hidden: seq<seq<F>>, scatter: seq<int>, z: seq<seq<F>>,
                                zero: seq<F>, add: (seq<F>, seq<F>) -> seq<F>) returns (out: array<seq<F>>)
    requires ValidRouting(r, |hidden|) && ValidLayer(l, r.experts) && Matrix(hidden, |hidden|, l.dim)
    requires RowsHold(l, r, hidden, scatter, z)
    ensures fresh(out) && out.Length == |hidden|
    ensures forall t :: 0 <= t < |hidden| ==> out[t] == Sum(zero, add, TokenMeaning(l, r, hidden[t], |hidden|, t))
    ensures forall t :: 0 <= t < |hidden| ==> IsMixture(l, r, hidden[t], |hidden|, t, zero, add, out[t])
  {
    out := Gather(z, scatter, |hidden|, r.topk, zero, add);
    forall t | 0 <= t < |hidden|
      ensures TokenRows(z, scatter, |hidden|, r.topk, t) == TokenMeaning(l, r, hidden[t], |hidden|, t)
    {
      RowsAreMeaning(l, r, hidden, scatter, z, t);
    }
    forall t | 0 <= t < |hidden| ensures IsMixture(l, r, hidden[t], |hidden|, t, zero, add, out[t]) {
      MeaningIsMixture(l, r, hidden[t], |hidden|, t, zero, add, out[t]);
    }
  }

  /** What the second backend asks of its GEMM, which is not part of the repository: output row `row` of segment `e`
      is input row `aIdx[row]` through the matrix of expert `e`. */
  method QuackGemm<F(!new)>(ops: Arith<F>, x: seq<seq<F>>, w: seq<seq<seq<F>>>, cu: seq<nat>, aIdx: seq<nat>,
                            depth: nat, cols: nat) returns (y: seq<seq<F>>)
    requires Matrix(x, |x|, depth) && Boundaries(cu, |aIdx|) && Weights(w, |cu| - 1, depth, cols)
    requires forall row :: 0 <= row < |aIdx| ==> aIdx[row] < |x|
    ensures Matrix(y, |aIdx|, cols)
    ensures forall e: nat, row :: InSegment(cu, e, row) && row < |aIdx| ==>
              y[row] == Through(ops, w[e], cols, x[aIdx[row]])
  {
    hide Through;
    y := [];
    for e := 0 to |cu| - 1
      invariant Matrix(y, cu[e], cols)
      invariant forall e': nat, row :: e' < e && InSegment(cu, e', row) && row < |aIdx| ==>
        row < |y| && y[row] == Through(ops, w[e'], cols, x[aIdx[row]])
    {
      SegmentsAscend(cu, |aIdx|, e, e + 1);
      SegmentEnds(cu, |aIdx|, e);
      for row := cu[e] to cu[e + 1]
        invariant Matrix(y, row, cols)
        invariant forall e': nat, row' :: e' < e && InSegment(cu, e', row') && row' < |aIdx| ==>
          row' < |y| && y[row'] == Through(ops, w[e'], cols, x[aIdx[row']])
        invariant forall row' :: cu[e] <= row' < row ==> y[row'] == Through(ops, w[e], cols, x[aIdx[row']])
      {
        y := y + [Through(ops, w[e], cols, x[aIdx[row]])];
      }
    }
  }

  /** The fused forward pass of the second backend: no scattered copy of the tokens, but rows found through
      `A_idx`. It means the same. */
  method QuackForward<F(0,!new)>(l: Layer<F>, r: Routing<F>, hidden: seq<seq<F>>, order: seq<int>, scatter: seq<int>,
                                 zero: seq<F>, add: (seq<F>, seq<F>) -> seq<F>)
    returns (out: array<seq<F>>)
    requires ValidRouting(r, |hidden|) && ValidLayer(l, r.experts) && Matrix(hidden, |hidden|, l.dim)
    requires IsStableArgsort(r.keys, order) && IsArgsort(order, scatter)
    ensures fresh(out) && out.Length == |hidden|
    ensures forall t :: 0 <= t < |hidden| ==> out[t] == Sum(zero, add, TokenMeaning(l, r, hidden[t], |hidden|, t))
    ensures forall t :: 0 <= t < |hidden| ==> IsMixture(l, r, hidden[t], |hidden|, t, zero, add, out[t])
  {
    hide Through, Gated, SegmentStart, IsArgsort;
    ArgsortFacts(r.keys, order, scatter);
    var cu := SegmentBoundaries(r.keys, r.experts);
    forall row | 0 <= row < |order| ensures 0 <= order[row] / r.topk < |hidden| {
      TokenInRange(order[row], |hidden|, r.topk);
    }
    var aIdx: seq<nat> := seq(|order|, row requires 0 <= row < |order| => order[row] / r.topk);
    var u := QuackGemm(l.ops, hidden, l.fc11, cu, aIdx, l.dim, l.inner);
    var v := QuackGemm(l.ops, hidden, l.fc12, cu, aIdx, l.dim, l.inner);
    var gates := ScatterGates(r.gates, scatter);
    var h := GateRows(l, u, v, gates);
    var z := QuackGemm(l.ops, h, l.fc2, cu, seq(|h|, row => row), l.inner, l.dim);
    forall f: nat | f < |r.keys| ensures RowHolds(l, r, hidden, scatter, z, f) {
      PairSegment(r, |hidden|, order, scatter, cu, f);
      TokenAtScatteredRow(r.keys, order, scatter, r.topk, f);
      TokenInRange(f, |hidden|, r.topk);
      assert h[scatter[f]] == Gated(l, u[scatter[f]], v[scatter[f]], r.gates[f]);
    }
    out := GatherPairs(l, r, hidden, scatter, z, zero, add);
  }

  lemma {:induction false} TokenInRange(f: int, tokens: nat, topk: nat)
    requires topk > 0 && 0 <= f < tokens * topk
    ensures 0 <= f / topk < tokens
  {
    QuotientBound(f, topk, tokens);
  }

  lemma {:induction false} ArgsortFacts(keys: seq<int>, order: seq<int>, scatter: seq<int>)
    requires IsStableArgsort(keys, order) && IsArgsort(order, scatter)
    ensures IsPermutation(scatter, |keys|)
  {
  }

  lemma {:induction false} BlocksListed(n: nat, blocks: seq<nat>)
    requires |blocks| == n && forall b :: 0 <= b < n ==> blocks[b] == b
    ensures forall b :: b in blocks <==> 0 <= b < n
    ensures forall i, j :: 0 <= i < j < |blocks| ==> blocks[i] != blocks[j]
  {
    forall b | 0 <= b < n ensures b in blocks { assert blocks[b] == b; }
  }

  lemma {:induction false} RowsAreMeaning<F(!new)>(l: Layer<F>, r: Routing<F>, hidden: seq<seq<F>>,
                                                   scatter: seq<int>, z: seq<seq<F>>, t: nat)
    requires ValidRouting(r, |hidden|) && ValidLayer(l, r.experts) && Matrix(hidden, |hidden|, l.dim)
    requires RowsHold(l, r, hidden, scatter, z) && t < |hidden|
    ensures TokenRows(z, scatter, |hidden|, r.topk, t) == TokenMeaning(l, r, hidden[t], |hidden|, t)
  {
    var a := TokenRows(z, scatter, |hidden|, r.topk, t);
    var b := TokenMeaning(l, r, hidden[t], |hidden|, t);
    forall i | 0 <= i < r.topk ensures a[i] == b[i] {
      PairInRange(t, i, |hidden|, r.topk);
      OwnToken(t, i, r.topk);
      assert RowHolds(l, r, hidden, scatter, z, Pair(t, i, r.topk));
    }
    assert a == b;
  }

  lemma {:induction false} OwnToken(t: nat, i: nat, topk: nat)
    requires i < topk
    ensures (t * topk + i) / topk == t
  {
    DivModUnique((t * topk + i) / topk, (t * topk + i) % topk, t, i, topk);
  }
}
