/** The grouped GEMM: one launch of `ceil(max_M / BLOCK_M) * ceil(N / BLOCK_N)` programs per expert. */
module GroupGemm {
  import opened Prelude
  import opened Swizzle
  import opened MoeIndex
  import opened Gemm

  datatype Grid = Grid(maxM: nat, cols: nat, bm: nat, bn: nat, bk: nat, group: nat)

  predicate ValidGrid(g: Grid) { g.bm > 0 && g.bn > 0 && g.bk > 0 && g.group > 0 }

  function Programs(g: Grid): nat
    requires ValidGrid(g)
  {
    CeilDiv(g.maxM, g.bm) * CeilDiv(g.cols, g.bn)
  }

  /** `get_pid_mn` over the grid of the longest segment. */
  function TileOfProgram(g: Grid, pid: nat): (nat, nat)
    requires ValidGrid(g) && pid < Programs(g)
  {
    ComputePid(pid, CeilDiv(g.maxM, g.bm), CeilDiv(g.cols, g.bn), g.group)
  }

  /** Segment boundaries: `cu[e]` is `cumsum_M[e - 1]`, and 0 for the first. */
  predicate Boundaries(cu: seq<nat>, rows: nat)
  {
    && cu != [] && cu[0] == 0 && cu[|cu| - 1] == rows
    && forall e, e' :: 0 <= e <= e' < |cu| ==> cu[e] <= cu[e']
  }

  /** A row of an expert's segment, and the segment's length. */
  predicate InSegment(cu: seq<nat>, e: nat, row: int) { e + 1 < |cu| && cu[e] <= row < cu[e + 1] }

  function SegmentLength(cu: seq<nat>, e: nat): int { if e + 1 < |cu| then cu[e + 1] as int - cu[e] as int else 0 }

  /** Cells that program `pid` of expert `e` stores. */
  ghost predicate Writes(cu: seq<nat>, g: Grid, e: nat, pid: nat, row: int, col: int)
    requires ValidGrid(g)
  {
    && pid < Programs(g) && InSegment(cu, e, row) && 0 <= col < g.cols
    && InTile(row, cu[e], TileOfProgram(g, pid).0, g.bm) && InTile(col, 0, TileOfProgram(g, pid).1, g.bn)
  }

  /** Place `i` is in tile `m` of the tiles of size `b` that begin at `start`. */
  predicate InTile(i: int, start: int, m: nat, b: nat) { start + m * b <= i < start + m * b + b }

  lemma {:induction false} TileIsQuotient(i: int, start: int, m: nat, b: nat)
    requires b > 0 && start <= i
    ensures InTile(i, start, m, b) <==> (i - start) / b == m
  {
    if InTile(i, start, m, b) { DivModUnique((i - start) / b, (i - start) % b, m, i - start - m * b, b); }
  }

  lemma {:induction false} QuotientBound(i: nat, b: nat, n: nat)
    requires b > 0
    ensures i / b < n <==> i < n * b
  {
    if i / b < n { MulLe(i / b + 1, n, b); } else { MulLe(n, i / b, b); }
  }

  /** Exactly which cells a launch reaches: those of rows below `ceil(max_M / BLOCK_M) * BLOCK_M` of
      their segment, each by exactly one program. */
  lemma {:induction false} CoveredOnce(cu: seq<nat>, g: Grid, e: nat, row: int, col: int) returns (pid: nat)
    requires ValidGrid(g) && InSegment(cu, e, row) && 0 <= col < g.cols
    ensures row - cu[e] < CeilDiv(g.maxM, g.bm) * g.bm ==> Writes(cu, g, e, pid, row, col)
    ensures forall p :: Writes(cu, g, e, p, row, col) ==>
              p == pid && row - cu[e] < CeilDiv(g.maxM, g.bm) * g.bm
  {
    hide ComputePid, TileOf;
    var pm, pn := CeilDiv(g.maxM, g.bm), CeilDiv(g.cols, g.bn);
    var r := row - cu[e];
    QuotientBound(r, g.bm, pm);
    QuotientBound(col, g.bn, pn);
    pid := 0;
    if r < pm * g.bm {
      PidOfTile(r / g.bm, col / g.bn, pm, pn, g.group);
      pid := TileOf(r / g.bm, col / g.bn, pm, pn, g.group);
      TileIsQuotient(row, cu[e], r / g.bm, g.bm);
      TileIsQuotient(col, 0, col / g.bn, g.bn);
    }
    forall p | Writes(cu, g, e, p, row, col) ensures p == pid && r < pm * g.bm {
      PidInRange(p, pm, pn, g.group);
      TileOfPid(p, pm, pn, g.group);
      TileIsQuotient(row, cu[e], TileOfProgram(g, p).0, g.bm);
      TileIsQuotient(col, 0, TileOfProgram(g, p).1, g.bn);
    }
  }

  /** The operands: the rows of all segments, one weight matrix per expert, and an activation. */
  datatype Work<!F> = Work(ops: Arith<F>, act: F -> F, a: seq<seq<F>>, b: seq<seq<seq<F>>>)

  ghost predicate Fits<F(!new)>(w: Work<F>, cu: seq<nat>, g: Grid)
  {
    && PadsK(w.ops) && Boundaries(cu, |w.a|) && |w.b| == |cu| - 1
    && forall e :: 0 <= e < |w.b| ==> Operands(w, e, g.cols)
  }

  predicate Operands<F>(w: Work<F>, e: int, cols: nat)
  {
    0 <= e < |w.b| && Matrix(w.a, |w.a|, |w.b[e]|) && Matrix(w.b[e], |w.b[e]|, cols)
  }

  /** The meaning: the row against the matrix of its own expert, k = 0, 1, ... from zero. */
  function Value<F>(w: Work<F>, e: nat, row: nat, col: nat, cols: nat): F
    requires Operands(w, e, cols) && row < |w.a| && col < cols
  {
    w.act(Cell(w.ops, w.a, w.b[e], row, col))
  }

  /** The activation is applied once, to the finished product. */
  lemma {:induction false} ActivationIsLast<F>(w: Work<F>, e: nat, row: nat, col: nat, cols: nat)
    requires Operands(w, e, cols) && row < |w.a| && col < cols
    ensures Operands(w.(act := x => x), e, cols)
    ensures Value(w, e, row, col, cols) == w.act(Value(w.(act := x => x), e, row, col, cols))
  {
  }

  /** One program: it returns at once when its rows are past the end of the segment; loads wrap around
      inside the segment and the matrix, stores do not. */
  method Program<F(!new)>(w: Work<F>, cu: seq<nat>, g: Grid, e: nat, pid: nat, c: array2<F>)
    requires ValidGrid(g) && Fits(w, cu, g) && c.Length0 == |w.a| && c.Length1 == g.cols
    requires e < |w.b| && pid < Programs(g)
    modifies c
    ensures forall row, col :: 0 <= row < c.Length0 && 0 <= col < c.Length1 ==>
      c[row, col] == if Writes(cu, g, e, pid, row, col) then Value(w, e, row, col, g.cols) else old(c[row, col])
  {
    hide ComputePid, Value;
    assert Operands(w, e, g.cols) && Boundaries(cu, |w.a|);
    var (m, n) := TileOfProgram(g, pid);
    var size := cu[e + 1] - cu[e];
    SegmentsAscend(cu, |w.a|, e, e + 1);
    SegmentEnds(cu, |w.a|, e);
    if m * g.bm >= size {
      return;
    }
    SomeColumns(g, pid);
    StoreBlock(w, cu, g, e, m, n, c);
  }

  lemma {:induction false} SomeColumns(g: Grid, pid: nat)
    requires ValidGrid(g) && pid < Programs(g)
    ensures g.cols > 0
  {
    if g.cols == 0 { CeilDivUnique(0, g.bn, 0); }
  }

  predicate InBlockOf(cu: seq<nat>, g: Grid, e: nat, m: nat, n: nat, row: int, col: int)
    requires e < |cu|
  {
    InTile(row, cu[e], m, g.bm) && InTile(col, 0, n, g.bn)
  }

  /** The masked store of one block. */
  method StoreBlock<F(!new)>(w: Work<F>, cu: seq<nat>, g: Grid, e: nat, m: nat, n: nat, c: array2<F>)
    requires ValidGrid(g) && Fits(w, cu, g) && c.Length0 == |w.a| && c.Length1 == g.cols > 0
    requires e < |w.b| && Operands(w, e, g.cols)
    requires e + 1 < |cu| && cu[e] < cu[e + 1] <= |w.a|
    modifies c
    ensures forall row, col :: 0 <= row < c.Length0 && 0 <= col < c.Length1 ==>
      c[row, col] == if row < cu[e + 1] && InBlockOf(cu, g, e, m, n, row, col) then Value(w, e, row, col, g.cols)
                     else old(c[row, col])
  {
    hide Value, Fits, Operands;
    var start, end := cu[e], cu[e + 1];
    var r0, n0 := start + m * g.bm, n * g.bn;
    for i := 0 to g.bm
      invariant forall row, col :: 0 <= row < c.Length0 && 0 <= col < c.Length1 ==>
        c[row, col] == if row < end && r0 <= row < r0 + i && n0 <= col < n0 + g.bn then Value(w, e, row, col, g.cols)
                       else old(c[row, col])
    {
      for j := 0 to g.bn
        invariant forall row, col :: 0 <= row < c.Length0 && 0 <= col < c.Length1 ==>
          c[row, col] == if row < end && ((r0 <= row < r0 + i && n0 <= col < n0 + g.bn)
                                          || (row == r0 + i && n0 <= col < n0 + j))
                         then Value(w, e, row, col, g.cols) else old(c[row, col])
      {
        var x := Lane(w, cu, g, e, m * g.bm + i, n0 + j);
        if r0 + i < end && n0 + j < g.cols {
          c[r0 + i, n0 + j] := x;
        }
      }
    }
  }

  /** One accumulator lane and the activation. The row and the column wrap around, so a lane past the
      end computes something, but something that is not stored. */
  method Lane<F(!new)>(w: Work<F>, cu: seq<nat>, g: Grid, e: nat, r: nat, col: nat) returns (x: F)
    requires ValidGrid(g) && Fits(w, cu, g) && e < |w.b| && Operands(w, e, g.cols) && g.cols > 0 && cu[e] < cu[e + 1]
    ensures r < cu[e + 1] - cu[e] && col < g.cols ==> cu[e] + r < |w.a| && x == Value(w, e, cu[e] + r, col, g.cols)
  {
    var size := cu[e + 1] - cu[e];
    SegmentsAscend(cu, |w.a|, e, e + 1);
    SegmentEnds(cu, |w.a|, e);
    var row, column := r % size, col % g.cols;
    if r < size { DivModUnique(r / size, r % size, 0, r, size); }
    if col < g.cols { DivModUnique(col / g.cols, col % g.cols, 0, col, g.cols); }
    var acc := Accumulate(w.ops, w.a, w.b[e], g.cols, g.bk, cu[e] + row, column, true);
    x := w.act(acc);
  }

  lemma {:induction false} SegmentEnds(cu: seq<nat>, rows: nat, e: nat)
    requires Boundaries(cu, rows) && e + 1 < |cu|
    ensures cu[e + 1] <= rows
  {
  }

  /** Rows of a segment that a launch reaches. */
  function Reach(g: Grid): nat
    requires ValidGrid(g)
  {
    CeilDiv(g.maxM, g.bm) * g.bm
  }

  /** A segment of at most `max_M` rows is within reach. */
  lemma {:induction false} SegmentFits(g: Grid, size: int)
    requires ValidGrid(g) && size <= g.maxM
    ensures size <= Reach(g)
  {
  }

  /** Some program that was run stores the cell. */
  ghost predicate Stored(order: seq<(nat, nat)>, cu: seq<nat>, g: Grid, e: nat, row: int, col: int)
    requires ValidGrid(g)
  {
    exists pid: nat :: (e, pid) in order && Writes(cu, g, e, pid, row, col)
  }

  ghost predicate AllPrograms(order: seq<(nat, nat)>, experts: nat, g: Grid)
    requires ValidGrid(g)
  {
    forall e: nat, pid: nat :: (e, pid) in order <==> e < experts && pid < Programs(g)
  }

  /** The whole launch, programs in any order: every cell within the reach of its segment gets the value of its own
      expert, and a row beyond is left as it was. */
  method Launch<F(!new)>(w: Work<F>, cu: seq<nat>, g: Grid, order: seq<(nat, nat)>, c: array2<F>)
    requires ValidGrid(g) && Fits(w, cu, g) && c.Length0 == |w.a| && c.Length1 == g.cols
    requires AllPrograms(order, |w.b|, g)
    modifies c
    ensures forall e: nat, row, col :: 0 <= row < c.Length0 && InSegment(cu, e, row) && 0 <= col < c.Length1 ==>
      c[row, col] == if row - cu[e] < Reach(g) then Value(w, e, row, col, g.cols) else old(c[row, col])
  {
    hide ComputePid, Writes, Value, Stored, Boundaries, Operands;
    assert forall e: nat :: e < |w.b| ==> Operands(w, e, g.cols);
    assert forall e: nat, row :: InSegment(cu, e, row) ==> e < |w.b|;
    NothingStored(cu, g);
    for k := 0 to |order|
      invariant forall e: nat, row, col :: 0 <= row < c.Length0 && InSegment(cu, e, row) && 0 <= col < c.Length1 ==>
        c[row, col] == if Stored(order[..k], cu, g, e, row, col) then Value(w, e, row, col, g.cols)
                       else old(c[row, col])
    {
      var (e, pid) := order[k];
      assert (e, pid) in order;
      Program(w, cu, g, e, pid, c);
      forall e': nat, row, col | InSegment(cu, e', row)
        ensures Stored(order[..k + 1], cu, g, e', row, col)
                <==> Stored(order[..k], cu, g, e', row, col) || Writes(cu, g, e, pid, row, col)
        ensures Writes(cu, g, e, pid, row, col) ==> e' == e
      {
        StoredStep(order, k, cu, g, e', row, col, |w.a|);
      }
    }
    assert order[..|order|] == order;
    forall e: nat, row, col | 0 <= row < c.Length0 && InSegment(cu, e, row) && 0 <= col < c.Length1
      ensures Stored(order, cu, g, e, row, col) <==> row - cu[e] < Reach(g)
    {
      StoredInReach(order, cu, g, e, row, col);
    }
  }

  lemma {:induction false} NothingStored(cu: seq<nat>, g: Grid)
    requires ValidGrid(g)
    ensures forall e: nat, row, col :: !Stored([], cu, g, e, row, col)
  {
  }

  lemma {:induction false} StoredStep(order: seq<(nat, nat)>, k: nat, cu: seq<nat>, g: Grid, e: nat, row: int,
                                      col: int, rows: nat)
    requires ValidGrid(g) && k < |order| && Boundaries(cu, rows) && InSegment(cu, e, row)
    ensures Stored(order[..k + 1], cu, g, e, row, col)
            <==> Stored(order[..k], cu, g, e, row, col) || Writes(cu, g, order[k].0, order[k].1, row, col)
    ensures Writes(cu, g, order[k].0, order[k].1, row, col) ==> order[k].0 == e
  {
    var (e', pid) := order[k];
    assert order[..k + 1] == order[..k] + [(e', pid)];
    if Writes(cu, g, e', pid, row, col) {
      OneExpert(cu, e', e, row, rows);
      assert (e, pid) in order[..k + 1];
    }
  }

  lemma {:induction false} StoredInReach(order: seq<(nat, nat)>, cu: seq<nat>, g: Grid, e: nat, row: int, col: int)
    requires ValidGrid(g) && InSegment(cu, e, row) && 0 <= col < g.cols && AllPrograms(order, |cu| - 1, g)
    ensures Stored(order, cu, g, e, row, col) <==> row - cu[e] < Reach(g)
  {
    hide Writes;
    var pid := CoveredOnce(cu, g, e, row, col);
    if row - cu[e] < Reach(g) {
      assert Writes(cu, g, e, pid, row, col);
      ProgramExists(cu, g, e, pid, row, col);
      assert (e, pid) in order;
    }
  }

  lemma {:induction false} ProgramExists(cu: seq<nat>, g: Grid, e: nat, pid: nat, row: int, col: int)
    requires ValidGrid(g) && Writes(cu, g, e, pid, row, col)
    ensures pid < Programs(g) && e < |cu| - 1
  {
  }

  /** A launch stores every cell if and only if no segment is longer than its reach. */
  lemma {:induction false} LaunchCoversAll(order: seq<(nat, nat)>, cu: seq<nat>, g: Grid, rows: nat)
    requires ValidGrid(g) && g.cols > 0 && Boundaries(cu, rows) && AllPrograms(order, |cu| - 1, g)
    ensures (forall e: nat, row, col :: InSegment(cu, e, row) && 0 <= col < g.cols ==>
               Stored(order, cu, g, e, row, col))
            <==> (forall e: nat :: SegmentLength(cu, e) <= Reach(g))
  {
    hide Reach;
    forall e: nat, row, col | InSegment(cu, e, row) && 0 <= col < g.cols
      ensures Stored(order, cu, g, e, row, col) <==> row - cu[e] < Reach(g)
    {
      StoredInReach(order, cu, g, e, row, col);
    }
    forall e: nat | SegmentLength(cu, e) > Reach(g)
      ensures InSegment(cu, e, cu[e] + Reach(g)) && !Stored(order, cu, g, e, cu[e] + Reach(g), 0)
    {
      assert InSegment(cu, e, cu[e] + Reach(g));
    }
  }

  lemma {:induction false} SegmentsAscend(cu: seq<nat>, rows: nat, e: nat, e': nat)
    requires Boundaries(cu, rows) && e + 1 < |cu| && e' < |cu|
    ensures e < e' ==> cu[e + 1] <= cu[e']
  {
  }

  lemma {:induction false} OneExpert(cu: seq<nat>, e: nat, e': nat, row: int, rows: nat)
    requires Boundaries(cu, rows) && InSegment(cu, e, row) && InSegment(cu, e', row)
    ensures e == e'
  {
    SegmentsAscend(cu, rows, e, e');
    SegmentsAscend(cu, rows, e', e);
  }

  /** The forward pass launches with `max_M = T * topk`: no segment is longer than all pairs together. */
  lemma {:induction false} ForwardSegmentsFit(keys: seq<int>, e: int)
    ensures |Members(keys, e)| <= |keys|
  {
    SegmentsAbut(keys, e);
    SegmentsAreOrdered(keys, e + 1, e + 1);
  }

  /** A router that never picks one expert twice for the same token. */
  ghost predicate DistinctChoices(keys: seq<int>, topk: nat)
    requires topk > 0
  {
    forall f, g :: 0 <= f < g < |keys| && f / topk == g / topk ==> keys[f] != keys[g]
  }

  /** The backward pass launches with `max_M = T`: with distinct choices each token adds at most one row
      to a segment. */
  lemma {:induction false} BackwardSegmentsFit(keys: seq<int>, tokens: nat, topk: nat, e: int)
    requires topk > 0 && |keys| == tokens * topk && DistinctChoices(keys, topk)
    ensures |Members(keys, e)| <= tokens
  {
    MembersBelow(keys, topk, e, tokens);
    forall f | f in Members(keys, e) ensures f / topk < tokens { QuotientBound(f, topk, tokens); }
    assert Members(keys, e) == set f | f in Members(keys, e) && f / topk < tokens;
  }

  /** Without distinct choices the bound fails: when every token picks expert 0 twice, the backward launch with
      `max_M = T` stores no row from T on, whatever the block size that divides T. */
  lemma {:induction false} RepeatedChoiceIsMissed(keys: seq<int>, g: Grid, pid: nat, row: int, col: int)
    requires ValidGrid(g) && g.maxM % g.bm == 0 && |keys| == 2 * g.maxM
    requires forall f :: 0 <= f < |keys| ==> keys[f] == 0
    ensures |Members(keys, 0)| == 2 * g.maxM
    ensures g.maxM <= row ==> !Writes([0, |keys|], g, 0, pid, row, col)
  {
    AllMembers(keys);
    var q := g.maxM / g.bm;
    assert g.maxM == q * g.bm;
    CeilDivUnique(g.maxM, g.bm, q);
    if Writes([0, |keys|], g, 0, pid, row, col) {
      var only := CoveredOnce([0, |keys|], g, 0, row, col);
    }
  }

  lemma {:induction false} AllMembers(keys: seq<int>)
    requires forall f :: 0 <= f < |keys| ==> keys[f] == 0
    ensures |Members(keys, 0)| == |keys|
  {
    if keys == [] {
      assert Members(keys, 0) == {};
    } else {
      var n := |keys| - 1;
      AllMembers(keys[..n]);
      assert Members(keys, 0) == Members(keys[..n], 0) + {n};
    }
  }

  lemma {:induction false} MembersBelow(keys: seq<int>, topk: nat, e: int, t: nat)
    requires topk > 0 && DistinctChoices(keys, topk)
    ensures |set f | f in Members(keys, e) && f / topk < t| <= t
  {
    var s := set f | f in Members(keys, e) && f / topk < t;
    if t == 0 {
      assert s == {};
    } else {
      MembersBelow(keys, topk, e, t - 1);
      var s' := set f | f in Members(keys, e) && f / topk < t - 1;
      if f :| f in s && f / topk == t - 1 {
        assert s == s' + {f};
      } else {
        assert s == s';
      }
    }
  }
}
