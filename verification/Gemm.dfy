/**
 The persistent GEMM as a loop nest. Floats are an abstract type `F` with a fused multiply-add that
 leaves the accumulator alone when both factors are zero; nothing else is assumed about rounding.
 */
module Gemm {
  import opened Prelude
  import opened Swizzle

  datatype Arith<!F> = Arith(zero: F, fma: (F, F, F) -> F)

  /** What masked-out K lanes rely on. */
  ghost predicate PadsK<F(!new)>(ops: Arith<F>)
  {
    forall acc :: ops.fma(acc, ops.zero, ops.zero) == acc
  }

  datatype Tiling = Tiling(bm: nat, bn: nat, bk: nat, group: nat, programs: nat)

  predicate ValidTiling(t: Tiling) { t.bm > 0 && t.bn > 0 && t.bk > 0 && t.group > 0 && t.programs > 0 }

  predicate Matrix<F>(x: seq<seq<F>>, rows: nat, cols: nat)
  {
    |x| == rows && forall i :: 0 <= i < rows ==> |x[i]| == cols
  }

  /** The reference: one row against one column, k = 0, 1, ..., from zero. */
  function Fold<F>(ops: Arith<F>, row: seq<F>, b: seq<seq<F>>, j: nat, k: nat): F
    requires k <= |row| == |b| && forall i :: 0 <= i < |b| ==> j < |b[i]|
  {
    if k == 0 then ops.zero else ops.fma(Fold(ops, row, b, j, k - 1), row[k - 1], b[k - 1][j])
  }

  function Cell<F>(ops: Arith<F>, a: seq<seq<F>>, b: seq<seq<F>>, i: nat, j: nat): F
    requires i < |a| && |a[i]| == |b| && forall k :: 0 <= k < |b| ==> j < |b[k]|
  {
    Fold(ops, a[i], b, j, |b|)
  }

  function Tiles(rows: nat, cols: nat, t: Tiling): nat
    requires ValidTiling(t)
  {
    CeilDiv(rows, t.bm) * CeilDiv(cols, t.bn)
  }

  /** The tile a cell lies in, as a tile id. */
  function TileIdOf(i: nat, j: nat, rows: nat, cols: nat, t: Tiling): (id: int)
    requires ValidTiling(t) && i < rows && j < cols
    ensures 0 <= id < Tiles(rows, cols, t)
  {
    BlockInRange(i, rows, t.bm);
    BlockInRange(j, cols, t.bn);
    PidOfTile(i / t.bm, j / t.bn, CeilDiv(rows, t.bm), CeilDiv(cols, t.bn), t.group);
    TileOf(i / t.bm, j / t.bn, CeilDiv(rows, t.bm), CeilDiv(cols, t.bn), t.group)
  }

  lemma {:induction false} BlockInRange(i: nat, n: nat, b: nat)
    requires b > 0 && i < n
    ensures i / b < CeilDiv(n, b)
  {
    if i / b >= CeilDiv(n, b) { MulLe(CeilDiv(n, b), i / b, b); }
  }

  /** A cell is in the block of tile `tile` exactly when that is the cell's own tile. */
  lemma {:induction false} BlockIsTile(i: nat, j: nat, rows: nat, cols: nat, t: Tiling, tile: nat)
    requires ValidTiling(t) && i < rows && j < cols && tile < Tiles(rows, cols, t)
    ensures var (m, n) := ComputePid(tile, CeilDiv(rows, t.bm), CeilDiv(cols, t.bn), t.group);
            (m * t.bm <= i < m * t.bm + t.bm && n * t.bn <= j < n * t.bn + t.bn)
            <==> TileIdOf(i, j, rows, cols, t) == tile
  {
    hide ComputePid, TileOf;
    var pm, pn := CeilDiv(rows, t.bm), CeilDiv(cols, t.bn);
    BlockInRange(i, rows, t.bm);
    BlockInRange(j, cols, t.bn);
    var (m, n) := ComputePid(tile, pm, pn, t.group);
    PidOfTile(i / t.bm, j / t.bn, pm, pn, t.group);
    TileOfPid(tile, pm, pn, t.group);
    InBlock(i, m, t.bm);
    InBlock(j, n, t.bn);
  }

  lemma {:induction false} InBlock(i: nat, m: nat, b: nat)
    requires b > 0
    ensures m * b <= i < m * b + b <==> i / b == m
  {
    if m * b <= i < m * b + b { DivModUnique(i / b, i % b, m, i - m * b, b); }
  }

  /** One lane of the accumulator over all K tiles: lanes past K load zeros and change nothing. A row past M is
      masked to zero, which EVEN_M leaves out because no tile then has such a row; it is never stored. */
  method Accumulate<F(!new)>(ops: Arith<F>, a: seq<seq<F>>, b: seq<seq<F>>, cols: nat, bk: nat, i: nat, j: nat,
                             evenM: bool)
    returns (acc: F)
    requires PadsK(ops) && bk > 0 && Matrix(a, |a|, |b|) && Matrix(b, |b|, cols) && j < cols
    requires evenM ==> i < |a|
    ensures i < |a| ==> acc == Cell(ops, a, b, i, j)
  {
    acc := ops.zero;
    for ki := 0 to CeilDiv(|b|, bk)
      invariant i < |a| ==> acc == Fold(ops, a[i], b, j, Min(ki * bk, |b|))
    {
      for lane := 0 to bk
        invariant i < |a| ==> acc == Fold(ops, a[i], b, j, Min(ki * bk + lane, |b|))
      {
        var k := ki * bk + lane;
        var x := if lane < |b| - ki * bk && (evenM || i < |a|) then a[i][k] else ops.zero;
        var y := if lane < |b| - ki * bk then b[k][j] else ops.zero;
        acc := ops.fma(acc, x, y);
      }
      assert ki * bk + bk == (ki + 1) * bk;
    }
  }

  /** The accumulator of tile (m, n): columns past N load column 0 instead. */
  method AccumulateTile<F(!new)>(ops: Arith<F>, a: seq<seq<F>>, b: seq<seq<F>>, cols: nat, t: Tiling, m: nat, n: nat,
                                 evenM: bool)
    returns (acc: array2<F>)
    requires PadsK(ops) && ValidTiling(t) && Matrix(a, |a|, |b|) && Matrix(b, |b|, cols) && cols > 0
    requires m < CeilDiv(|a|, t.bm) && (evenM ==> |a| % t.bm == 0)
    ensures fresh(acc) && acc.Length0 == t.bm && acc.Length1 == t.bn
    ensures forall di, dj | 0 <= di < t.bm && 0 <= dj < t.bn && m * t.bm + di < |a| && n * t.bn + dj < cols ::
              acc[di, dj] == Cell(ops, a, b, m * t.bm + di, n * t.bn + dj)
  {
    hide Cell;
    var i0, j0 := m * t.bm, n * t.bn;
    acc := new F[t.bm, t.bn]((di, dj) => ops.zero);
    for di := 0 to t.bm
      invariant forall di', dj | 0 <= di' < di && 0 <= dj < t.bn && i0 + di' < |a| && j0 + dj < cols ::
        acc[di', dj] == Cell(ops, a, b, i0 + di', j0 + dj)
    {
      if evenM { FullTile(m, di, |a|, t.bm); }
      for dj := 0 to t.bn
        invariant forall di', dj' | 0 <= di' < t.bm && 0 <= dj' < t.bn && i0 + di' < |a| && j0 + dj' < cols &&
          (di' < di || (di' == di && dj' < dj)) :: acc[di', dj'] == Cell(ops, a, b, i0 + di', j0 + dj')
      {
        acc[di, dj] := Accumulate(ops, a, b, cols, t.bk, i0 + di, if j0 + dj < cols then j0 + dj else 0, evenM);
      }
    }
  }

  /** With EVEN_M no tile has a row past M. */
  lemma {:induction false} FullTile(m: nat, di: nat, rows: nat, bm: nat)
    requires bm > 0 && m < CeilDiv(rows, bm) && rows % bm == 0 && di < bm
    ensures m * bm + di < rows
  {
    var q := rows / bm;
    assert rows == q * bm;
    CeilDivUnique(rows, bm, q);
    MulLe(m + 1, q, bm);
  }

  /** The epilogue of one tile: every cell of the block that lies in the matrix gets its accumulator, nothing else
      is written. `epilogue` is the bias and the cast to the output type, a function of the value and the column. */
  method StoreTile<F(!new)>(epilogue: (F, nat) -> F, acc: array2<F>, c: array2<F>, t: Tiling, m: nat, n: nat)
    requires acc != c && acc.Length0 == t.bm && acc.Length1 == t.bn
    modifies c
    ensures forall i, j | 0 <= i < c.Length0 && 0 <= j < c.Length1 ::
              if m * t.bm <= i < m * t.bm + t.bm && n * t.bn <= j < n * t.bn + t.bn
              then c[i, j] == epilogue(acc[i - m * t.bm, j - n * t.bn], j) else c[i, j] == old(c[i, j])
  {
    var i0, j0 := m * t.bm, n * t.bn;
    for di := 0 to t.bm
      invariant forall i, j | 0 <= i < c.Length0 && 0 <= j < c.Length1 ::
        if i0 <= i < i0 + di && j0 <= j < j0 + t.bn
        then c[i, j] == epilogue(acc[i - i0, j - j0], j) else c[i, j] == old(c[i, j])
    {
      for dj := 0 to t.bn
        invariant forall i, j | 0 <= i < c.Length0 && 0 <= j < c.Length1 ::
          if (i0 <= i < i0 + di && j0 <= j < j0 + t.bn) || (i == i0 + di && j0 <= j < j0 + dj)
          then c[i, j] == epilogue(acc[i - i0, j - j0], j) else c[i, j] == old(c[i, j])
      {
        if i0 + di < c.Length0 && j0 + dj < c.Length1 {
          c[i0 + di, j0 + dj] := epilogue(acc[di, dj], j0 + dj);
        }
      }
    }
  }

  /** The program that visits a tile. */
  function VisitorOf(id: nat, stride: nat): (start: nat)
    requires stride > 0
    ensures start < stride && start <= id
  {
    id % stride
  }

  /** One persistent program: the main loop accumulates tiles start, start + NUM_SMS, ...; the epilogue finds the
      tile to store from a counter of its own, which starts one stride early. */
  method RunProgram<F(!new)>(ops: Arith<F>, epilogue: (F, nat) -> F, a: seq<seq<F>>, b: seq<seq<F>>, c: array2<F>,
                             t: Tiling, start: nat, evenM: bool)
    requires PadsK(ops) && ValidTiling(t) && c.Length0 == |a| && Matrix(a, |a|, |b|) && Matrix(b, |b|, c.Length1)
    requires start < t.programs && (evenM ==> |a| % t.bm == 0)
    modifies c
    ensures forall i, j | 0 <= i < c.Length0 && 0 <= j < c.Length1 ::
              if VisitorOf(TileIdOf(i, j, |a|, c.Length1, t), t.programs) == start
              then c[i, j] == epilogue(Cell(ops, a, b, i, j), j) else c[i, j] == old(c[i, j])
  {
    hide ComputePid, TileOf, Cell, TileIdOf, VisitorOf, Tiles;
    var tiles := Tiles(|a|, c.Length1, t);
    var tile, tileC := start, start - t.programs;
    FirstVisit(start, t.programs);
    while tile < tiles
      invariant tileC == tile - t.programs && VisitorOf(tile, t.programs) == start
      invariant forall i, j | 0 <= i < c.Length0 && 0 <= j < c.Length1 ::
        var id := TileIdOf(i, j, |a|, c.Length1, t);
        if VisitorOf(id, t.programs) == start && id < tile
        then c[i, j] == epilogue(Cell(ops, a, b, i, j), j) else c[i, j] == old(c[i, j])
      decreases tiles - tile
    {
      tileC := tileC + t.programs;
      RunTile(ops, epilogue, a, b, c, t, tile, tileC, evenM);
      forall i, j | 0 <= i < c.Length0 && 0 <= j < c.Length1
        ensures var id := TileIdOf(i, j, |a|, c.Length1, t);
                VisitorOf(id, t.programs) == start ==> (id < tile + t.programs <==> id <= tile)
      {
        SameVisitor(TileIdOf(i, j, |a|, c.Length1, t), tile, t.programs);
      }
      NextVisit(tile, t.programs);
      tile := tile + t.programs;
    }
  }

  lemma {:induction false} FirstVisit(start: nat, stride: nat)
    requires start < stride
    ensures VisitorOf(start, stride) == start
  {
    DivModOf(0, start, stride);
  }

  lemma {:induction false} NextVisit(tile: nat, stride: nat)
    requires stride > 0
    ensures VisitorOf(tile + stride, stride) == VisitorOf(tile, stride)
  {
    ModShift(tile, 1, stride);
  }

  /** One iteration: the tile of the main loop is accumulated and stored as the tile of the epilogue. */
  method RunTile<F(!new)>(ops: Arith<F>, epilogue: (F, nat) -> F, a: seq<seq<F>>, b: seq<seq<F>>, c: array2<F>,
                          t: Tiling, tile: nat, tileC: int, evenM: bool)
    requires PadsK(ops) && ValidTiling(t) && c.Length0 == |a| && Matrix(a, |a|, |b|) && Matrix(b, |b|, c.Length1)
    requires tileC == tile < Tiles(|a|, c.Length1, t) && (evenM ==> |a| % t.bm == 0)
    modifies c
    ensures forall i, j | 0 <= i < c.Length0 && 0 <= j < c.Length1 ::
              if TileIdOf(i, j, |a|, c.Length1, t) == tile
              then c[i, j] == epilogue(Cell(ops, a, b, i, j), j) else c[i, j] == old(c[i, j])
  {
    hide ComputePid, TileOf, Cell, TileIdOf;
    TileInGrid(tile, |a|, c.Length1, t);
    var (m, n) := ComputePid(tile, CeilDiv(|a|, t.bm), CeilDiv(c.Length1, t.bn), t.group);
    var acc := AccumulateTile(ops, a, b, c.Length1, t, m, n, evenM);
    var (mC, nC) := ComputePid(tileC, CeilDiv(|a|, t.bm), CeilDiv(c.Length1, t.bn), t.group);
    StoreTile(epilogue, acc, c, t, mC, nC);
    forall i, j | 0 <= i < c.Length0 && 0 <= j < c.Length1
      ensures if TileIdOf(i, j, |a|, c.Length1, t) == tile
              then c[i, j] == epilogue(Cell(ops, a, b, i, j), j) else c[i, j] == old(c[i, j])
    {
      BlockIsTile(i, j, |a|, c.Length1, t, tile);
    }
  }

  lemma {:induction false} TileInGrid(tile: nat, rows: nat, cols: nat, t: Tiling)
    requires ValidTiling(t) && tile < Tiles(rows, cols, t)
    ensures cols > 0
    ensures var (m, n) := ComputePid(tile, CeilDiv(rows, t.bm), CeilDiv(cols, t.bn), t.group);
            0 <= m < CeilDiv(rows, t.bm) && 0 <= n < CeilDiv(cols, t.bn)
  {
    PidInRange(tile, CeilDiv(rows, t.bm), CeilDiv(cols, t.bn), t.group);
  }

  /** Two tiles visited by one program are at least a stride apart. */
  lemma {:induction false} SameVisitor(id: nat, tile: nat, stride: nat)
    requires stride > 0
    ensures VisitorOf(id, stride) == VisitorOf(tile, stride) && id < tile + stride ==> id <= tile
  {
    var q, q' := id / stride, tile / stride;
    assert id == q * stride + id % stride && tile == q' * stride + tile % stride;
    if q > q' { MulLe(q' + 1, q, stride); } else { MulLe(q, q', stride); }
  }

  /** The launch: `min(NUM_SMS, tiles)` programs, run in any order. Every cell is the fold of its own
      row and column, whatever the other rows, the tile sizes and the number of programs are. */
  method MatmulPersistent<F(!new)>(ops: Arith<F>, epilogue: (F, nat) -> F, a: seq<seq<F>>, b: seq<seq<F>>, c: array2<F>,
                                   t: Tiling, order: seq<nat>)
    requires PadsK(ops) && ValidTiling(t) && c.Length0 == |a| && Matrix(a, |a|, |b|) && Matrix(b, |b|, c.Length1)
    requires forall start :: start in order <==> 0 <= start < Min(t.programs, Tiles(|a|, c.Length1, t))
    modifies c
    ensures forall i, j | 0 <= i < c.Length0 && 0 <= j < c.Length1 ::
              c[i, j] == epilogue(Cell(ops, a, b, i, j), j)
  {
    hide ComputePid, TileOf, Cell, VisitorOf;
    for k := 0 to |order|
      invariant forall i, j | 0 <= i < c.Length0 && 0 <= j < c.Length1 ::
        VisitorOf(TileIdOf(i, j, |a|, c.Length1, t), t.programs) in order[..k] ==>
          c[i, j] == epilogue(Cell(ops, a, b, i, j), j)
    {
      assert order[k] in order;
      RunProgram(ops, epilogue, a, b, c, t, order[k], |a| % t.bm == 0);
      assert order[..k + 1] == order[..k] + [order[k]];
    }
    assert order[..|order|] == order;
    forall i, j | 0 <= i < c.Length0 && 0 <= j < c.Length1
      ensures VisitorOf(TileIdOf(i, j, |a|, c.Length1, t), t.programs) in order
    {
      VisitedOnce(TileIdOf(i, j, |a|, c.Length1, t), Tiles(|a|, c.Length1, t), t.programs);
    }
  }

  /** The tile that a program visits in its `turn`-th iteration. */
  function Visit(start: nat, turn: nat, stride: nat): nat { start + turn * stride }

  /** Exactly one launched program comes to a tile, in exactly one of its iterations. */
  lemma {:induction false} VisitedOnce(id: nat, tiles: nat, stride: nat)
    requires stride > 0 && id < tiles
    ensures 0 <= VisitorOf(id, stride) < Min(stride, tiles)
    ensures Visit(VisitorOf(id, stride), id / stride, stride) == id
    ensures forall start, turn: nat :: 0 <= start < stride && Visit(start, turn, stride) == id ==>
              start == VisitorOf(id, stride) && turn == id / stride
  {
    var r, q := id % stride, id / stride;
    assert id == r + q * stride;
    MulLe(0, q, stride);
    forall start, turn: nat | 0 <= start < stride && Visit(start, turn, stride) == id
      ensures start == r && turn == q
    {
      DivModUnique(turn, start, q, r, stride);
    }
  }

  /** One column of two weight matrices. */
  predicate SameColumn<F(==)>(b: seq<seq<F>>, b': seq<seq<F>>, j: nat)
  {
    |b| == |b'| && forall k :: 0 <= k < |b| ==> j < |b[k]| && j < |b'[k]| && b[k][j] == b'[k][j]
  }

  lemma {:induction false} ColumnDecides<F(!new)>(ops: Arith<F>, row: seq<F>, b: seq<seq<F>>, b': seq<seq<F>>, j: nat,
                                                  k: nat)
    requires SameColumn(b, b', j) && k <= |row| == |b|
    ensures Fold(ops, row, b, j, k) == Fold(ops, row, b', j, k)
  {
    if k > 0 { ColumnDecides(ops, row, b, b', j, k - 1); }
  }

  /** Batch invariance: two launches, whatever their other rows and columns, their tilings, numbers of programs,
      schedules and previous outputs, store equal results wherever they share a row of `a` and a column of `b`. */
  method RowsDoNotInteract<F(!new)>(ops: Arith<F>, epilogue: (F, nat) -> F, a: seq<seq<F>>, a': seq<seq<F>>,
                                    b: seq<seq<F>>, b': seq<seq<F>>, c: array2<F>, c': array2<F>, t: Tiling,
                                    t': Tiling, order: seq<nat>, order': seq<nat>)
    requires c != c' && c.Length0 == |a| && c'.Length0 == |a'| && |b| == |b'|
    requires PadsK(ops) && Matrix(a, |a|, |b|) && Matrix(a', |a'|, |b|)
    requires Matrix(b, |b|, c.Length1) && Matrix(b', |b|, c'.Length1)
    requires ValidTiling(t) && ValidTiling(t')
    requires forall start :: start in order <==> 0 <= start < Min(t.programs, Tiles(|a|, c.Length1, t))
    requires forall start :: start in order' <==> 0 <= start < Min(t'.programs, Tiles(|a'|, c'.Length1, t'))
    modifies c, c'
    ensures forall i, i', j | 0 <= i < |a| && 0 <= i' < |a'| && a[i] == a'[i'] && 0 <= j < c.Length1
                              && j < c'.Length1 && SameColumn(b, b', j) ::
              c[i, j] == c'[i', j]
  {
    hide Tiles, Fold, SameColumn;
    MatmulPersistent(ops, epilogue, a, b, c, t, order);
    MatmulPersistent(ops, epilogue, a', b', c', t', order');
    forall i: nat, j: nat | i < |a| && j < c.Length1 && j < c'.Length1 && SameColumn(b, b', j)
      ensures Cell(ops, a, b, i, j) == Fold(ops, a[i], b', j, |b|)
    {
      ColumnDecides(ops, a[i], b, b', j, |b|);
    }
  }

  /** Real arithmetic. */
  ghost predicate OverReals(ops: Arith<real>)
  {
    ops.zero == 0.0 && forall acc, x, y :: ops.fma(acc, x, y) == acc + x * y
  }

  predicate IsUnit(x: seq<real>, k: nat)
  {
    k < |x| && forall i :: 0 <= i < |x| ==> x[i] == if i == k then 1.0 else 0.0
  }

  predicate IsSum(x: seq<real>, y: seq<real>, z: seq<real>)
  {
    |x| == |y| == |z| && forall i :: 0 <= i < |x| ==> x[i] == y[i] + z[i]
  }

  predicate IsMultiple(x: seq<real>, r: real, y: seq<real>)
  {
    |x| == |y| && forall i :: 0 <= i < |x| ==> x[i] == r * y[i]
  }

  lemma {:induction false} RealFma(ops: Arith<real>, acc: real, x: real, y: real)
    requires OverReals(ops)
    ensures ops.fma(acc, x, y) == acc + x * y && ops.zero == 0.0
  {
  }

  lemma {:induction false} RealsPad(ops: Arith<real>)
    requires OverReals(ops)
    ensures PadsK(ops)
  {
  }

  lemma {:induction false} UnitFold(ops: Arith<real>, x: seq<real>, b: seq<seq<real>>, j: nat, k: nat, n: nat)
    requires OverReals(ops) && IsUnit(x, k) && n <= |x| == |b| && forall i :: 0 <= i < |b| ==> j < |b[i]|
    ensures Fold(ops, x, b, j, n) == if k < n then b[k][j] else 0.0
  {
    hide OverReals;
    RealFma(ops, 0.0, 0.0, 0.0);
    if n > 0 {
      UnitFold(ops, x, b, j, k, n - 1);
      var y := b[n - 1][j];
      RealFma(ops, Fold(ops, x, b, j, n - 1), x[n - 1], y);
      assert 1.0 * y == y && 0.0 * y == 0.0;
    }
  }

  lemma {:induction false} SumFold(ops: Arith<real>, x: seq<real>, y: seq<real>, z: seq<real>, b: seq<seq<real>>,
                                   j: nat, n: nat)
    requires OverReals(ops) && IsSum(x, y, z) && n <= |x| == |b| && forall i :: 0 <= i < |b| ==> j < |b[i]|
    ensures Fold(ops, x, b, j, n) == Fold(ops, y, b, j, n) + Fold(ops, z, b, j, n)
  {
    hide OverReals;
    RealFma(ops, 0.0, 0.0, 0.0);
    if n > 0 {
      SumFold(ops, x, y, z, b, j, n - 1);
      var w := b[n - 1][j];
      RealFma(ops, Fold(ops, x, b, j, n - 1), x[n - 1], w);
      RealFma(ops, Fold(ops, y, b, j, n - 1), y[n - 1], w);
      RealFma(ops, Fold(ops, z, b, j, n - 1), z[n - 1], w);
      assert x[n - 1] * w == y[n - 1] * w + z[n - 1] * w;
    }
  }

  lemma {:induction false} MultipleFold(ops: Arith<real>, x: seq<real>, r: real, y: seq<real>, b: seq<seq<real>>,
                                        j: nat, n: nat)
    requires OverReals(ops) && IsMultiple(x, r, y) && n <= |x| == |b| && forall i :: 0 <= i < |b| ==> j < |b[i]|
    ensures Fold(ops, x, b, j, n) == r * Fold(ops, y, b, j, n)
  {
    hide OverReals;
    RealFma(ops, 0.0, 0.0, 0.0);
    if n > 0 {
      MultipleFold(ops, x, r, y, b, j, n - 1);
      RealFma(ops, Fold(ops, x, b, j, n - 1), x[n - 1], b[n - 1][j]);
      RealFma(ops, Fold(ops, y, b, j, n - 1), y[n - 1], b[n - 1][j]);
      Distributes(r, Fold(ops, y, b, j, n - 1), y[n - 1], b[n - 1][j]);
    }
  }

  lemma {:induction false} Distributes(r: real, s: real, y: real, z: real)
    ensures r * (s + y * z) == r * s + (r * y) * z
  {
  }

  lemma {:induction false} UnitCells(ops: Arith<real>, a: seq<seq<real>>, b: seq<seq<real>>, cols: nat)
    requires OverReals(ops) && Matrix(a, |a|, |b|) && Matrix(b, |b|, cols)
    ensures forall i, j, k | 0 <= i < |a| && 0 <= j < cols && 0 <= k < |b| && IsUnit(a[i], k) ::
              Cell(ops, a, b, i, j) == b[k][j]
  {
    hide OverReals, Fold;
    forall i, j, k | 0 <= i < |a| && 0 <= j < cols && 0 <= k < |b| && IsUnit(a[i], k)
      ensures Cell(ops, a, b, i, j) == b[k][j]
    {
      UnitFold(ops, a[i], b, j, k, |b|);
    }
  }

  lemma {:induction false} LinearCells(ops: Arith<real>, a: seq<seq<real>>, b: seq<seq<real>>, cols: nat)
    requires OverReals(ops) && Matrix(a, |a|, |b|) && Matrix(b, |b|, cols)
    ensures forall i, i1, i2, j | 0 <= i < |a| && 0 <= i1 < |a| && 0 <= i2 < |a| && 0 <= j < cols
                                  && IsSum(a[i], a[i1], a[i2]) ::
              Cell(ops, a, b, i, j) == Cell(ops, a, b, i1, j) + Cell(ops, a, b, i2, j)
    ensures forall i, i1, r, j | 0 <= i < |a| && 0 <= i1 < |a| && 0 <= j < cols && IsMultiple(a[i], r, a[i1]) ::
              Cell(ops, a, b, i, j) == r * Cell(ops, a, b, i1, j)
  {
    hide OverReals, Fold, IsSum, IsMultiple;
    forall i, i1, i2, j | 0 <= i < |a| && 0 <= i1 < |a| && 0 <= i2 < |a| && 0 <= j < cols
                          && IsSum(a[i], a[i1], a[i2])
      ensures Cell(ops, a, b, i, j) == Cell(ops, a, b, i1, j) + Cell(ops, a, b, i2, j)
    {
      SumFold(ops, a[i], a[i1], a[i2], b, j, |b|);
    }
    forall i, i1, r, j | 0 <= i < |a| && 0 <= i1 < |a| && 0 <= j < cols && IsMultiple(a[i], r, a[i1])
      ensures Cell(ops, a, b, i, j) == r * Cell(ops, a, b, i1, j)
    {
      MultipleFold(ops, a[i], r, a[i1], b, j, |b|);
    }
  }

  /** Over the reals a launch multiplies matrices: the product with a unit row is that row of `b`, and the product is
      linear in the row. Every row is a combination of unit rows, so this determines each stored cell. */
  method MatmulOverReals(ops: Arith<real>, a: seq<seq<real>>, b: seq<seq<real>>, c: array2<real>, t: Tiling,
                         order: seq<nat>)
    requires OverReals(ops) && ValidTiling(t) && c.Length0 == |a| && Matrix(a, |a|, |b|) && Matrix(b, |b|, c.Length1)
    requires forall start :: start in order <==> 0 <= start < Min(t.programs, Tiles(|a|, c.Length1, t))
    modifies c
    ensures forall i, j, k | 0 <= i < |a| && 0 <= j < c.Length1 && 0 <= k < |b| && IsUnit(a[i], k) :: c[i, j] == b[k][j]
    ensures forall i, i1, i2, j | 0 <= i < |a| && 0 <= i1 < |a| && 0 <= i2 < |a| && 0 <= j < c.Length1
                                  && IsSum(a[i], a[i1], a[i2]) ::
              c[i, j] == c[i1, j] + c[i2, j]
    ensures forall i, i1, r, j | 0 <= i < |a| && 0 <= i1 < |a| && 0 <= j < c.Length1 && IsMultiple(a[i], r, a[i1]) ::
              c[i, j] == r * c[i1, j]
  {
    hide Tiles, Cell, IsUnit, IsSum, IsMultiple, OverReals;
    RealsPad(ops);
    MatmulPersistent(ops, (x, _) => x, a, b, c, t, order);
    UnitCells(ops, a, b, c.Length1);
    LinearCells(ops, a, b, c.Length1);
  }
}
