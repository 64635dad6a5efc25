/** The grouped tile order shared by the persistent GEMM and the grouped GEMM. */
module Swizzle {
  import opened Prelude

  /** Rows of tiles in the group of tile-row group `g`; the last group may be short. */
  function GroupRows(g: nat, pidsM: nat, group: nat): int { Min(pidsM - g * group, group) }

  /** `_compute_pid` and `get_pid_mn`: the tile of the (m, n) grid that a tile id stands for. */
  function ComputePid(tile: nat, pidsM: nat, pidsN: nat, group: nat): (nat, nat)
    requires group > 0 && tile < pidsM * pidsN
  {
    PidDefined(tile, pidsM, pidsN, group);
    var pidsInGroup := group * pidsN;
    var g := tile / pidsInGroup;
    PidAt(tile, tile % pidsInGroup, g * group, GroupRows(g, pidsM, group))
  }

  function PidAt(tile: nat, local: nat, firstM: nat, rows: int): (nat, nat)
    requires rows > 0
  {
    (firstM + tile % rows, local / rows)
  }

  /** The tile id that stands for (m, n): groups in order, and inside a group columns in order, each
      column rotated by the group's first tile. */
  function TileOf(m: nat, n: nat, pidsM: nat, pidsN: nat, group: nat): int
    requires group > 0 && m < pidsM
  {
    var g := m / group;
    var rows := GroupRows(g, pidsM, group);
    var first := g * group * pidsN;
    first + n * rows + (m - g * group - first) % rows
  }

  lemma {:induction false} PidDefined(tile: nat, pidsM: nat, pidsN: nat, group: nat)
    requires group > 0 && tile < pidsM * pidsN
    ensures pidsN > 0 && group * pidsN > 0
    ensures tile / (group * pidsN) * group < pidsM
    ensures 0 < GroupRows(tile / (group * pidsN), pidsM, group) <= group
  {
    if pidsN == 0 { MulLe(0, pidsM, pidsN); }
    MulLe(1, group, pidsN);
    var g := tile / (group * pidsN);
    assert g * (group * pidsN) == g * group * pidsN;
    if g * group >= pidsM { MulLe(pidsM, g * group, pidsN); }
  }

  lemma {:induction false} ModShift(x: int, k: int, b: int)
    requires b > 0
    ensures (x + k * b) % b == x % b
  {
    var q, r := x / b, x % b;
    assert x + k * b == (q + k) * b + r;
    DivModUnique((x + k * b) / b, (x + k * b) % b, q + k, r, b);
  }

  lemma {:induction false} DivModOf(q: int, r: int, b: int)
    requires 0 <= r < b
    ensures (q * b + r) / b == q && (q * b + r) % b == r
  {
    DivModUnique((q * b + r) / b, (q * b + r) % b, q, r, b);
  }

  /** Rotating by `x` and back. */
  lemma {:induction false} Rotate(x: int, low: int, b: int)
    requires 0 <= low < b
    ensures ((x + low) % b - x) % b == low
    ensures (x + (low - x) % b) % b == low
  {
    var q := (x + low) / b;
    assert (x + low) % b - x == low + (-q) * b;
    ModShift(low, -q, b);
    var p := (low - x) / b;
    assert x + (low - x) % b == low + (-p) * b;
    ModShift(low, -p, b);
    assert low % b == low by { DivModOf(0, low, b); }
  }

  /** A tile id as its group, its column and its place in the column. */
  lemma {:induction false} TileParts(tile: nat, pidsM: nat, pidsN: nat, group: nat) returns (g: nat, rows: nat, n: nat,
                                     low: nat)
    requires group > 0 && tile < pidsM * pidsN
    ensures g == tile / (group * pidsN) && rows == GroupRows(g, pidsM, group) && 1 <= rows <= group
    ensures low < rows && n < pidsN && tile == g * group * pidsN + n * rows + low
    ensures ComputePid(tile, pidsM, pidsN, group) == (g * group + (g * group * pidsN + low) % rows, n)
  {
    PidDefined(tile, pidsM, pidsN, group);
    var inGroup := group * pidsN;
    g := tile / inGroup;
    var local := tile % inGroup;
    rows := GroupRows(g, pidsM, group);
    n, low := local / rows, local % rows;
    TileSplits(tile, group, pidsN, g, local);
    LocalInRange(tile, pidsM, pidsN, group, g, local, rows);
    SmallQuotient(local, pidsN, rows);
    ModShift(g * group * pidsN + low, n, rows);
  }

  lemma {:induction false} TileSplits(tile: nat, group: nat, pidsN: nat, g: nat, local: nat)
    requires group * pidsN > 0 && g == tile / (group * pidsN) && local == tile % (group * pidsN)
    ensures tile == g * group * pidsN + local
  {
    assert g * (group * pidsN) == g * group * pidsN;
  }

  lemma {:induction false} SmallQuotient(x: nat, n: nat, b: nat)
    requires b > 0 && x < n * b
    ensures x / b < n && x == x / b * b + x % b
  {
    if x / b >= n { MulLe(n, x / b, b); }
  }

  lemma {:induction false} LocalInRange(tile: nat, pidsM: nat, pidsN: nat, group: nat, g: nat, local: nat, rows: nat)
    requires group > 0 && tile < pidsM * pidsN && tile == g * group * pidsN + local && local < group * pidsN
    requires g * group < pidsM && rows == GroupRows(g, pidsM, group)
    ensures local < pidsN * rows
  {
    assert (pidsM - g * group) * pidsN == pidsM * pidsN - g * group * pidsN;
  }

  /** Every tile id stands for a tile of the grid. */
  lemma {:induction false} PidInRange(tile: nat, pidsM: nat, pidsN: nat, group: nat)
    requires group > 0 && tile < pidsM * pidsN
    ensures var (m, n) := ComputePid(tile, pidsM, pidsN, group);
            m < pidsM && n < pidsN && m / group == tile / (group * pidsN)
  {
    var g, rows, n, low := TileParts(tile, pidsM, pidsN, group);
    DivModOf(g, (g * group * pidsN + low) % rows, group);
  }

  lemma {:induction false} TileOfParts(g: nat, off: nat, n: nat, pidsM: nat, pidsN: nat, group: nat)
    requires off < group && g * group + off < pidsM
    ensures var first, rows := g * group * pidsN, GroupRows(g, pidsM, group);
            off < rows && TileOf(g * group + off, n, pidsM, pidsN, group) == first + n * rows + (off - first) % rows
  {
    DivModOf(g, off, group);
  }

  /** Different tile ids stand for different tiles. */
  lemma {:induction false} TileOfPid(tile: nat, pidsM: nat, pidsN: nat, group: nat)
    requires group > 0 && tile < pidsM * pidsN
    ensures var (m, n) := ComputePid(tile, pidsM, pidsN, group);
            m < pidsM && TileOf(m, n, pidsM, pidsN, group) == tile
  {
    hide ComputePid, TileOf;
    var g, rows, n, low := TileParts(tile, pidsM, pidsN, group);
    var first := g * group * pidsN;
    var off := (first + low) % rows;
    TileOfParts(g, off, n, pidsM, pidsN, group);
    Rotate(first, low, rows);
  }

  /** Every tile of the grid has a tile id, the short last group included. */
  lemma {:induction false} PidOfTile(m: nat, n: nat, pidsM: nat, pidsN: nat, group: nat)
    requires group > 0 && m < pidsM && n < pidsN
    ensures 0 <= TileOf(m, n, pidsM, pidsN, group) < pidsM * pidsN
    ensures ComputePid(TileOf(m, n, pidsM, pidsN, group), pidsM, pidsN, group) == (m, n)
  {
    hide ComputePid, TileOf;
    var g, off := m / group, m % group;
    assert m == g * group + off;
    PidOfParts(g, off, n, pidsM, pidsN, group);
  }

  lemma {:induction false} PidOfParts(g: nat, off: nat, n: nat, pidsM: nat, pidsN: nat, group: nat)
    requires off < group && g * group + off < pidsM && n < pidsN
    ensures var tile := TileOf(g * group + off, n, pidsM, pidsN, group);
            0 <= tile < pidsM * pidsN && ComputePid(tile, pidsM, pidsN, group) == (g * group + off, n)
  {
    hide ComputePid, TileOf;
    TileOfParts(g, off, n, pidsM, pidsN, group);
    var rows, first := GroupRows(g, pidsM, group), g * group * pidsN;
    var low := (off - first) % rows;
    var tile := first + n * rows + low;
    MulLe(0, g * group, pidsN);
    MulLe(0, n, rows);
    TileInRange(g, group, pidsM, pidsN, rows, n, low, tile);
    var g', rows', n', low' := TileParts(tile, pidsM, pidsN, group);
    DivModUnique(n, low, n', low', rows);
    Rotate(first, off, rows);
  }

  lemma {:induction false} TileInRange(g: nat, group: nat, pidsM: nat, pidsN: nat, rows: nat, n: nat, low: nat,
                                       tile: nat)
    requires group > 0 && g * group < pidsM && n < pidsN && low < rows == GroupRows(g, pidsM, group)
    requires tile == g * group * pidsN + n * rows + low
    ensures tile < pidsM * pidsN && tile / (group * pidsN) == g
  {
    MulLe(n + 1, pidsN, rows);
    assert (n + 1) * rows == n * rows + rows;
    assert pidsN * rows <= pidsN * group by { MulLe(rows, group, pidsN); }
    assert pidsN * rows <= pidsN * (pidsM - g * group) by { MulLe(rows, pidsM - g * group, pidsN); }
    assert pidsN * (pidsM - g * group) == pidsM * pidsN - g * group * pidsN;
    assert tile == g * (group * pidsN) + (n * rows + low) by { assert g * (group * pidsN) == g * group * pidsN; }
    DivModOf(g, n * rows + low, group * pidsN);
  }
}
