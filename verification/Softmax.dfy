/**
 One query row and one output coordinate of the blockwise attention kernels, over the reals.
 A causally masked score is minus infinity: its weight is exactly 0 and it never is the maximum.
 */
module Softmax {
  import opened Prelude

  /** The only facts used about `exp2`: it is positive and turns sums into products. */
  ghost predicate IsExp(e: real -> real)
  {
    (forall x :: e(x) > 0.0) && (forall x, y :: e(x + y) == e(x) * e(y))
  }

  /** `log2` undoes it, and turns products of positive numbers into sums. */
  ghost predicate IsLog(lg: real -> real, e: real -> real)
  {
    (forall x :: lg(e(x)) == x) && (forall a, b :: a > 0.0 && b > 0.0 ==> lg(a * b) == lg(a) + lg(b))
  }

  /** The sum of the weights of columns 0..n-1, each relative to `m`. */
  ghost function Mass(e: real -> real, s: seq<real>, m: real, n: nat): real
    requires n <= |s|
  {
    if n == 0 then 0.0 else Mass(e, s, m, n - 1) + e(s[n - 1] - m)
  }

  /** The same weights applied to the value column. */
  ghost function Weighted(e: real -> real, s: seq<real>, v: seq<real>, m: real, n: nat): real
    requires n <= |s| && n <= |v|
  {
    if n == 0 then 0.0 else Weighted(e, s, v, m, n - 1) + e(s[n - 1] - m) * v[n - 1]
  }

  lemma {:induction false} ExpSum(e: real -> real, x: real, y: real)
    requires IsExp(e)
    ensures e(x) > 0.0 && e(x + y) == e(x) * e(y)
  {
  }

  lemma {:induction false} LogProduct(lg: real -> real, e: real -> real, a: real, x: real, product: real)
    requires IsExp(e) && IsLog(lg, e) && a > 0.0 && product == a * e(x)
    ensures lg(product) == lg(a) + x
  {
  }

  /** Moving the reference from `m` to `m'` multiplies every weight by `e(m - m')`. */
  lemma {:induction false} Rescale(e: real -> real, s: seq<real>, v: seq<real>, m: real, m': real, n: nat)
    requires IsExp(e) && n <= |s| && n <= |v|
    ensures Mass(e, s, m', n) == Mass(e, s, m, n) * e(m - m')
    ensures Weighted(e, s, v, m', n) == Weighted(e, s, v, m, n) * e(m - m')
  {
    hide IsExp;
    if n > 0 {
      Rescale(e, s, v, m, m', n - 1);
      ScaleOne(e, s[n - 1], m, m', v[n - 1]);
    }
  }

  lemma {:induction false} ScaleOne(e: real -> real, x: real, m: real, m': real, v: real)
    requires IsExp(e)
    ensures e(x - m') == e(x - m) * e(m - m')
    ensures e(x - m') * v == e(x - m) * v * e(m - m')
  {
    hide IsExp;
    ExpSum(e, x - m, m - m');
    assert x - m' == (x - m) + (m - m');
  }

  lemma {:induction false} MassPositive(e: real -> real, s: seq<real>, m: real, n: nat)
    requires IsExp(e) && 0 < n <= |s|
    ensures Mass(e, s, m, n) > 0.0
  {
    hide IsExp;
    ExpSum(e, s[n - 1] - m, 0.0);
    if n > 1 { MassPositive(e, s, m, n - 1); }
  }

  /** A running maximum that may still be minus infinity. */
  datatype Running = Running(m: Option<real>, l: real, acc: real)

  /** Minus infinity until the first column, then weights relative to some finite reference. */
  ghost predicate Tracks(e: real -> real, s: seq<real>, v: seq<real>, r: Running, n: nat)
    requires n <= |s| && n <= |v|
  {
    if n == 0 then r == Running(None, 1.0, 0.0)
    else r.m.Some? && r.l == Mass(e, s, r.m.value, n) && r.acc == Weighted(e, s, v, r.m.value, n)
  }

  /** `tl.max` over the lanes that are not masked; None when all are. */
  method Maximum(x: seq<real>, first: nat, lanes: nat, visible: nat) returns (best: Option<real>)
    requires first + lanes <= |x|
    ensures best.None? <==> lanes == 0 || visible <= first
    ensures best.Some? ==> forall col :: first <= col < first + lanes && col < visible ==> x[col] <= best.value
    ensures best.Some? ==> exists col :: first <= col < first + lanes && col < visible && best.value == x[col]
  {
    best := None;
    for lane := 0 to lanes
      invariant best.None? <==> lane == 0 || visible <= first
      invariant best.Some? ==> forall col :: first <= col < first + lane && col < visible ==> x[col] <= best.value
      invariant best.Some? ==> exists col :: first <= col < first + lane && col < visible && best.value == x[col]
    {
      if first + lane < visible && (best.None? || x[first + lane] > best.value) {
        best := Some(x[first + lane]);
      }
    }
  }

  function Larger(m: Option<real>, x: Option<real>): Option<real>
  {
    if m.None? || (x.Some? && x.value > m.value) then x else m
  }

  /** One block. Off the band no lane is masked and the maximum is taken before scaling; on the band it
      is taken after scaling and masking. The sums are rescaled to the new maximum; the odd start
      `l = 1` is multiplied by 0 the first time. Any finite reference gives the same row. */
  method Block(e: real -> real, scale: real, qk: seq<real>, v: seq<real>, s: seq<real>,
               r: Running, first: nat, lanes: nat, visible: nat, onBand: bool) returns (r': Running)
    requires IsExp(e) && lanes > 0 && first + lanes <= |qk| == |v| == |s|
    requires forall i :: 0 <= i < |s| ==> s[i] == qk[i] * scale
    requires visible > 0 && (!onBand ==> first + lanes <= visible)
    requires Tracks(e, s, v, r, Min(first, visible))
    ensures Tracks(e, s, v, r', Min(first + lanes, visible))
  {
    hide IsExp, Mass, Weighted;
    var best := Maximum(if onBand then s else qk, first, lanes, visible);
    var scaled := if !onBand && best.Some? then Some(best.value * scale) else best;
    var m := Larger(r.m, scaled).value;
    var alpha := if r.m.None? then 0.0 else e(r.m.value - m);
    if r.m.Some? { Rescale(e, s, v, r.m.value, m, Min(first, visible)); } else { NoMass(e, s, v, m); }
    var l, acc := r.l * alpha, r.acc * alpha;
    l, acc := AddLanes(e, scale, qk, v, s, m, l, acc, first, lanes, visible);
    r' := Running(Some(m), l, acc);
  }

  lemma {:induction false} NoMass(e: real -> real, s: seq<real>, v: seq<real>, m: real)
    ensures Mass(e, s, m, 0) == 0.0 == Weighted(e, s, v, m, 0)
  {
  }

  method AddLanes(e: real -> real, scale: real, qk: seq<real>, v: seq<real>, ghost s: seq<real>,
                  m: real, l0: real, acc0: real, first: nat, lanes: nat, visible: nat) returns (l: real, acc: real)
    requires first + lanes <= |qk| == |v| == |s|
    requires forall i :: 0 <= i < |s| ==> s[i] == qk[i] * scale
    requires l0 == Mass(e, s, m, Min(first, visible)) && acc0 == Weighted(e, s, v, m, Min(first, visible))
    ensures l == Mass(e, s, m, Min(first + lanes, visible)) && acc == Weighted(e, s, v, m, Min(first + lanes, visible))
  {
    l, acc := l0, acc0;
    for lane := 0 to lanes
      invariant l == Mass(e, s, m, Min(first + lane, visible))
      invariant acc == Weighted(e, s, v, m, Min(first + lane, visible))
    {
      var col := first + lane;
      var p := if col < visible then e(qk[col] * scale - m) else 0.0;
      assert s[col] == qk[col] * scale;
      assert col >= visible ==> p * v[col] == 0.0;
      l, acc := l + p, acc + p * v[col];
    }
  }

  /** `count` blocks in a row, from column `from` on. */
  method Sweep(e: real -> real, scale: real, qk: seq<real>, v: seq<real>, s: seq<real>, r0: Running,
               from: nat, count: nat, blockN: nat, visible: nat, onBand: bool) returns (r: Running)
    requires IsExp(e) && blockN > 0 && from + count * blockN <= |qk| == |v| == |s|
    requires forall i :: 0 <= i < |s| ==> s[i] == qk[i] * scale
    requires visible > 0 && (!onBand ==> from + count * blockN <= visible)
    requires Tracks(e, s, v, r0, Min(from, visible))
    ensures Tracks(e, s, v, r, Min(from + count * blockN, visible))
  {
    hide IsExp, Tracks;
    r := r0;
    var startN := from;
    ghost var turns := 0;
    while startN < from + count * blockN
      invariant turns <= count && startN == from + turns * blockN <= from + count * blockN
      invariant Tracks(e, s, v, r, Min(startN, visible))
      decreases count - turns
    {
      StrideFits(turns, blockN, count);
      r := Block(e, scale, qk, v, s, r, startN, blockN, visible, onBand);
      startN, turns := startN + blockN, turns + 1;
    }
  }

  /** The scores: every dot product times the softmax scale. */
  function Scaled(qk: seq<real>, scale: real): (s: seq<real>)
    ensures |s| == |qk| && forall i :: 0 <= i < |s| ==> s[i] == qk[i] * scale
  {
    seq(|qk|, i requires 0 <= i < |qk| => qk[i] * scale)
  }

  /** Full causal softmax attention of the row at position `p`, and its log-sum-exp in base 2. */
  ghost predicate IsAttention(e: real -> real, lg: real -> real, s: seq<real>, v: seq<real>, p: nat, out: real,
                              log: real)
    requires p < |s| == |v|
  {
    && Mass(e, s, 0.0, p + 1) > 0.0
    && out == Weighted(e, s, v, 0.0, p + 1) / Mass(e, s, 0.0, p + 1)
    && log == lg(Mass(e, s, 0.0, p + 1))
  }

  /** The kernel for the row at absolute position `p`: off-band blocks below the row's tile, then the
      tile's own blocks under the causal mask. Lanes past the sequence load zeros and are masked. */
  method AttendRow(e: real -> real, lg: real -> real, ln2: real, scale: real, qk: seq<real>, v: seq<real>,
                   p: nat, blockM: nat, blockN: nat) returns (out: real, lse: real)
    requires IsExp(e) && IsLog(lg, e) && |qk| == |v| && TileFits(p, blockM, blockN, |qk|)
    ensures p < |qk|
    ensures exists log :: IsAttention(e, lg, Scaled(qk, scale), v, p, out, log) && lse == log * ln2
  {
    hide IsExp, IsLog, TileFits, IsAttention;
    var bound, offBand, perTile := TileBounds(p, blockM, blockN, |qk|);
    var log;
    out, log := AttendTile(e, lg, Scaled(qk, scale), scale, qk, v, p, bound, offBand, perTile, blockN);
    lse := log * ln2;
  }

  /** The key block size divides the query block size, and the row's whole tile has lanes. */
  predicate TileFits(p: nat, blockM: nat, blockN: nat, lanes: nat)
  {
    blockN > 0 && blockM > 0 && blockM % blockN == 0 && (p / blockM + 1) * blockM <= lanes
  }

  method AttendTile(e: real -> real, lg: real -> real, s: seq<real>, scale: real, qk: seq<real>, v: seq<real>,
                    p: nat, bound: nat, offBand: nat, onBand: nat, blockN: nat) returns (out: real, log: real)
    requires IsExp(e) && IsLog(lg, e) && blockN > 0
    requires offBand * blockN == bound <= p < bound + onBand * blockN <= |qk| == |v| == |s|
    requires forall i :: 0 <= i < |s| ==> s[i] == qk[i] * scale
    ensures IsAttention(e, lg, s, v, p, out, log)
  {
    hide IsExp, IsLog, Mass, Weighted, Tracks;
    StartTracks(e, s, v);
    var r := Sweep(e, scale, qk, v, s, Running(None, 1.0, 0.0), 0, offBand, blockN, p + 1, false);
    r := Sweep(e, scale, qk, v, s, r, bound, onBand, blockN, p + 1, true);
    Finish(e, lg, s, v, r, p + 1);
    out, log := r.acc / r.l, r.m.value + lg(r.l);
  }

  /** Where the row's tile begins, and the key blocks before it and in it. */
  method TileBounds(p: nat, blockM: nat, blockN: nat, ghost lanes: nat)
    returns (bound: nat, offBand: nat, perTile: nat)
    requires TileFits(p, blockM, blockN, lanes)
    ensures offBand * blockN == bound <= p < bound + perTile * blockN <= lanes
  {
    var startM := p / blockM;
    perTile := blockM / blockN;
    bound, offBand := startM * blockM, startM * perTile;
    assert perTile * blockN == blockM;
    assert startM * perTile * blockN == startM * (perTile * blockN);
    assert (startM + 1) * blockM == startM * blockM + blockM;
  }

  lemma {:induction false} StartTracks(e: real -> real, s: seq<real>, v: seq<real>)
    ensures Tracks(e, s, v, Running(None, 1.0, 0.0), 0)
  {
  }

  lemma {:induction false} StrideFits(turns: nat, stride: nat, total: nat)
    requires turns * stride < total * stride
    ensures turns * stride + stride == (turns + 1) * stride <= total * stride
  {
    if turns >= total { MulLe(total, turns, stride); }
    MulLe(turns + 1, total, stride);
  }

  /** The reference cancels in the quotient and adds back in the logarithm. */
  lemma {:induction false} Finish(e: real -> real, lg: real -> real, s: seq<real>, v: seq<real>, r: Running, n: nat)
    requires IsExp(e) && IsLog(lg, e) && 0 < n <= |s| && n <= |v| && Tracks(e, s, v, r, n)
    ensures r.m.Some? && r.l > 0.0 && Mass(e, s, 0.0, n) > 0.0
    ensures r.acc / r.l == Weighted(e, s, v, 0.0, n) / Mass(e, s, 0.0, n)
    ensures r.m.value + lg(r.l) == lg(Mass(e, s, 0.0, n))
  {
    hide IsExp, IsLog, Mass, Weighted;
    var m := r.m.value;
    Rescale(e, s, v, m, 0.0, n);
    MassPositive(e, s, m, n);
    MassPositive(e, s, 0.0, n);
    assert m - 0.0 == m && e(m - 0.0) == e(m);
    ExpSum(e, m, 0.0);
    LogProduct(lg, e, r.l, m, Mass(e, s, 0.0, n));
  }

  /** A column that is 1 at one position reads off that position's weight. */
  lemma {:induction false} UnitWeighted(e: real -> real, s: seq<real>, v: seq<real>, k: nat, n: nat)
    requires k < |s| == |v| && n <= |s| && forall i :: 0 <= i < |v| ==> v[i] == if i == k then 1.0 else 0.0
    ensures Weighted(e, s, v, 0.0, n) == if k < n then e(s[k]) else 0.0
  {
    if n > 0 {
      UnitWeighted(e, s, v, k, n - 1);
      assert s[n - 1] - 0.0 == s[n - 1];
      assert e(s[n - 1]) * 1.0 == e(s[n - 1]) && e(s[n - 1]) * 0.0 == 0.0;
    }
  }

  lemma {:induction false} LinearWeighted(e: real -> real, s: seq<real>, v: seq<real>, a: seq<real>, r: real,
                                          b: seq<real>, n: nat)
    requires n <= |s| == |v| == |a| == |b| && forall i :: 0 <= i < |v| ==> v[i] == a[i] + r * b[i]
    ensures Weighted(e, s, v, 0.0, n) == Weighted(e, s, a, 0.0, n) + r * Weighted(e, s, b, 0.0, n)
  {
    if n > 0 {
      LinearWeighted(e, s, v, a, r, b, n - 1);
      var w := e(s[n - 1] - 0.0);
      Spread(w, a[n - 1], r, b[n - 1], Weighted(e, s, b, 0.0, n - 1));
    }
  }

  lemma {:induction false} Spread(w: real, x: real, r: real, y: real, z: real)
    ensures w * (x + r * y) + r * z == w * x + r * (z + w * y)
  {
  }

  lemma {:induction false} ConstantWeighted(e: real -> real, s: seq<real>, v: seq<real>, x: real, n: nat)
    requires n <= |s| == |v| && forall i :: 0 <= i < |v| ==> v[i] == x
    ensures Weighted(e, s, v, 0.0, n) == Mass(e, s, 0.0, n) * x
  {
    if n > 0 { ConstantWeighted(e, s, v, x, n - 1); }
  }

  /** What attention is, said without its sums. It is an average: equal values give that value. */
  lemma {:induction false} AttentionIsAverage(e: real -> real, lg: real -> real, s: seq<real>, v: seq<real>, p: nat,
                                              out: real, log: real, x: real)
    requires p < |s| == |v| && IsAttention(e, lg, s, v, p, out, log)
    requires forall i :: 0 <= i < |v| ==> v[i] == x
    ensures out == x
  {
    hide Mass, Weighted;
    ConstantWeighted(e, s, v, x, p + 1);
  }

  /** A position's share is proportional to the exponential of its score, and later positions have none. */
  lemma {:induction false} AttentionShares(e: real -> real, lg: real -> real, s: seq<real>, v: seq<real>, u: seq<real>,
                                           p: nat, out: real, log: real, out': real, log': real, k: nat, k': nat)
    requires p < |s| == |v| == |u| && k' <= p && k < |s|
    requires IsAttention(e, lg, s, v, p, out, log) && IsAttention(e, lg, s, u, p, out', log')
    requires forall i :: 0 <= i < |v| ==> v[i] == if i == k then 1.0 else 0.0
    requires forall i :: 0 <= i < |u| ==> u[i] == if i == k' then 1.0 else 0.0
    ensures out * e(s[k']) == if k <= p then out' * e(s[k]) else 0.0
  {
    hide Mass, Weighted;
    var z := Mass(e, s, 0.0, p + 1);
    UnitWeighted(e, s, v, k, p + 1);
    UnitWeighted(e, s, u, k', p + 1);
    CrossRatio(if k <= p then e(s[k]) else 0.0, e(s[k']), z, out, out');
  }

  lemma {:induction false} CrossRatio(x: real, y: real, z: real, a: real, b: real)
    requires z > 0.0 && a == x / z && b == y / z
    ensures a * y == b * x
  {
    assert a * z == x && b * z == y;
    assert a * (b * z) == b * (a * z);
  }

  /** It is linear in the values. Together the three determine it. */
  lemma {:induction false} AttentionIsLinear(e: real -> real, lg: real -> real, s: seq<real>, v: seq<real>,
                                             a: seq<real>, r: real, b: seq<real>, p: nat, out: real, log: real,
                                             outA: real, logA: real, outB: real, logB: real)
    requires p < |s| == |v| == |a| == |b| && forall i :: 0 <= i < |v| ==> v[i] == a[i] + r * b[i]
    requires IsAttention(e, lg, s, v, p, out, log) && IsAttention(e, lg, s, a, p, outA, logA)
    requires IsAttention(e, lg, s, b, p, outB, logB)
    ensures out == outA + r * outB
  {
    hide Mass, Weighted;
    LinearWeighted(e, s, v, a, r, b, p + 1);
    QuotientOfSum(Weighted(e, s, a, 0.0, p + 1), r, Weighted(e, s, b, 0.0, p + 1), Mass(e, s, 0.0, p + 1));
  }

  lemma {:induction false} QuotientOfSum(x: real, r: real, y: real, z: real)
    requires z > 0.0
    ensures (x + r * y) / z == x / z + r * (y / z)
  {
    var q, u := x / z, y / z;
    assert q * z == x && u * z == y;
    assert (q + r * u) * z == x + r * y;
  }
}
