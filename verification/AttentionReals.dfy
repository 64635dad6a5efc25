/**
 What the attention kernel computes, over the reals: with `exp2` and true maxima in place of the abstract operations,
 every coordinate of every row that a launch stores is causal softmax attention.
 */
module AttentionReals {
  import opened Prelude
  import opened Attention
  import Softmax
  import opened AttentionKernel

  /** The largest lane that is not masked. */
  function Largest(x: seq<Option<real>>): (best: Option<real>)
    ensures best.None? <==> forall i :: 0 <= i < |x| ==> x[i].None?
  {
    if x == [] then None else Softmax.Larger(Largest(x[..|x| - 1]), x[|x| - 1])
  }

  function Times(x: real, y: real): real { x * y }

  function ScaledBy(x: Option<real>, scale: real): Option<real>
  {
    if x.Some? then Some(Times(x.value, scale)) else None
  }

  function AllScaled(x: seq<Option<real>>, scale: real): (y: seq<Option<real>>)
    ensures |y| == |x| && forall i :: 0 <= i < |x| ==> y[i] == ScaledBy(x[i], scale)
  {
    seq(|x|, i requires 0 <= i < |x| => ScaledBy(x[i], scale))
  }

  function Total(w: seq<real>): real
  {
    if w == [] then 0.0 else Total(w[..|w| - 1]) + w[|w| - 1]
  }

  /** `exp2` of minus infinity is 0. */
  function ExpOf(e: real -> real, x: Option<real>, m: Option<real>): real
  {
    if x.Some? && m.Some? then e(x.value - m.value) else 0.0
  }

  function MaxOff(m: Option<real>, x: seq<Option<real>>, scale: real): Option<real>
  {
    Softmax.Larger(m, ScaledBy(Largest(x), scale))
  }

  function MaxOn(m: Option<real>, x: seq<Option<real>>, scale: real): Option<real>
  {
    Softmax.Larger(m, Largest(AllScaled(x, scale)))
  }

  /** The kernel's operations over the reals: off the band the maximum is taken before scaling, on the band after. */
  function RealOps(e: real -> real, scale: real, dot: (seq<real>, seq<real>) -> real): Ops<real>
  {
    Ops(0.0, dot,
        (m, x) => MaxOff(m, x, scale),
        (m, x) => MaxOn(m, x, scale),
        (x, m) => ExpOf(e, ScaledBy(Some(x), scale), m),
        (m, m') => ExpOf(e, m, m'),
        (x, a) => x * a,
        (acc, w, v) => acc + w * v,
        (l, a, w) => l * a + Total(w),
        (x, l) => if l == 0.0 then 0.0 else x / l,
        1.0)
  }

  /** What the proof uses of these operations. */
  lemma {:induction false} Weighs(e: real -> real, scale: real, dot: (seq<real>, seq<real>) -> real, x: real, m: real)
    ensures RealOps(e, scale, dot).weight(x, Some(m)) == e(x * scale - m)
  {
    ExpOfScaled(e, x, scale, m);
    hide ExpOf, ScaledBy;
    assert RealOps(e, scale, dot).weight(x, Some(m)) == ExpOf(e, ScaledBy(Some(x), scale), Some(m));
  }

  lemma {:induction false} ExpOfScaled(e: real -> real, x: real, scale: real, m: real)
    ensures ExpOf(e, ScaledBy(Some(x), scale), Some(m)) == e(x * scale - m)
  {
    assert ScaledBy(Some(x), scale) == Some(Times(x, scale));
  }

  lemma {:induction false} Rescales(e: real -> real, scale: real, dot: (seq<real>, seq<real>) -> real,
                                    m: Option<real>, m': real, x: real)
    ensures var ops := RealOps(e, scale, dot);
            && ops.alpha(m, Some(m')) == (if m.Some? then e(m.value - m') else 0.0)
            && ops.scaleBy(x, ops.alpha(m, Some(m'))) == x * ops.alpha(m, Some(m'))
  {
  }

  lemma {:induction false} Adds(e: real -> real, scale: real, dot: (seq<real>, seq<real>) -> real, acc: real, w: real,
                                v: real)
    ensures RealOps(e, scale, dot).zero == 0.0 && RealOps(e, scale, dot).fma(acc, w, v) == acc + w * v
  {
  }

  lemma {:induction false} Sums(e: real -> real, scale: real, dot: (seq<real>, seq<real>) -> real, l: real, a: real,
                                w: seq<real>)
    ensures RealOps(e, scale, dot).sum(l, a, w) == l * a + Total(w)
  {
  }

  lemma {:induction false} Maxima(e: real -> real, scale: real, dot: (seq<real>, seq<real>) -> real,
                                  m: Option<real>, lanes: seq<Option<real>>)
    ensures RealOps(e, scale, dot).maxOff(m, lanes) == MaxOff(m, lanes, scale)
    ensures RealOps(e, scale, dot).maxOn(m, lanes) == MaxOn(m, lanes, scale)
  {
    hide MaxOff, MaxOn;
  }

  /** A block with a lane that is not masked has a maximum; a masked block keeps the old one. */
  lemma {:induction false} HasMaximum(m: Option<real>, lanes: seq<Option<real>>, scale: real, i: nat)
    requires m.Some? || (i < |lanes| && lanes[i].Some?)
    ensures MaxOff(m, lanes, scale).Some? && MaxOn(m, lanes, scale).Some?
  {
    hide Largest;
    if m.None? { assert AllScaled(lanes, scale)[i].Some?; }
  }

  /** The scores and one value column as the kernel loads them. */
  ghost predicate Loads(dot: (seq<real>, seq<real>) -> real, ops: Ops<real>, scale: real, q: seq<real>,
                        src: Source<real>, dim: nat, d: nat, s: seq<real>, v: seq<real>)
    requires d < dim
  {
    && |s| == |v|
    && (forall i :: 0 <= i < |s| ==> s[i] == dot(q, KeyOf(ops, src, dim, i)) * scale)
    && (forall i :: 0 <= i < |v| ==> v[i] == ValueOf(ops, src, dim, i)[d])
  }

  /** One coordinate of the running sums. */
  function At(r: Running<real>, d: nat): Softmax.Running
    requires d < |r.acc|
  {
    Softmax.Running(r.m, r.l, r.acc[d])
  }

  lemma {:induction false} TotalAppend(w: seq<real>, x: real)
    ensures Total(w + [x]) == Total(w) + x
  {
    assert (w + [x])[..|w|] == w;
  }

  /** The weight of one lane, relative to `m`. */
  lemma {:induction false} LaneWeight(e: real -> real, scale: real, dot: (seq<real>, seq<real>) -> real, q: seq<real>,
                                      src: Source<real>, sh: Shape, d: nat, first: nat, visible: nat, m: real,
                                      s: seq<real>, v: seq<real>, k: nat)
    requires d < sh.dim && k < sh.blockN && first + sh.blockN <= |s|
    requires Loads(dot, RealOps(e, scale, dot), scale, q, src, sh.dim, d, s, v)
    ensures var ops := RealOps(e, scale, dot);
            var w := Weights(ops, Lanes(ops, q, src, sh, first, visible), Some(m));
            && w[k] == (if first + k < visible then e(s[first + k] - m) else 0.0)
            && ValueOf(ops, src, sh.dim, first + k)[d] == v[first + k]
  {
    var ops := RealOps(e, scale, dot);
    var lanes := Lanes(ops, q, src, sh, first, visible);
    var x := dot(q, KeyOf(ops, src, sh.dim, first + k));
    assert lanes[k] == if first + k < visible then Some(x) else None;
    Weighs(e, scale, dot, x, m);
    Adds(e, scale, dot, 0.0, 0.0, 0.0);
    assert s[first + k] == x * scale;
  }

  /** The next lane's share of both sums. */
  lemma {:induction false} NextLaneAdds(e: real -> real, s: seq<real>, v: seq<real>, m: real, first: nat, visible: nat,
                                        k: nat, w: real)
    requires first + k < |s| == |v| && visible <= |s|
    requires w == if first + k < visible then e(s[first + k] - m) else 0.0
    ensures Softmax.Mass(e, s, m, Min(first + k + 1, visible)) == Softmax.Mass(e, s, m, Min(first + k, visible)) + w
    ensures Softmax.Weighted(e, s, v, m, Min(first + k + 1, visible))
            == Softmax.Weighted(e, s, v, m, Min(first + k, visible)) + w * v[first + k]
  {
  }

  /** The weights of the first `n` lanes, relative to `m`: their sum, and the sum of the weighted values. */
  lemma {:induction false} LanesAdd(e: real -> real, scale: real, dot: (seq<real>, seq<real>) -> real, q: seq<real>,
                                    src: Source<real>, sh: Shape, d: nat, first: nat, visible: nat, m: real,
                                    s: seq<real>, v: seq<real>, w: seq<real>, acc: real, n: nat)
    requires d < sh.dim && n <= sh.blockN && first + sh.blockN <= |s| == |v| && visible <= |s|
    requires Loads(dot, RealOps(e, scale, dot), scale, q, src, sh.dim, d, s, v)
    requires var ops := RealOps(e, scale, dot); w == Weights(ops, Lanes(ops, q, src, sh, first, visible), Some(m))
    requires acc == Softmax.Weighted(e, s, v, m, Min(first, visible))
    ensures Softmax.Mass(e, s, m, Min(first, visible)) + Total(w[..n]) == Softmax.Mass(e, s, m, Min(first + n, visible))
    ensures DotValues(RealOps(e, scale, dot), w, src, sh.dim, first, d, acc, n)
            == Softmax.Weighted(e, s, v, m, Min(first + n, visible))
  {
    hide RealOps, Lanes, Weights, Loads, Softmax.Mass, Softmax.Weighted, ValueOf;
    var ops := RealOps(e, scale, dot);
    if n == 0 {
      assert w[..0] == [];
    } else {
      LanesAdd(e, scale, dot, q, src, sh, d, first, visible, m, s, v, w, acc, n - 1);
      LaneWeight(e, scale, dot, q, src, sh, d, first, visible, m, s, v, n - 1);
      NextLaneAdds(e, s, v, m, first, visible, n - 1, w[n - 1]);
      assert w[..n] == w[..n - 1] + [w[n - 1]];
      TotalAppend(w[..n - 1], w[n - 1]);
      Adds(e, scale, dot, DotValues(ops, w, src, sh.dim, first, d, acc, n - 1), w[n - 1], v[first + n - 1]);
    }
  }

  /** One block as its parts. */
  lemma {:induction false} BlockParts(ops: Ops<real>, q: seq<real>, src: Source<real>, sh: Shape, r: Running<real>,
                                      first: nat, visible: nat, onBand: bool, d: nat)
    requires d < sh.dim == |r.acc|
    ensures var lanes := Lanes(ops, q, src, sh, first, visible);
            var m := if onBand then ops.maxOn(r.m, lanes) else ops.maxOff(r.m, lanes);
            var w, a := Weights(ops, lanes, m), ops.alpha(r.m, m);
            At(Block(ops, q, src, sh, r, first, visible, onBand), d)
            == Softmax.Running(m, ops.sum(r.l, a, w),
                               DotValues(ops, w, src, sh.dim, first, d, ops.scaleBy(r.acc[d], a), |w|))
  {
    hide Lanes, Weights, DotValues;
  }

  /** One block keeps the sums of a coordinate relative to the running maximum. */
  lemma {:induction false} BlockTracks(e: real -> real, scale: real, dot: (seq<real>, seq<real>) -> real, q: seq<real>,
                                       src: Source<real>, sh: Shape, d: nat, r: Running<real>, first: nat,
                                       visible: nat, onBand: bool, s: seq<real>, v: seq<real>)
    requires Softmax.IsExp(e) && d < sh.dim == |r.acc| && 0 < sh.blockN && first + sh.blockN <= |s| == |v|
    requires 0 < visible <= |s| && Loads(dot, RealOps(e, scale, dot), scale, q, src, sh.dim, d, s, v)
    requires Softmax.Tracks(e, s, v, At(r, d), Min(first, visible))
    ensures var r' := Block(RealOps(e, scale, dot), q, src, sh, r, first, visible, onBand);
            Softmax.Tracks(e, s, v, At(r', d), Min(first + sh.blockN, visible))
  {
    hide RealOps, Weights, Loads, Softmax.Mass, Softmax.Weighted, Softmax.IsExp, Block, DotValues, Total;
    var ops := RealOps(e, scale, dot);
    var lanes, n0 := Lanes(ops, q, src, sh, first, visible), Min(first, visible);
    Maxima(e, scale, dot, r.m, lanes);
    HasMaximum(r.m, lanes, scale, 0);
    var m := (if onBand then ops.maxOn(r.m, lanes) else ops.maxOff(r.m, lanes)).value;
    var w, a := Weights(ops, lanes, Some(m)), ops.alpha(r.m, Some(m));
    if r.m.Some? { Softmax.Rescale(e, s, v, r.m.value, m, n0); } else { Softmax.NoMass(e, s, v, m); }
    Rescales(e, scale, dot, r.m, m, r.acc[d]);
    Sums(e, scale, dot, r.l, a, w);
    LanesAdd(e, scale, dot, q, src, sh, d, first, visible, m, s, v, w, ops.scaleBy(r.acc[d], a), sh.blockN);
    assert w[..sh.blockN] == w;
    BlockParts(ops, q, src, sh, r, first, visible, onBand, d);
  }

  lemma {:induction false} SweepTracks(e: real -> real, scale: real, dot: (seq<real>, seq<real>) -> real, q: seq<real>,
                                       src: Source<real>, sh: Shape, d: nat, r: Running<real>, from: nat, count: nat,
                                       to: nat, visible: nat, onBand: bool, s: seq<real>, v: seq<real>)
    requires Softmax.IsExp(e) && d < sh.dim == |r.acc| && 0 < sh.blockN
    requires from + count * sh.blockN == to <= |s| == |v| && 0 < visible <= |s|
    requires Loads(dot, RealOps(e, scale, dot), scale, q, src, sh.dim, d, s, v)
    requires Softmax.Tracks(e, s, v, At(r, d), Min(from, visible))
    ensures var r' := Sweep(RealOps(e, scale, dot), q, src, sh, r, from, count, visible, onBand);
            Softmax.Tracks(e, s, v, At(r', d), Min(to, visible))
  {
    hide RealOps, Loads, Softmax.Tracks, Softmax.IsExp, Block;
    if count > 0 {
      assert (count - 1) * sh.blockN + sh.blockN == count * sh.blockN;
      MulLe(0, count - 1, sh.blockN);
      SweepTracks(e, scale, dot, q, src, sh, d, r, from, count - 1, to - sh.blockN, visible, onBand, s, v);
      BlockTracks(e, scale, dot, q, src, sh, d,
                  Sweep(RealOps(e, scale, dot), q, src, sh, r, from, count - 1, visible, onBand),
                  to - sh.blockN, visible, onBand, s, v);
    }
  }

  lemma {:induction false} BeginTracks(e: real -> real, scale: real, dot: (seq<real>, seq<real>) -> real, sh: Shape,
                                       d: nat, s: seq<real>, v: seq<real>)
    requires d < sh.dim
    ensures Softmax.Tracks(e, s, v, At(Begin(RealOps(e, scale, dot), sh), d), 0)
  {
  }

  lemma {:induction false} TileEnds(sh: Shape, p: nat)
    requires ValidShape(sh)
    ensures OffBand(sh, p) * sh.blockN == BandStart(sh, p) <= p < BandStart(sh, p) + PerTile(sh) * sh.blockN
  {
    OffBandIsCausal(p, sh);
    assert PerTile(sh) * sh.blockN == sh.blockM;
  }

  /** A coordinate of the row, over all positions that the kernel loads. */
  lemma {:induction false} RowOverLoaded(e: real -> real, lg: real -> real, scale: real,
                                         dot: (seq<real>, seq<real>) -> real, q: seq<real>, src: Source<real>,
                                         sh: Shape, p: nat, d: nat, s: seq<real>, v: seq<real>) returns (log: real)
    requires Softmax.IsExp(e) && Softmax.IsLog(lg, e) && ValidShape(sh) && p < src.len <= |s| == |v| && d < sh.dim
    requires BandStart(sh, p) + PerTile(sh) * sh.blockN <= |s|
    requires Loads(dot, RealOps(e, scale, dot), scale, q, src, sh.dim, d, s, v)
    ensures Softmax.IsAttention(e, lg, s, v, p, Row(RealOps(e, scale, dot), q, src, sh, p)[d], log)
  {
    hide RealOps, Loads, Sweep, Softmax.Tracks, Softmax.IsExp, Softmax.IsLog, OffBand, BandStart, PerTile, Row, Begin,
      Softmax.Mass, Softmax.Weighted;
    var ops := RealOps(e, scale, dot);
    TileEnds(sh, p);
    BeginTracks(e, scale, dot, sh, d, s, v);
    SweepTracks(e, scale, dot, q, src, sh, d, Begin(ops, sh), 0, OffBand(sh, p), BandStart(sh, p),
                src.len, false, s, v);
    var r1 := Sweep(ops, q, src, sh, Begin(ops, sh), 0, OffBand(sh, p), src.len, false);
    SweepTracks(e, scale, dot, q, src, sh, d, r1, BandStart(sh, p), PerTile(sh),
                BandStart(sh, p) + PerTile(sh) * sh.blockN, p + 1, true, s, v);
    var r2 := Sweep(ops, q, src, sh, r1, BandStart(sh, p), PerTile(sh), p + 1, true);
    RowParts(ops, q, src, sh, p);
    Softmax.Finish(e, lg, s, v, At(r2, d), p + 1);
    Divides(e, scale, dot, r2.acc[d], r2.l);
    log := r2.m.value + lg(r2.l);
  }

  lemma {:induction false} Divides(e: real -> real, scale: real, dot: (seq<real>, seq<real>) -> real, x: real, l: real)
    requires l > 0.0
    ensures RealOps(e, scale, dot).finish(x, l) == x / l
  {
  }

  /** The sums look at the first `n` positions only. */
  lemma {:induction false} SamePrefix(e: real -> real, s: seq<real>, t: seq<real>, v: seq<real>, u: seq<real>, m: real,
                                      n: nat)
    requires n <= |s| && n <= |t| && n <= |v| && n <= |u|
    requires forall i :: 0 <= i < n ==> s[i] == t[i] && v[i] == u[i]
    ensures Softmax.Mass(e, s, m, n) == Softmax.Mass(e, t, m, n)
    ensures Softmax.Weighted(e, s, v, m, n) == Softmax.Weighted(e, t, u, m, n)
  {
    if n > 0 { SamePrefix(e, s, t, v, u, m, n - 1); }
  }

  /** A dot product that zeros behind a vector do not change. */
  ghost predicate IgnoresPadding(dot: (seq<real>, seq<real>) -> real, dim: nat)
  {
    forall q, k: seq<real> :: |k| <= dim ==> dot(q, Padded(k, dim)) == dot(q, k)
  }

  function Padded(k: seq<real>, dim: nat): seq<real>
    requires |k| <= dim
  {
    k + seq(dim - |k|, _ => 0.0)
  }

  /** The scores of one query against its own and all earlier keys. */
  function Scores(dot: (seq<real>, seq<real>) -> real, scale: real, q: seq<real>, keys: seq<seq<real>>, p: nat)
    : (s: seq<real>)
    requires p < |keys|
    ensures |s| == p + 1
  {
    seq(p + 1, n requires 0 <= n <= p => dot(q, keys[n]) * scale)
  }

  function Column(values: seq<seq<real>>, p: nat, d: nat): (v: seq<real>)
    requires p < |values| && forall n :: 0 <= n <= p ==> d < |values[n]|
    ensures |v| == p + 1
  {
    seq(p + 1, n requires 0 <= n <= p => values[n][d])
  }

  /** The keys and values of the positions up to `p` as they are, no longer than the lanes of a block. */
  ghost predicate Gives(src: Source<real>, dim: nat, keys: seq<seq<real>>, values: seq<seq<real>>, p: nat, d: nat)
  {
    && p < |keys| && p < |values| && p < src.len
    && forall n :: 0 <= n <= p ==>
         src.key(n) == keys[n] && src.value(n) == values[n] && |keys[n]| <= dim && d < |values[n]| <= dim
  }

  /** The meaning of the kernel's row. For every exponential, every dot product, every block shape and every sequence:
      each coordinate is the sum of the values of positions 0..p, weighted by the exponentials of their scores, over the
      sum of these weights. */
  lemma {:induction false} RowIsAttention(e: real -> real, lg: real -> real, scale: real,
                                          dot: (seq<real>, seq<real>) -> real, q: seq<real>, src: Source<real>,
                                          sh: Shape, keys: seq<seq<real>>, values: seq<seq<real>>, p: nat, d: nat)
    returns (log: real)
    requires Softmax.IsExp(e) && Softmax.IsLog(lg, e) && IgnoresPadding(dot, sh.dim) && ValidShape(sh)
    requires Gives(src, sh.dim, keys, values, p, d)
    ensures d < sh.dim
    ensures Softmax.IsAttention(e, lg, Scores(dot, scale, q, keys, p), Column(values, p, d), p,
                                Row(RealOps(e, scale, dot), q, src, sh, p)[d], log)
  {
    hide Row, Softmax.IsExp, Softmax.IsLog, ValidShape, BandStart, PerTile, RealOps, IgnoresPadding, Softmax.Mass,
      Softmax.Weighted;
    assert d < sh.dim by { assert |values[0]| <= sh.dim; }
    var ops := RealOps(e, scale, dot);
    TileEnds(sh, p);
    var n := Max(src.len, BandStart(sh, p) + PerTile(sh) * sh.blockN);
    var s := seq(n, i requires 0 <= i < n => dot(q, KeyOf(ops, src, sh.dim, i)) * scale);
    var v := seq(n, i requires 0 <= i < n => ValueOf(ops, src, sh.dim, i)[d]);
    LoadsAll(dot, ops, scale, q, src, sh.dim, d, s, v);
    log := RowOverLoaded(e, lg, scale, dot, q, src, sh, p, d, s, v);
    var t, u := Scores(dot, scale, q, keys, p), Column(values, p, d);
    forall i | 0 <= i <= p ensures s[i] == t[i] && v[i] == u[i] {
      LoadedAt(e, scale, dot, q, src, sh.dim, keys, values, p, d, i);
    }
    SamePrefix(e, s, t, v, u, 0.0, p + 1);
  }

  lemma {:induction false} LoadsAll(dot: (seq<real>, seq<real>) -> real, ops: Ops<real>, scale: real, q: seq<real>,
                                    src: Source<real>, dim: nat, d: nat, s: seq<real>, v: seq<real>)
    requires d < dim && |s| == |v|
    requires forall i :: 0 <= i < |s| ==> s[i] == dot(q, KeyOf(ops, src, dim, i)) * scale
    requires forall i :: 0 <= i < |v| ==> v[i] == ValueOf(ops, src, dim, i)[d]
    ensures Loads(dot, ops, scale, q, src, dim, d, s, v)
  {
  }

  lemma {:induction false} LoadedAt(e: real -> real, scale: real, dot: (seq<real>, seq<real>) -> real, q: seq<real>,
                                    src: Source<real>, dim: nat, keys: seq<seq<real>>, values: seq<seq<real>>, p: nat,
                                    d: nat, n: nat)
    requires IgnoresPadding(dot, dim) && Gives(src, dim, keys, values, p, d) && n <= p && d < dim
    ensures var ops := RealOps(e, scale, dot);
            dot(q, KeyOf(ops, src, dim, n)) == dot(q, keys[n]) && ValueOf(ops, src, dim, n)[d] == values[n][d]
  {
    var ops := RealOps(e, scale, dot);
    assert src.key(n) == keys[n] && |keys[n]| <= dim;
    assert KeyOf(ops, src, dim, n) == Padded(keys[n], dim);
  }

  /** The running maximum is the largest score seen so far. */
  ghost predicate IsPeak(s: seq<real>, m: Option<real>, n: nat)
    requires n <= |s|
  {
    if n == 0 then m == None
    else m.Some? && (forall i :: 0 <= i < n ==> s[i] <= m.value) && exists i :: 0 <= i < n && s[i] == m.value
  }

  lemma {:induction false} LargestIs(x: seq<Option<real>>)
    ensures var best := Largest(x);
            && (forall i :: 0 <= i < |x| && x[i].Some? ==> best.Some? && x[i].value <= best.value)
            && (best.Some? ==> exists i :: 0 <= i < |x| && x[i] == best)
  {
    if x != [] {
      var n := |x| - 1;
      LargestIs(x[..n]);
      if Largest(x) == x[n] && x[n].Some? {
        assert x[n] == Largest(x);
      } else if Largest(x[..n]).Some? {
        var i :| 0 <= i < n && x[..n][i] == Largest(x[..n]);
        assert x[i] == Largest(x);
      }
    }
  }

  /** With a scale that is not negative it does not matter whether the maximum is taken before or after scaling. */
  lemma {:induction false} MaximaAgree(m: Option<real>, lanes: seq<Option<real>>, scale: real)
    requires scale >= 0.0
    ensures MaxOff(m, lanes, scale) == MaxOn(m, lanes, scale)
  {
    LargestScaled(lanes, scale);
  }

  lemma {:induction false} LargestScaled(x: seq<Option<real>>, scale: real)
    requires scale >= 0.0
    ensures Largest(AllScaled(x, scale)) == ScaledBy(Largest(x), scale)
  {
    if x != [] {
      var n := |x| - 1;
      LargestScaled(x[..n], scale);
      assert AllScaled(x, scale)[..n] == AllScaled(x[..n], scale);
      var a, b := Largest(x[..n]), x[n];
      if a.Some? && b.Some? { ScaleOrder(a.value, b.value, scale); }
    }
  }

  lemma {:induction false} ScaleOrder(a: real, b: real, scale: real)
    requires scale >= 0.0
    ensures a <= b ==> Times(a, scale) <= Times(b, scale)
    ensures b <= a ==> Times(b, scale) <= Times(a, scale)
  {
    if a <= b { TimesGrows(a, b, scale); }
    if b <= a { TimesGrows(b, a, scale); }
  }

  lemma {:induction false} TimesGrows(a: real, b: real, scale: real)
    requires a <= b && scale >= 0.0
    ensures Times(a, scale) <= Times(b, scale)
  {
    var d := b - a;
    assert d * scale >= 0.0;
    assert b * scale == a * scale + d * scale;
  }

  lemma {:induction false} ScaledLane(e: real -> real, scale: real, dot: (seq<real>, seq<real>) -> real, q: seq<real>,
                                      src: Source<real>, sh: Shape, d: nat, first: nat, visible: nat, s: seq<real>,
                                      v: seq<real>, k: nat)
    requires d < sh.dim && k < sh.blockN && first + sh.blockN <= |s|
    requires Loads(dot, RealOps(e, scale, dot), scale, q, src, sh.dim, d, s, v)
    ensures var x := AllScaled(Lanes(RealOps(e, scale, dot), q, src, sh, first, visible), scale);
            x[k] == if first + k < visible then Some(s[first + k]) else None
  {
    var y := dot(q, KeyOf(RealOps(e, scale, dot), src, sh.dim, first + k));
    assert s[first + k] == Times(y, scale);
  }

  /** One block keeps the running maximum, so no weight is more than `exp2` of zero. */
  lemma {:induction false} BlockPeaks(e: real -> real, scale: real, dot: (seq<real>, seq<real>) -> real, q: seq<real>,
                                      src: Source<real>, sh: Shape, d: nat, r: Running<real>, first: nat,
                                      visible: nat, onBand: bool, s: seq<real>, v: seq<real>)
    requires scale >= 0.0 && d < sh.dim == |r.acc| && 0 < sh.blockN && first + sh.blockN <= |s|
    requires 0 < visible <= |s| && Loads(dot, RealOps(e, scale, dot), scale, q, src, sh.dim, d, s, v)
    requires IsPeak(s, r.m, Min(first, visible))
    ensures var r' := Block(RealOps(e, scale, dot), q, src, sh, r, first, visible, onBand);
            IsPeak(s, r'.m, Min(first + sh.blockN, visible))
  {
    hide RealOps, Loads, Lanes, Largest, Weights, DotValues;
    var lanes := Lanes(RealOps(e, scale, dot), q, src, sh, first, visible);
    var x := AllScaled(lanes, scale);
    Maxima(e, scale, dot, r.m, lanes);
    MaximaAgree(r.m, lanes, scale);
    forall k: nat | k < sh.blockN ensures x[k] == if first + k < visible then Some(s[first + k]) else None {
      ScaledLane(e, scale, dot, q, src, sh, d, first, visible, s, v, k);
    }
    PeakMoves(s, r.m, first, visible, x);
  }

  lemma {:induction false} PeakMoves(s: seq<real>, m: Option<real>, first: nat, visible: nat, x: seq<Option<real>>)
    requires x != [] && first + |x| <= |s| && 0 < visible <= |s| && IsPeak(s, m, Min(first, visible))
    requires forall k :: 0 <= k < |x| ==> x[k] == if first + k < visible then Some(s[first + k]) else None
    ensures IsPeak(s, Softmax.Larger(m, Largest(x)), Min(first + |x|, visible))
  {
    hide Largest;
    LargestIs(x);
    var best, n := Largest(x), Min(first + |x|, visible);
    var m' := Softmax.Larger(m, best);
    if first < visible { assert x[0].Some?; }
    forall i | 0 <= i < n ensures s[i] <= m'.value {
      if i >= first { assert x[i - first] == Some(s[i]); }
    }
    if m'.Some? && m' == best {
      var k :| 0 <= k < |x| && x[k] == best;
      assert s[first + k] == m'.value && first + k < n;
    }
  }

  /** Both loops of a row: at its end the maximum is the largest score of positions 0..p. */
  lemma {:induction false} SweepPeaks(e: real -> real, scale: real, dot: (seq<real>, seq<real>) -> real, q: seq<real>,
                                      src: Source<real>, sh: Shape, d: nat, r: Running<real>, from: nat, count: nat,
                                      to: nat, visible: nat, onBand: bool, s: seq<real>, v: seq<real>)
    requires scale >= 0.0 && d < sh.dim == |r.acc| && 0 < sh.blockN
    requires from + count * sh.blockN == to <= |s| && 0 < visible <= |s|
    requires Loads(dot, RealOps(e, scale, dot), scale, q, src, sh.dim, d, s, v)
    requires IsPeak(s, r.m, Min(from, visible))
    ensures var r' := Sweep(RealOps(e, scale, dot), q, src, sh, r, from, count, visible, onBand);
            IsPeak(s, r'.m, Min(to, visible))
  {
    hide RealOps, Loads, IsPeak, Block;
    if count > 0 {
      assert (count - 1) * sh.blockN + sh.blockN == count * sh.blockN;
      MulLe(0, count - 1, sh.blockN);
      SweepPeaks(e, scale, dot, q, src, sh, d, r, from, count - 1, to - sh.blockN, visible, onBand, s, v);
      BlockPeaks(e, scale, dot, q, src, sh, d,
                 Sweep(RealOps(e, scale, dot), q, src, sh, r, from, count - 1, visible, onBand),
                 to - sh.blockN, visible, onBand, s, v);
    }
  }

  /** A row of results that are attention in each of its first `width` coordinates. */
  ghost predicate Attends(e: real -> real, lg: real -> real, scale: real, dot: (seq<real>, seq<real>) -> real,
                          q: seq<real>, keys: seq<seq<real>>, values: seq<seq<real>>, p: int, width: nat,
                          x: seq<real>)
  {
    && 0 <= p < |keys| && p < |values| && |x| >= width
    && (forall n :: 0 <= n <= p ==> |values[n]| == width)
    && forall d :: 0 <= d < width ==> IsSoftmax(e, lg, Scores(dot, scale, q, keys, p), Column(values, p, d), p, x[d])
  }

  ghost predicate IsSoftmax(e: real -> real, lg: real -> real, s: seq<real>, v: seq<real>, p: nat, out: real)
    requires p < |s| == |v|
  {
    exists log :: Softmax.IsAttention(e, lg, s, v, p, out, log)
  }

  /** The page table of a sequence leads to its keys and values. */
  ghost predicate Stored(launch: Launch<real>, i: nat, keys: seq<seq<real>>, values: seq<seq<real>>, dim: nat,
                         width: nat)
    requires launch.Valid() && i < |launch.used|
  {
    && |keys| == |values| == launch.used[i] && width <= dim
    && forall n :: 0 <= n < launch.used[i] ==>
         var block, offset := n / launch.pageSize, n % launch.pageSize;
         && block < |launch.table[i]| && 0 <= launch.table[i][block]
         && var slot := launch.table[i][block] * launch.pageSize + offset;
            && 0 <= slot < |launch.keys| && slot < |launch.values|
            && launch.keys[slot] == keys[n] && launch.values[slot] == values[n]
            && |keys[n]| <= dim && |values[n]| == width
  }

  lemma {:induction false} StoredGives(launch: Launch<real>, i: nat, keys: seq<seq<real>>, values: seq<seq<real>>,
                                       dim: nat, width: nat, p: nat, d: nat)
    requires launch.Valid() && i < |launch.used| && Stored(launch, i, keys, values, dim, width)
    requires p < launch.used[i] && d < width
    ensures Gives(launch.SourceOf(i), dim, keys, values, p, d)
  {
    var src := launch.SourceOf(i);
    forall n: nat | n <= p ensures src.key(n) == keys[n] && src.value(n) == values[n] {
      assert src.key(n) == LoadRow(launch.keys, launch.SlotOf(i, n));
      assert src.value(n) == LoadRow(launch.values, launch.SlotOf(i, n));
    }
  }

  lemma {:induction false} StoredSizes(launch: Launch<real>, i: nat, keys: seq<seq<real>>, values: seq<seq<real>>,
                                       dim: nat, width: nat)
    requires launch.Valid() && i < |launch.used| && Stored(launch, i, keys, values, dim, width)
    ensures |keys| == |values| == launch.used[i] && width <= dim
    ensures forall n :: 0 <= n < |values| ==> |values[n]| == width
  {
  }

  /** A stored result is attention of its own query over its own sequence up to its own position. */
  lemma {:induction false} ResultAttends(e: real -> real, lg: real -> real, scale: real,
                                         dot: (seq<real>, seq<real>) -> real, launch: Launch<real>, sh: Shape, i: nat,
                                         row: nat, x: seq<real>, keys: seq<seq<real>>, values: seq<seq<real>>,
                                         width: nat)
    requires Softmax.IsExp(e) && Softmax.IsLog(lg, e) && IgnoresPadding(dot, sh.dim) && ValidShape(sh)
    requires launch.Valid() && i < |launch.used| && launch.cu[i] <= row < launch.cu[i + 1]
    requires Stored(launch, i, keys, values, sh.dim, width)
    requires IsResult(RealOps(e, scale, dot), launch, sh, i, row, x)
    ensures row < |launch.q|
    ensures Attends(e, lg, scale, dot, launch.q[row], keys, values, launch.used[i] - (launch.cu[i + 1] - row), width, x)
  {
    hide Row, Softmax.IsExp, Softmax.IsLog, ValidShape, RealOps, IgnoresPadding, Softmax.IsAttention, Gives, Stored;
    StoredSizes(launch, i, keys, values, sh.dim, width);
    var p := launch.used[i] - (launch.cu[i + 1] - row);
    assert p == Position(launch, i, row);
    var src := launch.SourceOf(i);
    var s := Scores(dot, scale, launch.q[row], keys, p);
    forall d | 0 <= d < width ensures IsSoftmax(e, lg, s, Column(values, p, d), p, x[d]) {
      StoredGives(launch, i, keys, values, sh.dim, width, p, d);
      var log := RowIsAttention(e, lg, scale, dot, launch.q[row], src, sh, keys, values, p, d);
    }
  }

  /** A launch of the kernel over the reals, programs in any order: every packed row gets causal softmax attention of
      its query over the keys and values that its sequence has stored in its pages. */
  method LaunchOverReals(e: real -> real, lg: real -> real, scale: real, dot: (seq<real>, seq<real>) -> real,
                         launch: Launch<real>, sh: Shape, gridM: nat, order: seq<(nat, nat)>, out: array<seq<real>>,
                         ghost keys: seq<seq<seq<real>>>, ghost values: seq<seq<seq<real>>>, ghost width: nat)
    requires Softmax.IsExp(e) && Softmax.IsLog(lg, e) && IgnoresPadding(dot, sh.dim)
    requires launch.Valid() && ValidShape(sh) && out.Length == |launch.q|
    requires forall k :: 0 <= k < |launch.used| ==> launch.used[k] <= gridM * sh.blockM
    requires forall i, m: nat :: (i, m) in order <==> 0 <= i < |launch.used| && m < gridM
    requires |keys| == |values| == |launch.used|
    requires forall i :: 0 <= i < |launch.used| ==> Stored(launch, i, keys[i], values[i], sh.dim, width)
    modifies out
    ensures forall i: nat, row: nat :: row < out.Length && Owns(launch, i, row) ==>
              Attends(e, lg, scale, dot, launch.q[row], keys[i], values[i],
                      launch.used[i] - (launch.cu[i + 1] - row), width, out[row])
  {
    hide Softmax.IsExp, Softmax.IsLog, ValidShape, RealOps, IgnoresPadding, Attends, Stored, IsResult;
    LaunchGrid(RealOps(e, scale, dot), launch, sh, gridM, order, out);
    forall i: nat, row: nat | row < out.Length && Owns(launch, i, row)
      ensures Attends(e, lg, scale, dot, launch.q[row], keys[i], values[i],
                      launch.used[i] - (launch.cu[i + 1] - row), width, out[row])
    {
      ResultAttends(e, lg, scale, dot, launch, sh, i, row, out[row], keys[i], values[i], width);
    }
  }
}
