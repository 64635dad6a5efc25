/**
 The blockwise attention kernels with abstract arithmetic: which keys and values a row's result
 depends on, and which program writes it. Nothing is assumed of the arithmetic except that a lane of
 weight zero leaves the accumulator alone.
 */
module Attention {
  import opened Prelude

  /** The operations of one row: `dot` is q.k, `maxOff` and `maxOn` the new maximum off and on the band
      (None is minus infinity, the maximum before the first block and a masked lane), `weight` a lane's exp2,
      `alpha` the rescaling factor, `sum` the new denominator, and `finish` the division by it. */
  datatype Ops<!F> = Ops(
    zero: F, dot: (seq<F>, seq<F>) -> F,
    maxOff: (Option<F>, seq<Option<F>>) -> Option<F>, maxOn: (Option<F>, seq<Option<F>>) -> Option<F>,
    weight: (F, Option<F>) -> F, alpha: (Option<F>, Option<F>) -> F, scaleBy: (F, F) -> F,
    fma: (F, F, F) -> F, sum: (F, F, seq<F>) -> F, finish: (F, F) -> F,
    one: F)

  ghost predicate IgnoresWeightless<F(!new)>(ops: Ops<F>)
  {
    forall acc, v :: ops.fma(acc, ops.zero, v) == acc
  }

  datatype Running<F> = Running(m: Option<F>, l: F, acc: seq<F>)

  /** Where a row finds its keys and values: those of position n, for n below `len`; zeros beyond. */
  datatype Source<!F> = Source(key: nat -> seq<F>, value: nat -> seq<F>, len: nat)

  datatype Shape = Shape(dim: nat, blockM: nat, blockN: nat)

  predicate ValidShape(s: Shape) { s.blockN > 0 && s.blockM > 0 && s.blockM % s.blockN == 0 }

  function Zeros<F>(ops: Ops<F>, dim: nat): (z: seq<F>)
    ensures |z| == dim
  {
    seq(dim, d => ops.zero)
  }

  /** A loaded row, cut or padded with zeros to `dim`. */
  function Fit<F>(ops: Ops<F>, x: seq<F>, dim: nat): (y: seq<F>)
    ensures |y| == dim
  {
    seq(dim, d => if 0 <= d < |x| then x[d] else ops.zero)
  }

  function KeyOf<F>(ops: Ops<F>, src: Source<F>, dim: nat, n: nat): seq<F>
  {
    if n < src.len then Fit(ops, src.key(n), dim) else Zeros(ops, dim)
  }

  function ValueOf<F>(ops: Ops<F>, src: Source<F>, dim: nat, n: nat): (v: seq<F>)
    ensures |v| == dim
  {
    if n < src.len then Fit(ops, src.value(n), dim) else Zeros(ops, dim)
  }

  /** The lanes of a block as the maximum sees them. */
  function Lanes<F>(ops: Ops<F>, q: seq<F>, src: Source<F>, s: Shape, first: nat, visible: nat): (x: seq<Option<F>>)
    ensures |x| == s.blockN
  {
    seq(s.blockN, i =>
      if 0 <= i && first + i < visible then Some(ops.dot(q, KeyOf(ops, src, s.dim, first + i))) else None)
  }

  function Weights<F>(ops: Ops<F>, lanes: seq<Option<F>>, m: Option<F>): (w: seq<F>)
    ensures |w| == |lanes|
  {
    seq(|lanes|, i requires 0 <= i < |lanes| => if lanes[i].Some? then ops.weight(lanes[i].value, m) else ops.zero)
  }

  /** `tl.dot(p, v, acc * alpha)` for one output coordinate. */
  function DotValues<F>(ops: Ops<F>, w: seq<F>, src: Source<F>, dim: nat, first: nat, d: nat, acc: F, n: nat): F
    requires n <= |w| && d < dim
  {
    if n == 0 then acc
    else ops.fma(DotValues(ops, w, src, dim, first, d, acc, n - 1), w[n - 1], ValueOf(ops, src, dim, first + n - 1)[d])
  }

  function Block<F>(ops: Ops<F>, q: seq<F>, src: Source<F>, s: Shape, r: Running<F>, first: nat, visible: nat,
                    onBand: bool): (r': Running<F>)
    requires |r.acc| == s.dim
    ensures |r'.acc| == s.dim
  {
    var lanes := Lanes(ops, q, src, s, first, visible);
    var m := if onBand then ops.maxOn(r.m, lanes) else ops.maxOff(r.m, lanes);
    var w := Weights(ops, lanes, m);
    var a := ops.alpha(r.m, m);
    Running(m, ops.sum(r.l, a, w),
            seq(s.dim, d requires 0 <= d < s.dim && |r.acc| == s.dim =>
              DotValues(ops, w, src, s.dim, first, d, ops.scaleBy(r.acc[d], a), |w|)))
  }

  /** `count` blocks from column `from` on. */
  function Sweep<F>(ops: Ops<F>, q: seq<F>, src: Source<F>, s: Shape, r: Running<F>, from: nat, count: nat,
                    visible: nat, onBand: bool): (r': Running<F>)
    requires |r.acc| == s.dim
    ensures |r'.acc| == s.dim
  {
    if count == 0 then r
    else Block(ops, q, src, s, Sweep(ops, q, src, s, r, from, count - 1, visible, onBand),
               from + (count - 1) * s.blockN, visible, onBand)
  }

  function Begin<F>(ops: Ops<F>, s: Shape): (r: Running<F>)
    ensures |r.acc| == s.dim
  {
    Running(None, ops.one, Zeros(ops, s.dim))
  }

  /** The query block of a position, and the key blocks in one query block. */
  function StartM(s: Shape, p: nat): nat
    requires ValidShape(s)
  {
    p / s.blockM
  }

  function PerTile(s: Shape): nat
    requires ValidShape(s)
  {
    s.blockM / s.blockN
  }

  /** Key blocks before the query block, and its first column. */
  function OffBand(s: Shape, p: nat): nat
    requires ValidShape(s)
  {
    StartM(s, p) * PerTile(s)
  }

  function BandStart(s: Shape, p: nat): nat
    requires ValidShape(s)
  {
    StartM(s, p) * s.blockM
  }

  /** The result of the row at absolute position `p`. Off the band the kernel masks nothing: all lanes
      below the sequence length are visible; on the band those up to `p` are. */
  function Row<F>(ops: Ops<F>, q: seq<F>, src: Source<F>, s: Shape, p: nat): (out: seq<F>)
    requires ValidShape(s) && p < src.len
    ensures |out| == s.dim
  {
    var r1 := Sweep(ops, q, src, s, Begin(ops, s), 0, OffBand(s, p), src.len, false);
    var r2 := Sweep(ops, q, src, s, r1, BandStart(s, p), PerTile(s), p + 1, true);
    seq(s.dim, d requires 0 <= d < s.dim && |r2.acc| == s.dim => ops.finish(r2.acc[d], r2.l))
  }

  /** Two sources that agree on every position up to `p`. */
  ghost predicate AgreeUpTo<F(!new)>(a: Source<F>, b: Source<F>, p: nat)
  {
    p < a.len && p < b.len && forall n :: 0 <= n <= p ==> a.key(n) == b.key(n) && a.value(n) == b.value(n)
  }

  lemma {:induction false} LanesAgree<F(!new)>(ops: Ops<F>, q: seq<F>, a: Source<F>, b: Source<F>, s: Shape, first: nat,
                                               va: nat, vb: nat, p: nat)
    requires AgreeUpTo(a, b, p)
    requires (va == vb == p + 1) || (first + s.blockN <= p + 1 && first + s.blockN <= va && first + s.blockN <= vb)
    ensures Lanes(ops, q, a, s, first, va) == Lanes(ops, q, b, s, first, vb)
  {
    var x, y := Lanes(ops, q, a, s, first, va), Lanes(ops, q, b, s, first, vb);
    forall i | 0 <= i < s.blockN ensures x[i] == y[i] {
      if first + i <= p { assert KeyOf(ops, a, s.dim, first + i) == KeyOf(ops, b, s.dim, first + i); }
    }
    assert x == y;
  }

  /** Values of masked lanes differ between the sources, but their weight is zero. */
  lemma {:induction false} DotValuesAgree<F(!new)>(ops: Ops<F>, w: seq<F>, a: Source<F>, b: Source<F>, dim: nat,
                                                   first: nat, d: nat, acc: F, n: nat, p: nat)
    requires IgnoresWeightless(ops) && AgreeUpTo(a, b, p) && n <= |w| && d < dim
    requires forall i :: 0 <= i < |w| && first + i > p ==> w[i] == ops.zero
    ensures DotValues(ops, w, a, dim, first, d, acc, n) == DotValues(ops, w, b, dim, first, d, acc, n)
  {
    if n > 0 {
      DotValuesAgree(ops, w, a, b, dim, first, d, acc, n - 1, p);
      if first + n - 1 <= p {
        assert a.value(first + n - 1) == b.value(first + n - 1);
      }
    }
  }

  lemma {:induction false} BlockAgrees<F(!new)>(ops: Ops<F>, q: seq<F>, a: Source<F>, b: Source<F>, s: Shape,
                                                r: Running<F>, first: nat, va: nat, vb: nat, onBand: bool, p: nat)
    requires IgnoresWeightless(ops) && AgreeUpTo(a, b, p) && |r.acc| == s.dim
    requires (va == vb == p + 1) || (first + s.blockN <= p + 1 && first + s.blockN <= va && first + s.blockN <= vb)
    ensures Block(ops, q, a, s, r, first, va, onBand) == Block(ops, q, b, s, r, first, vb, onBand)
  {
    hide IgnoresWeightless, AgreeUpTo, Lanes;
    LanesAgree(ops, q, a, b, s, first, va, vb, p);
    var lanes := Lanes(ops, q, a, s, first, va);
    var m := if onBand then ops.maxOn(r.m, lanes) else ops.maxOff(r.m, lanes);
    var w := Weights(ops, lanes, m);
    var x, y := Block(ops, q, a, s, r, first, va, onBand), Block(ops, q, b, s, r, first, vb, onBand);
    forall d | 0 <= d < s.dim ensures x.acc[d] == y.acc[d] {
      MaskedAreWeightless(ops, q, a, s, first, va, m, p);
      DotValuesAgree(ops, w, a, b, s.dim, first, d, ops.scaleBy(r.acc[d], ops.alpha(r.m, m)), |w|, p);
    }
    assert x.acc == y.acc;
  }

  lemma {:induction false} MaskedAreWeightless<F(!new)>(ops: Ops<F>, q: seq<F>, src: Source<F>, s: Shape, first: nat,
                                                        visible: nat, m: Option<F>, p: nat)
    requires visible == p + 1 || first + s.blockN <= p + 1
    ensures var w := Weights(ops, Lanes(ops, q, src, s, first, visible), m);
            forall i :: 0 <= i < |w| && first + i > p ==> w[i] == ops.zero
  {
  }

  lemma {:induction false} SweepAgrees<F(!new)>(ops: Ops<F>, q: seq<F>, a: Source<F>, b: Source<F>, s: Shape,
                                                r: Running<F>, from: nat, count: nat, va: nat, vb: nat, onBand: bool,
                                                p: nat)
    requires IgnoresWeightless(ops) && AgreeUpTo(a, b, p) && |r.acc| == s.dim
    requires
      || (va == vb == p + 1)
      || (from + count * s.blockN <= p + 1 && from + count * s.blockN <= va && from + count * s.blockN <= vb)
    ensures Sweep(ops, q, a, s, r, from, count, va, onBand) == Sweep(ops, q, b, s, r, from, count, vb, onBand)
  {
    hide IgnoresWeightless, AgreeUpTo, Block;
    if count > 0 {
      assert (count - 1) * s.blockN + s.blockN == count * s.blockN;
      SweepAgrees(ops, q, a, b, s, r, from, count - 1, va, vb, onBand, p);
      BlockAgrees(ops, q, a, b, s, Sweep(ops, q, a, s, r, from, count - 1, va, onBand),
                  from + (count - 1) * s.blockN, va, vb, onBand, p);
    }
  }

  lemma {:induction false} OffBandIsCausal(p: nat, s: Shape)
    requires ValidShape(s)
    ensures OffBand(s, p) * s.blockN == BandStart(s, p) <= p
  {
    assert PerTile(s) * s.blockN == s.blockM;
    assert StartM(s, p) * PerTile(s) * s.blockN == StartM(s, p) * (PerTile(s) * s.blockN);
  }

  /** Row invariance: the result of a row depends on its position, its query and the keys and values of
      positions 0..p only. It is the same in prefill, chunked prefill and decode (`len` differs), over
      paged and packed storage (`key` and `value` differ), and in any batch. */
  lemma {:induction false} RowInvariance<F(!new)>(ops: Ops<F>, q: seq<F>, a: Source<F>, b: Source<F>, s: Shape, p: nat)
    requires ValidShape(s) && IgnoresWeightless(ops) && AgreeUpTo(a, b, p)
    ensures Row(ops, q, a, s, p) == Row(ops, q, b, s, p)
  {
    hide Row, Sweep, IgnoresWeightless, ValidShape, OffBand, BandStart, PerTile, Finished;
    OffBandIsCausal(p, s);
    RowParts(ops, q, a, s, p);
    RowParts(ops, q, b, s, p);
    SweepsAgree(ops, q, a, b, s, p, OffBand(s, p), BandStart(s, p), PerTile(s));
  }

  lemma {:induction false} SweepsAgree<F(!new)>(ops: Ops<F>, q: seq<F>, a: Source<F>, b: Source<F>, s: Shape, p: nat,
                                                offBand: nat, bound: nat, perTile: nat)
    requires IgnoresWeightless(ops) && AgreeUpTo(a, b, p) && offBand * s.blockN <= p
    ensures var ra := Sweep(ops, q, a, s, Begin(ops, s), 0, offBand, a.len, false);
            var rb := Sweep(ops, q, b, s, Begin(ops, s), 0, offBand, b.len, false);
            Sweep(ops, q, a, s, ra, bound, perTile, p + 1, true) == Sweep(ops, q, b, s, rb, bound, perTile, p + 1, true)
  {
    hide Sweep, IgnoresWeightless;
    SweepAgrees(ops, q, a, b, s, Begin(ops, s), 0, offBand, a.len, b.len, false, p);
    var r := Sweep(ops, q, a, s, Begin(ops, s), 0, offBand, a.len, false);
    SweepAgrees(ops, q, a, b, s, r, bound, perTile, p + 1, p + 1, true, p);
  }

  function Finished<F>(ops: Ops<F>, r: Running<F>, dim: nat): (out: seq<F>)
    requires |r.acc| == dim
    ensures |out| == dim
  {
    seq(dim, d requires 0 <= d < dim && |r.acc| == dim => ops.finish(r.acc[d], r.l))
  }

  lemma {:induction false} RowParts<F(!new)>(ops: Ops<F>, q: seq<F>, src: Source<F>, s: Shape, p: nat)
    requires ValidShape(s) && p < src.len
    ensures var r1 := Sweep(ops, q, src, s, Begin(ops, s), 0, OffBand(s, p), src.len, false);
            var r2 := Sweep(ops, q, src, s, r1, BandStart(s, p), PerTile(s), p + 1, true);
            Row(ops, q, src, s, p) == Finished(ops, r2, s.dim)
  {
    hide Sweep;
  }
}
