/** Captured graph shapes, the choice of one for a batch, and the padding of the batch to that shape. */
module GraphDispatch {
  import opened Prelude
  import opened Transformer
  import opened Requests
  import opened Pages
  import opened Device
  import opened GenContext

  function Pow2(n: nat): (p: nat)
    ensures p >= 1 && p >= n
  {
    if n == 0 then 1 else 2 * Pow2(n - 1)
  }

  lemma {:induction false} Pow2Doubles(n: nat)
    ensures Pow2(n + 1) == 2 * Pow2(n) > Pow2(n)
  {
  }

  lemma {:induction false} Pow2Grows(i: nat, j: nat)
    requires i < j
    ensures 2 * Pow2(i) <= Pow2(j)
  {
    if i + 1 < j { Pow2Grows(i, j - 1); }
  }

  /** The sizes 1, 2, 4, ... up to the first that is at least `max`. */
  predicate IsCaptureSizes(sizes: seq<nat>, max: int)
  {
    && sizes != [] && (forall i :: 0 <= i < |sizes| ==> sizes[i] == Pow2(i))
    && (forall i :: 0 <= i < |sizes| - 1 ==> sizes[i] < max) && max <= sizes[|sizes| - 1]
  }

  /** Doubling so far, all below `max`. */
  predicate DoublesBelow(sizes: seq<nat>, max: int)
  {
    forall i :: 0 <= i < |sizes| ==> sizes[i] == Pow2(i) && sizes[i] < max
  }

  lemma {:induction false} OneMoreSize(sizes: seq<nat>, size: nat, max: int)
    requires DoublesBelow(sizes, max) && size == Pow2(|sizes|)
    ensures size < max ==> DoublesBelow(sizes + [size], max) && size * 2 == Pow2(|sizes + [size]|)
    ensures size >= max ==> IsCaptureSizes(sizes + [size], max)
  {
    hide Pow2;
    Pow2Doubles(|sizes|);
  }

  /** None stands for the `ValueError` on a size that is not positive. */
  method BuildCaptureSizes(max: int) returns (sizes: Option<seq<nat>>)
    ensures sizes.None? <==> max <= 0
    ensures sizes.Some? ==> IsCaptureSizes(sizes.value, max)
  {
    hide IsCaptureSizes;
    if max <= 0 {
      return None;
    }
    var s: seq<nat> := [];
    var size := 1;
    assert Pow2(0) == 1;
    while size < max
      invariant size == Pow2(|s|) && DoublesBelow(s, max)
      decreases max - size
    {
      OneMoreSize(s, size, max);
      s := s + [size];
      size := size * 2;
    }
    OneMoreSize(s, size, max);
    sizes := Some(s + [size]);
  }

  /** Capturing raises for a size above the token budget: the sizes stay within it if and only if the
      budget is a power of two. */
  lemma {:induction false} CaptureFitsBudget(sizes: seq<nat>, max: nat)
    requires IsCaptureSizes(sizes, max) && max > 0
    ensures (forall i :: 0 <= i < |sizes| ==> sizes[i] <= max) <==> exists n: nat :: max == Pow2(n)
  {
    var last := |sizes| - 1;
    assert last > 0 ==> sizes[last - 1] < max;
    if n: nat :| max == Pow2(n) { SameExponent(last, n); }
    if forall i :: 0 <= i < |sizes| ==> sizes[i] <= max { assert sizes[last] <= max && max == Pow2(last); }
  }

  lemma {:induction false} SameExponent(k: nat, n: nat)
    requires Pow2(k) >= Pow2(n) && (k > 0 ==> Pow2(k - 1) < Pow2(n))
    ensures k == n
  {
    if k < n { Pow2Grows(k, n); } else if k > n + 1 { Pow2Grows(n, k - 1); }
  }

  datatype Shape = Shape(numTokens: nat, numSeqs: nat)

  function Descriptors(sizes: seq<nat>, maxSeqs: nat): (d: seq<Shape>)
    ensures |d| == |sizes| && forall i :: 0 <= i < |d| ==> d[i] == Shape(sizes[i], Min(sizes[i], maxSeqs))
  {
    seq(|sizes|, i requires 0 <= i < |sizes| => Shape(sizes[i], Min(sizes[i], maxSeqs)))
  }

  predicate Covers(d: Shape, seqs: nat, tokens: nat) { d.numSeqs >= seqs && d.numTokens >= tokens }

  predicate FirstCover(ds: seq<Shape>, i: int, seqs: nat, tokens: nat)
  {
    0 <= i < |ds| && Covers(ds[i], seqs, tokens) && forall j :: 0 <= j < i ==> !Covers(ds[j], seqs, tokens)
  }

  /** The first captured shape that covers the batch. */
  method Dispatch(descriptors: seq<Shape>, seqs: nat, tokens: nat) returns (d: Option<Shape>)
    ensures d.None? <==> forall i :: 0 <= i < |descriptors| ==> !Covers(descriptors[i], seqs, tokens)
    ensures d.Some? ==> exists i :: FirstCover(descriptors, i, seqs, tokens) && d.value == descriptors[i]
  {
    for i := 0 to |descriptors|
      invariant forall j :: 0 <= j < i ==> !Covers(descriptors[j], seqs, tokens)
    {
      if descriptors[i].numSeqs >= seqs && descriptors[i].numTokens >= tokens {
        assert FirstCover(descriptors, i, seqs, tokens);
        return Some(descriptors[i]);
      }
    }
    d := None;
  }

  /** A batch within the budgets always finds a shape, and the first one found has less than twice its
      tokens. */
  lemma {:induction false} DispatchCoversTightly(sizes: seq<nat>, max: nat, maxSeqs: nat, seqs: nat, tokens: nat)
    requires IsCaptureSizes(sizes, max) && seqs <= tokens <= max && 1 <= tokens && seqs <= maxSeqs
    ensures exists i :: 0 <= i < |sizes| && Covers(Descriptors(sizes, maxSeqs)[i], seqs, tokens)
    ensures forall i :: FirstCover(Descriptors(sizes, maxSeqs), i, seqs, tokens) ==> tokens <= sizes[i] < 2 * tokens
  {
    var ds := Descriptors(sizes, maxSeqs);
    assert Covers(ds[|sizes| - 1], seqs, tokens);
    forall i | FirstCover(ds, i, seqs, tokens)
      ensures tokens <= sizes[i] < 2 * tokens
    {
      if i > 0 {
        assert !Covers(ds[i - 1], seqs, tokens);
        assert sizes[i] == 2 * sizes[i - 1];
      }
    }
  }

  /** What a rank feeds its first layer: token ids on the first rank, what the rank before handed on elsewhere. */
  datatype Entry = Ids(ids: seq<Token>) | Intermediate(hidden: seq<Hidden>)

  function EntrySize(e: Entry): nat { if e.Ids? then |e.ids| else |e.hidden| }

  /** A row of zeros. */
  const ZEROS := Embed(0, -1)

  /** The static buffers that a captured graph reads. */
  class InputBuffers {
    const maxSeqs: nat
    const maxTokens: nat
    const width: nat
    const inputIds: array<int>
    const intermediate: array<Hidden>
    const positions: array<int>
    const slotMapping: array<int>
    const contextLens: array<int>
    const queryStart: array<int>
    const lastTokenIdx: array<int>
    const blockTables: array2<int>

    predicate Valid()
    {
      && inputIds.Length == positions.Length == slotMapping.Length == intermediate.Length == maxTokens
      && contextLens.Length == lastTokenIdx.Length == maxSeqs && queryStart.Length == maxSeqs + 1
      && blockTables.Length0 == maxSeqs && blockTables.Length1 == width
      && inputIds !in {positions, slotMapping, contextLens, queryStart, lastTokenIdx}
      && positions !in {slotMapping, contextLens, queryStart, lastTokenIdx}
      && slotMapping !in {contextLens, queryStart, lastTokenIdx}
      && contextLens !in {queryStart, lastTokenIdx} && queryStart != lastTokenIdx
    }

    constructor (maxSeqs: nat, maxTokens: nat, width: nat)
      ensures Valid() && this.maxSeqs == maxSeqs && this.maxTokens == maxTokens && this.width == width
    {
      this.maxSeqs, this.maxTokens, this.width := maxSeqs, maxTokens, width;
      inputIds, positions, slotMapping := new int[maxTokens], new int[maxTokens], new int[maxTokens];
      intermediate := new Hidden[maxTokens](_ => ZEROS);
      contextLens, queryStart, lastTokenIdx := new int[maxSeqs], new int[maxSeqs + 1], new int[maxSeqs];
      blockTables := new int[maxSeqs, width];
    }

    /** The first `numTokens` tokens are those of the batch, then tokens that are written nowhere. */
    ghost predicate HoldsTokens(g: Context, e: Entry, numTokens: nat)
      requires Valid() && numTokens <= maxTokens
      reads inputIds, intermediate, positions, slotMapping
    {
      && PrefixThen(inputIds[..], if e.Ids? then e.ids else [], numTokens, 0)
      && PrefixThen(intermediate[..], if e.Ids? then [] else e.hidden, numTokens, ZEROS)
      && PrefixThen(positions[..], g.positions, numTokens, 0)
      && PrefixThen(slotMapping[..], g.slotMapping, numTokens, -1)
    }

    /** The first `numSeqs` rows are those of the batch, then rows without tokens at the end of the real ones. */
    ghost predicate HoldsRows(g: Context, numSeqs: nat)
      requires Valid() && numSeqs <= maxSeqs
      reads contextLens, queryStart, lastTokenIdx, blockTables
    {
      var n := |g.contextLens|;
      && PrefixThen(contextLens[..], g.contextLens, numSeqs, 0)
      && PrefixThen(queryStart[..], g.queryStart, numSeqs + 1, |g.positions|)
      && (forall i, j ::
            0 <= i < n && i < numSeqs && 0 <= j < width && i < |g.blockTables| && j < |g.blockTables[i]| ==>
            blockTables[i, j] == g.blockTables[i][j])
      && (forall i, j :: n <= i < numSeqs && 0 <= j < width ==> blockTables[i, j] == 0)
      && (forall i :: 0 <= i < numSeqs ==> lastTokenIdx[i] == queryStart[i + 1] - 1)
    }

    /** `_prepare_input_buffers_from_gen_ctx`; false stands for its `ValueError`s. */
    method PrepareFrom(g: Context, e: Entry, desc: Shape) returns (ok: bool)
      requires Valid() && desc.numTokens <= maxTokens && desc.numSeqs <= maxSeqs
      requires EntrySize(e) == |g.positions| == |g.slotMapping|
      requires |g.contextLens| == |g.blockTables| && |g.queryStart| == |g.contextLens| + 1
      requires forall i :: 0 <= i < |g.blockTables| ==> |g.blockTables[i]| == width
      modifies inputIds, intermediate, positions, slotMapping, contextLens, queryStart, lastTokenIdx, blockTables
      ensures ok <==> |g.positions| <= desc.numTokens && |g.contextLens| <= desc.numSeqs
      ensures ok ==> HoldsTokens(g, e, desc.numTokens) && HoldsRows(g, desc.numSeqs)
    {
      hide HoldsTokens, HoldsRows;
      if |g.positions| > desc.numTokens || desc.numSeqs < |g.contextLens| {
        return false;
      }
      ClearTokens(desc.numTokens);
      ClearRows();
      CopyRows(g, desc.numSeqs);
      CopyTokens(g, e, desc.numTokens);
      ok := true;
    }

    method ClearTokens(numTokens: nat)
      requires Valid() && numTokens <= maxTokens
      modifies inputIds, intermediate, positions, slotMapping
      ensures PrefixThen(inputIds[..], [], numTokens, 0) && PrefixThen(intermediate[..], [], numTokens, ZEROS)
      ensures PrefixThen(positions[..], [], numTokens, 0) && PrefixThen(slotMapping[..], [], numTokens, -1)
    {
      Fill(inputIds, 0, numTokens, 0);
      Fill(positions, 0, numTokens, 0);
      Fill(intermediate, 0, numTokens, ZEROS);
      Fill(slotMapping, 0, maxTokens, -1);
    }

    method ClearRows()
      requires Valid()
      modifies contextLens, queryStart
      ensures PrefixThen(contextLens[..], [], maxSeqs, 0) && PrefixThen(queryStart[..], [], maxSeqs + 1, 0)
    {
      Fill(contextLens, 0, maxSeqs, 0);
      Fill(queryStart, 0, maxSeqs + 1, 0);
    }

    method CopyRows(g: Context, numSeqs: nat)
      requires Valid() && |g.contextLens| <= numSeqs <= maxSeqs
      requires |g.contextLens| == |g.blockTables| && |g.queryStart| == |g.contextLens| + 1
      requires forall i :: 0 <= i < |g.blockTables| ==> |g.blockTables[i]| == width
      requires PrefixThen(contextLens[..], [], maxSeqs, 0)
      modifies contextLens, queryStart, lastTokenIdx, blockTables
      ensures HoldsRows(g, numSeqs)
    {
      CopyTables(g.blockTables, numSeqs);
      Copy(contextLens, g.contextLens);
      Copy(queryStart, g.queryStart);
      Fill(queryStart, |g.contextLens| + 1, numSeqs + 1, |g.positions|);
      FillLastTokenIdx(numSeqs);
    }

    method CopyTokens(g: Context, e: Entry, numTokens: nat)
      requires Valid() && EntrySize(e) == |g.positions| == |g.slotMapping| <= numTokens <= maxTokens
      requires PrefixThen(inputIds[..], [], numTokens, 0) && PrefixThen(intermediate[..], [], numTokens, ZEROS)
      requires PrefixThen(positions[..], [], numTokens, 0) && PrefixThen(slotMapping[..], [], numTokens, -1)
      modifies inputIds, intermediate, positions, slotMapping
      ensures HoldsTokens(g, e, numTokens)
    {
      Copy(slotMapping, g.slotMapping);
      if e.Ids? {
        Copy(inputIds, e.ids);
      }
      Copy(positions, g.positions);
      if e.Intermediate? {
        Copy(intermediate, e.hidden);
      }
    }

    method CopyTables(tables: seq<seq<int>>, rows: nat)
      requires Valid() && |tables| <= rows <= maxSeqs && forall i :: 0 <= i < |tables| ==> |tables[i]| == width
      modifies blockTables
      ensures forall i, j :: 0 <= i < |tables| && 0 <= j < width ==> blockTables[i, j] == tables[i][j]
      ensures forall i, j :: |tables| <= i < rows && 0 <= j < width ==> blockTables[i, j] == 0
      ensures forall i, j :: rows <= i < maxSeqs && 0 <= j < width ==> blockTables[i, j] == -1
    {
      forall i, j | 0 <= i < maxSeqs && 0 <= j < width {
        blockTables[i, j] := if i < |tables| then tables[i][j] else if i < rows then 0 else -1;
      }
    }

    method FillLastTokenIdx(n: nat)
      requires Valid() && n <= maxSeqs
      modifies lastTokenIdx
      ensures forall i :: 0 <= i < n ==> lastTokenIdx[i] == queryStart[i + 1] - 1
      ensures forall i :: n <= i < maxSeqs ==> lastTokenIdx[i] == old(lastTokenIdx[i])
    {
      for i := 0 to n
        invariant forall i' :: 0 <= i' < i ==> lastTokenIdx[i'] == queryStart[i' + 1] - 1
        invariant forall i' :: n <= i' < maxSeqs ==> lastTokenIdx[i'] == old(lastTokenIdx[i'])
      {
        lastTokenIdx[i] := queryStart[i + 1] - 1;
      }
    }
  }

  /** `x`, then `pad` up to `n`. */
  predicate PrefixThen<T(==)>(a: seq<T>, x: seq<T>, n: nat, pad: T)
  {
    |x| <= n <= |a| && a[..|x|] == x && forall i :: |x| <= i < n ==> a[i] == pad
  }

  method Fill<T>(a: array<T>, from: nat, to: nat, v: T)
    requires from <= to <= a.Length
    modifies a
    ensures forall i :: from <= i < to ==> a[i] == v
    ensures a[..from] == old(a[..from]) && a[to..] == old(a[to..])
  {
    forall i | from <= i < to {
      a[i] := v;
    }
  }

  method Copy<T>(a: array<T>, x: seq<T>)
    requires |x| <= a.Length
    modifies a
    ensures a[..|x|] == x && a[|x|..] == old(a[|x|..])
  {
    forall i | 0 <= i < |x| {
      a[i] := x[i];
    }
  }
}
