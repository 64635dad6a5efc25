/** Routing of (token, choice) pairs to experts: stable argsort, its inverse, and the expert segments. */
module MoeIndex {
  import opened Prelude

  /** The pairs routed to an expert; a pair is its flat index `t * topk + k`. */
  function Members(keys: seq<int>, e: int): set<int>
  {
    set f | 0 <= f < |keys| && keys[f] == e
  }

  function Below(keys: seq<int>, e: int): set<int>
  {
    set f | 0 <= f < |keys| && keys[f] < e
  }

  /** The pairs of the same expert that come before `f`. */
  function Earlier(keys: seq<int>, f: int): set<int>
    requires 0 <= f < |keys|
  {
    set g | 0 <= g < f && keys[g] == keys[f]
  }

  /** Start of an expert's segment: the exclusive cumulative sum of the histogram. */
  function SegmentStart(keys: seq<int>, e: int): nat { |Below(keys, e)| }

  lemma {:induction false} SegmentsAbut(keys: seq<int>, e: int)
    ensures SegmentStart(keys, e + 1) == SegmentStart(keys, e) + |Members(keys, e)|
  {
    assert Below(keys, e + 1) == Below(keys, e) + Members(keys, e);
    assert Below(keys, e) !! Members(keys, e);
  }

  lemma {:induction false} SegmentsAreOrdered(keys: seq<int>, e: int, e': int)
    requires e <= e'
    ensures SegmentStart(keys, e) <= SegmentStart(keys, e') <= |keys|
  {
    SubsetCount(Below(keys, e), Below(keys, e'));
    BelowBound(keys, |keys|, e');
  }

  lemma {:induction false} BelowBound(keys: seq<int>, n: nat, e: int)
    requires n <= |keys|
    ensures |set f | 0 <= f < n && keys[f] < e| <= n
  {
    var s := set f | 0 <= f < n && keys[f] < e;
    if n > 0 {
      var s' := set f | 0 <= f < n - 1 && keys[f] < e;
      BelowBound(keys, n - 1, e);
      if keys[n - 1] < e { assert s == s' + {n - 1}; } else { assert s == s'; }
    }
  }

  ghost predicate IsPermutation(p: seq<int>, n: nat)
  {
    && |p| == n && (forall i :: 0 <= i < n ==> 0 <= p[i] < n)
    && (forall i, j :: 0 <= i < j < n ==> p[i] != p[j])
  }

  /** `flat.argsort(stable=True)`. */
  ghost predicate IsStableArgsort(keys: seq<int>, order: seq<int>)
  {
    && IsPermutation(order, |keys|)
    && forall i, j :: 0 <= i < j < |keys| ==> Precedes(keys, order[i], order[j])
  }

  predicate Precedes(keys: seq<int>, f: int, g: int)
    requires 0 <= f < |keys| && 0 <= g < |keys|
  {
    keys[f] < keys[g] || (keys[f] == keys[g] && f < g)
  }

  /** `order.argsort()` on a permutation. */
  ghost predicate IsArgsort(p: seq<int>, a: seq<int>)
  {
    && IsPermutation(a, |p|)
    && forall i, j :: 0 <= i < j < |p| ==> p[a[i]] < p[a[j]]
  }

  lemma {:induction false} IncreasingIsIdentity(s: seq<int>, i: nat)
    requires i < |s| && forall j, k :: 0 <= j < k < |s| ==> s[j] < s[k]
    requires forall j :: 0 <= j < |s| ==> 0 <= s[j] < |s|
    ensures s[i] == i
  {
    AtLeast(s, i);
    AtMost(s, i);
  }

  lemma {:induction false} AtLeast(s: seq<int>, i: nat)
    requires i < |s| && s[0] >= 0 && forall j, k :: 0 <= j < k < |s| ==> s[j] < s[k]
    ensures s[i] >= i
  {
    if i > 0 { AtLeast(s, i - 1); }
  }

  lemma {:induction false} AtMost(s: seq<int>, i: nat)
    requires i < |s| && s[|s| - 1] < |s| && forall j, k :: 0 <= j < k < |s| ==> s[j] < s[k]
    ensures s[i] <= i
    decreases |s| - i
  {
    if i < |s| - 1 { AtMost(s, i + 1); }
  }

  /** Argsort of a permutation is its inverse, on both sides. */
  lemma {:induction false} ArgsortIsInverse(p: seq<int>, a: seq<int>)
    requires IsPermutation(p, |p|) && IsArgsort(p, a)
    ensures forall i :: 0 <= i < |p| ==> p[a[i]] == i && a[p[i]] == i
  {
    var s := seq(|p|, i requires 0 <= i < |p| && 0 <= a[i] < |p| => p[a[i]]);
    forall i | 0 <= i < |p| ensures p[a[i]] == i {
      IncreasingIsIdentity(s, i);
    }
    forall i | 0 <= i < |p| ensures a[p[i]] == i {
      assert p[a[p[i]]] == p[i];
    }
  }

  lemma {:induction false} DistinctCount(s: seq<int>)
    requires forall i, j :: 0 <= i < j < |s| ==> s[i] != s[j]
    ensures |set x | x in s| == |s|
  {
    if s != [] {
      var n := |s| - 1;
      DistinctCount(s[..n]);
      assert (set x | x in s) == (set x | x in s[..n]) + {s[n]};
    }
  }

  /** Every value is taken by a permutation. */
  lemma {:induction false} Onto(p: seq<int>, n: nat, v: int)
    requires IsPermutation(p, n) && 0 <= v < n
    ensures v in p
  {
    DistinctCount(p);
    var taken := set x | x in p;
    var all := Universe(n);
    if v !in p {
      SubsetCount(taken, all - {v});
    }
  }

  /** What comes before a pair in a stable sort. */
  lemma {:induction false} BeforeInOrder(keys: seq<int>, order: seq<int>, i: nat)
    requires IsStableArgsort(keys, order) && i < |order|
    ensures |Below(keys, keys[order[i]])| + |Earlier(keys, order[i])| == i
  {
    var f := order[i];
    var before := set x | x in order[..i];
    DistinctCount(order[..i]);
    forall x ensures x in before <==> x in Below(keys, keys[f]) + Earlier(keys, f) {
      if x in before {
        var j :| 0 <= j < i && order[..i][j] == x;
        assert Precedes(keys, order[j], order[i]);
      }
      if x in Below(keys, keys[f]) + Earlier(keys, f) {
        PlaceBefore(keys, order, i, x);
      }
    }
    assert before == Below(keys, keys[f]) + Earlier(keys, f);
    assert Below(keys, keys[f]) !! Earlier(keys, f);
  }

  lemma {:induction false} PlaceBefore(keys: seq<int>, order: seq<int>, i: nat, x: int)
    requires IsStableArgsort(keys, order) && i < |order| && 0 <= x < |keys| && Precedes(keys, x, order[i])
    ensures x in order[..i]
  {
    Onto(order, |keys|, x);
    var j :| 0 <= j < |order| && order[j] == x;
    assert order[..i][j] == x;
  }

  /** The row of a pair in the expert-sorted activations: its expert's segment start, plus its rank
      among the pairs of the same expert. So it lies in that segment, and the order inside a segment is
      the order of the tokens. Both backends compute this one index. */
  lemma {:induction false} ScatterIndexIsRank(keys: seq<int>, order: seq<int>, scatter: seq<int>, f: nat)
    requires IsStableArgsort(keys, order) && IsArgsort(order, scatter) && f < |keys|
    ensures scatter[f] == SegmentStart(keys, keys[f]) + |Earlier(keys, f)|
    ensures SegmentStart(keys, keys[f]) <= scatter[f] < SegmentStart(keys, keys[f] + 1)
  {
    ArgsortIsInverse(order, scatter);
    BeforeInOrder(keys, order, scatter[f]);
    SegmentsAbut(keys, keys[f]);
    assert Earlier(keys, f) <= Members(keys, keys[f]) - {f};
    SubsetCount(Earlier(keys, f), Members(keys, keys[f]) - {f});
    assert f in Members(keys, keys[f]);
  }

  /** A sorted row belongs to the segment of the expert that its pair was routed to, and to no other. */
  lemma {:induction false} SegmentOfRow(keys: seq<int>, order: seq<int>, scatter: seq<int>, row: nat, e: int)
    requires IsStableArgsort(keys, order) && IsArgsort(order, scatter) && row < |keys|
    ensures SegmentStart(keys, e) <= row < SegmentStart(keys, e + 1) <==> keys[order[row]] == e
  {
    ArgsortIsInverse(order, scatter);
    var f := order[row];
    ScatterIndexIsRank(keys, order, scatter, f);
    if keys[f] < e { SegmentsAreOrdered(keys, keys[f] + 1, e); }
    if e < keys[f] { SegmentsAreOrdered(keys, e + 1, keys[f]); }
  }

  /** `A_idx`: sorted row to token. The token found at a pair's row is the pair's own. */
  lemma {:induction false} TokenAtScatteredRow(keys: seq<int>, order: seq<int>, scatter: seq<int>, topk: nat, f: nat)
    requires IsStableArgsort(keys, order) && IsArgsort(order, scatter) && f < |keys| && topk > 0
    ensures order[scatter[f]] / topk == f / topk
  {
    ArgsortIsInverse(order, scatter);
  }

  /** `_expert_histogram_kernel`: blocks of pairs, run in any order, add their counts; lanes past the end
      count into a bin that is not stored. */
  method Histogram(keys: seq<int>, numBins: nat, blockSize: nat, order: seq<nat>) returns (out: array<int>)
    requires blockSize > 0 && forall f :: 0 <= f < |keys| ==> 0 <= keys[f] < numBins
    requires forall b :: b in order <==> 0 <= b < CeilDiv(|keys|, blockSize)
    requires forall i, j :: 0 <= i < j < |order| ==> order[i] != order[j]
    ensures fresh(out) && out.Length == numBins
    ensures forall e :: 0 <= e < numBins ==> out[e] == |Members(keys, e)|
  {
    hide BlockOf, Members;
    out := new int[numBins](_ => 0);
    ghost var seen: set<int> := {};
    for k := 0 to |order|
      invariant fresh(out)
      invariant forall f :: f in seen <==> 0 <= f < |keys| && BlockOf(f, blockSize) in order[..k]
      invariant forall e :: 0 <= e < numBins ==> out[e] == |Members(keys, e) * seen|
    {
      var b := order[k];
      assert order[..k + 1] == order[..k] + [b];
      assert b !in order[..k];
      BlockRange(b, blockSize);
      seen := CountBlock(keys, numBins, b * blockSize, blockSize, out, seen);
    }
    AllSeen(keys, blockSize, order, seen);
  }

  /** The block that a lane belongs to. */
  function BlockOf(f: int, size: nat): int
    requires size > 0
  {
    f / size
  }

  lemma {:induction false} BlockRange(b: nat, size: nat)
    requires size > 0
    ensures 0 <= b * size
    ensures forall f: int :: BlockOf(f, size) == b <==> b * size <= f < b * size + size
  {
    MulLe(0, b, size);
    forall f: int ensures BlockOf(f, size) == b <==> b * size <= f < b * size + size {
      if b * size <= f < b * size + size { DivModUnique(f / size, f % size, b, f - b * size, size); }
    }
  }

  lemma {:induction false} InSomeBlock(f: nat, n: nat, size: nat)
    requires size > 0 && f < n
    ensures 0 <= BlockOf(f, size) < CeilDiv(n, size)
  {
    if f / size >= CeilDiv(n, size) { MulLe(CeilDiv(n, size), f / size, size); }
  }

  lemma {:induction false} AllSeen(keys: seq<int>, blockSize: nat, order: seq<nat>, seen: set<int>)
    requires blockSize > 0 && forall b :: b in order <==> 0 <= b < CeilDiv(|keys|, blockSize)
    requires forall f :: f in seen <==> 0 <= f < |keys| && BlockOf(f, blockSize) in order[..|order|]
    ensures forall e :: Members(keys, e) * seen == Members(keys, e)
  {
    hide BlockOf;
    assert order[..|order|] == order;
    forall f | 0 <= f < |keys| ensures f in seen { InSomeBlock(f, |keys|, blockSize); }
    forall e ensures Members(keys, e) * seen == Members(keys, e) { }
  }

  lemma {:induction false} OneMore(keys: seq<int>, seen: set<int>, f: int)
    requires 0 <= f < |keys| && f !in seen
    ensures forall e :: |Members(keys, e) * (seen + {f})| == |Members(keys, e) * seen| + (if keys[f] == e then 1 else 0)
  {
    forall e
      ensures |Members(keys, e) * (seen + {f})| == |Members(keys, e) * seen| + (if keys[f] == e then 1 else 0)
    {
      if keys[f] == e {
        assert Members(keys, e) * (seen + {f}) == Members(keys, e) * seen + {f};
      } else {
        assert Members(keys, e) * (seen + {f}) == Members(keys, e) * seen;
      }
    }
  }

  method CountBlock(keys: seq<int>, numBins: nat, start: nat, blockSize: nat, out: array<int>,
                    ghost seen: set<int>) returns (ghost seen': set<int>)
    requires out.Length == numBins && forall f :: 0 <= f < |keys| ==> 0 <= keys[f] < numBins
    requires forall f :: start <= f < start + blockSize ==> f !in seen
    requires forall e :: 0 <= e < numBins ==> out[e] == |Members(keys, e) * seen|
    modifies out
    ensures forall f :: f in seen' <==> f in seen || (start <= f < start + blockSize && f < |keys|)
    ensures forall e :: 0 <= e < numBins ==> out[e] == |Members(keys, e) * seen'|
  {
    hide Members;
    seen' := seen;
    for lane := 0 to blockSize
      invariant forall f :: f in seen' <==> f in seen || (start <= f < start + lane && f < |keys|)
      invariant forall e :: 0 <= e < numBins ==> out[e] == |Members(keys, e) * seen'|
    {
      var f := start + lane;
      if f < |keys| {
        OneMore(keys, seen', f);
        out[keys[f]] := out[keys[f]] + 1;
        seen' := seen' + {f};
      }
    }
  }
}
