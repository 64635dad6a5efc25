/** Top-k and top-p filtering of one row of logits, over the reals. None is a logit at minus infinity. */
module Sampler {
  import opened Prelude

  /** The weight of a logit before normalisation, as `exp`. */
  ghost predicate IsWeight(w: real -> real)
  {
    forall x :: w(x) > 0.0
  }

  lemma {:induction false} Positive(w: real -> real, t: real)
    requires IsWeight(w)
    ensures w(t) > 0.0
  {
  }

  function Indices(x: seq<real>): set<int> { Universe(|x|) }

  predicate Inside(x: seq<real>, s: set<int>) { forall v :: v in s ==> 0 <= v < |x| }

  /** The tokens with a larger logit. */
  function Above(x: seq<real>, t: real): set<int> { set v | 0 <= v < |x| && x[v] > t }

  function AtLeast(x: seq<real>, t: real): set<int> { set v | 0 <= v < |x| && x[v] >= t }

  /** Top-k without reference to any order: fewer than `k` tokens are strictly better. */
  function TopK(x: seq<real>, k: Option<nat>): set<int>
  {
    set v | 0 <= v < |x| && (k.Some? ==> |Above(x, x[v])| < k.value)
  }

  /** The `k`-th largest value, ties counted. */
  predicate IsKthLargest(x: seq<real>, t: real, k: nat) { |Above(x, t)| < k <= |AtLeast(x, t)| }

  /** Comparing with the k-th largest value selects the top k. */
  lemma {:induction false} ThresholdSelects(x: seq<real>, t: real, k: nat, v: nat)
    requires IsKthLargest(x, t, k) && v < |x|
    ensures x[v] >= t <==> v in TopK(x, Some(k))
  {
    if x[v] >= t { SubsetCount(Above(x, x[v]), Above(x, t)); } else { SubsetCount(AtLeast(x, t), Above(x, x[v])); }
  }

  /** What an ascending sort returns: positions of the values in ascending order; ties in any order. */
  ghost predicate IsSort(x: seq<real>, order: seq<int>)
  {
    && |order| == |x|
    && (forall i :: 0 <= i < |x| ==> 0 <= order[i] < |x|)
    && (forall i, j :: 0 <= i < j < |x| ==> order[i] != order[j])
    && (forall i, j :: 0 <= i < j < |x| ==> x[order[i]] <= x[order[j]])
  }

  /** The tokens from place `i` of the sort on. */
  function Tail(order: seq<int>, i: nat): (s: set<int>)
    requires i <= |order|
    ensures forall j :: i <= j < |order| ==> order[j] in s
    decreases |order| - i
  {
    if i == |order| then {} else Tail(order, i + 1) + {order[i]}
  }

  lemma {:induction false} TailMember(order: seq<int>, i: nat, v: int) returns (j: nat)
    requires i <= |order| && v in Tail(order, i)
    ensures i <= j < |order| && order[j] == v
    decreases |order| - i
  {
    if v == order[i] { j := i; } else { j := TailMember(order, i + 1, v); }
  }

  lemma {:induction false} TailFresh(x: seq<real>, order: seq<int>, i: nat)
    requires IsSort(x, order) && i < |order|
    ensures order[i] !in Tail(order, i + 1)
  {
    if order[i] in Tail(order, i + 1) { var j := TailMember(order, i + 1, order[i]); }
  }

  lemma {:induction false} TailSize(x: seq<real>, order: seq<int>, i: nat)
    requires IsSort(x, order) && i <= |order|
    ensures |Tail(order, i)| == |order| - i && Inside(x, Tail(order, i))
    decreases |order| - i
  {
    if i < |order| { TailSize(x, order, i + 1); TailFresh(x, order, i); }
  }

  lemma {:induction false} TailAll(x: seq<real>, order: seq<int>)
    requires IsSort(x, order)
    ensures Tail(order, 0) == Indices(x)
  {
    TailSize(x, order, 0);
    assert Tail(order, 0) <= Indices(x);
    assert Indices(x) == Tail(order, 0) + (Indices(x) - Tail(order, 0));
    if v :| v in Indices(x) - Tail(order, 0) {
      assert |Indices(x) - Tail(order, 0)| == 0;
    }
  }

  /** Place V - k of the sort holds the k-th largest value. */
  lemma {:induction false} SortedThreshold(x: seq<real>, order: seq<int>, k: nat)
    requires IsSort(x, order) && 1 <= k <= |x|
    ensures IsKthLargest(x, x[order[|x| - k]], k)
  {
    var c := |x| - k;
    var t := x[order[c]];
    TailSize(x, order, c);
    TailSize(x, order, c + 1);
    TailAll(x, order);
    forall v | v in Tail(order, c) ensures v in AtLeast(x, t) { var j := TailMember(order, c, v); }
    forall v | v in Above(x, t) ensures v in Tail(order, c + 1) { var j := TailMember(order, 0, v); }
    SubsetCount(Tail(order, c), AtLeast(x, t));
    SubsetCount(Above(x, t), Tail(order, c + 1));
  }

  /** The tokens that a filtered row keeps. */
  function Kept(out: seq<Option<real>>): set<int> { set v | 0 <= v < |out| && out[v].Some? }

  /** Every kept logit is unchanged and at its own vocabulary index. */
  predicate Filters(x: seq<real>, out: seq<Option<real>>)
  {
    |out| == |x| && forall v :: 0 <= v < |x| ==> out[v].None? || out[v] == Some(x[v])
  }

  /** The filter that needs no sort; `top` are the largest values in descending order. */
  method ApplyTopKOnly(logits: array<Option<real>>, x: seq<real>, k: nat, top: seq<real>)
    requires |x| == logits.Length && 1 <= k <= |x| && k <= |top|
    requires forall v :: 0 <= v < |x| ==> logits[v] == Some(x[v])
    requires forall j :: 0 <= j < |top| ==> IsKthLargest(x, top[j], j + 1)
    modifies logits
    ensures Filters(x, logits[..]) && Kept(logits[..]) == TopK(x, Some(k))
  {
    hide TopK, IsKthLargest, Kept, Filters, Above, AtLeast;
    var all := k == |x|;
    var index := if all then 0 else k - 1;
    var t := top[index];
    ghost var s := TopK(x, Some(k));
    AllSurvive(x);
    forall v | 0 <= v < |x| ensures all || x[v] >= t <==> v in s {
      if !all { ThresholdSelects(x, t, k, v); }
    }
    InsideTopK(x, Some(k));
    MaskBelow(logits, x, t, all, s);
    KeptIs(x, logits[..], s);
  }

  lemma {:induction false} InsideTopK(x: seq<real>, k: Option<nat>)
    ensures Inside(x, TopK(x, k))
  {
  }

  /** `logits.masked_fill_(logits < threshold, -inf)`, where the threshold may be off. */
  method MaskBelow(logits: array<Option<real>>, x: seq<real>, t: real, all: bool, ghost s: set<int>)
    requires |x| == logits.Length
    requires forall v :: 0 <= v < |x| ==> logits[v] == Some(x[v])
    requires forall v :: 0 <= v < |x| ==> (all || x[v] >= t <==> v in s)
    modifies logits
    ensures forall v :: 0 <= v < |x| ==> logits[v] == if v in s then Some(x[v]) else None
  {
    for v := 0 to logits.Length
      invariant forall u :: 0 <= u < v ==> logits[u] == if u in s then Some(x[u]) else None
      invariant forall u :: v <= u < |x| ==> logits[u] == Some(x[u])
    {
      if !all && logits[v].value < t {
        logits[v] := None;
      }
    }
  }

  lemma {:induction false} KeptIs(x: seq<real>, out: seq<Option<real>>, s: set<int>)
    requires |out| == |x| && Inside(x, s)
    requires forall v :: 0 <= v < |x| ==> out[v] == if v in s then Some(x[v]) else None
    ensures Filters(x, out) && Kept(out) == s
  {
  }

  lemma {:induction false} AllSurvive(x: seq<real>)
    ensures TopK(x, Some(|x|)) == TopK(x, None) == Indices(x)
  {
    forall v | 0 <= v < |x| ensures |Above(x, x[v])| < |x| {
        SubsetCount(Above(x, x[v]) + {v}, Indices(x));
    }
  }

  /** The weight of a set of tokens. */
  ghost function Mass(w: real -> real, x: seq<real>, s: set<int>): real
    requires Inside(x, s)
  {
    if s == {} then 0.0 else var v := Least(s); w(x[v]) + Mass(w, x, s - {v})
  }

  lemma {:induction false} MassWithout(w: real -> real, x: seq<real>, s: set<int>, v: int)
    requires Inside(x, s) && v in s
    ensures Mass(w, x, s) == w(x[v]) + Mass(w, x, s - {v})
    decreases |s|
  {
    var u := Least(s);
    if u != v {
      MassWithout(w, x, s - {u}, v);
      MassWithout(w, x, s - {v}, u);
      assert s - {u} - {v} == s - {v} - {u};
    }
  }

  lemma {:induction false} MassMonotone(w: real -> real, x: seq<real>, a: set<int>, b: set<int>)
    requires IsWeight(w) && a <= b && Inside(x, b)
    ensures Mass(w, x, a) <= Mass(w, x, b)
    decreases |b|
  {
    if b - a == {} {
      assert a == b;
    } else {
      var v := Least(b - a);
      MassWithout(w, x, b, v);
      Positive(w, x[v]);
      MassMonotone(w, x, a, b - {v});
    }
  }

  /** The mass that top-p asks for. */
  ghost function Need(w: real -> real, x: seq<real>, s: set<int>, p: real): real
    requires Inside(x, s)
  {
    p * Mass(w, x, s)
  }

  /** A nucleus of the survivors `s`: closed upwards, of at least the fraction `p` of their mass, and of
      less than that without its smallest member. */
  ghost predicate IsNucleus(w: real -> real, x: seq<real>, s: set<int>, p: real, kept: set<int>)
    requires Inside(x, s)
  {
    && kept <= s
    && (forall v, u :: v in kept && u in s && x[u] > x[v] ==> u in kept)
    && Mass(w, x, kept) >= Need(w, x, s, p)
    && forall v :: v in kept && Smallest(x, kept, v) ==> Mass(w, x, kept - {v}) < Need(w, x, s, p)
  }

  predicate Smallest(x: seq<real>, s: set<int>, v: int)
    requires Inside(x, s) && 0 <= v < |x|
  {
    forall u :: u in s ==> x[v] <= x[u]
  }

  lemma {:induction false} HasSmallest(x: seq<real>, s: set<int>) returns (v: int)
    requires Inside(x, s) && s != {}
    ensures v in s && Smallest(x, s, v)
    decreases |s|
  {
    var u := Least(s);
    var rest := s - {u};
    if rest == {} {
      assert s == {u};
      v := u;
    } else {
      var b := HasSmallest(x, rest);
      v := if x[u] <= x[b] then u else b;
      forall y | y in s ensures x[v] <= x[y] { if y != u { assert y in rest; } }
    }
  }

  predicate NoTies(x: seq<real>, s: set<int>)
    requires Inside(x, s)
  {
    forall u, v :: u in s && v in s && x[u] == x[v] ==> u == v
  }

  /** Without ties there is only one nucleus, so the filter's result is determined. */
  lemma {:induction false} NucleusIsUnique(w: real -> real, x: seq<real>, s: set<int>, p: real, a: set<int>,
                                           b: set<int>)
    requires IsWeight(w) && Inside(x, s) && 0.0 < p
    requires NoTies(x, s)
    requires IsNucleus(w, x, s, p, a) && IsNucleus(w, x, s, p, b)
    ensures a == b
  {
    if !(a <= b) { NucleusIsLeast(w, x, s, p, b, a); }
    if !(b <= a) { NucleusIsLeast(w, x, s, p, a, b); }
  }

  lemma {:induction false} AboveOutsider(w: real -> real, x: seq<real>, s: set<int>, p: real, a: set<int>, v: int,
                                         u: int)
    requires Inside(x, s) && IsNucleus(w, x, s, p, a) && v in s && v !in a && u in a
    requires NoTies(x, s)
    ensures x[u] > x[v]
  {
  }

  lemma {:induction false} NucleusIsLeast(w: real -> real, x: seq<real>, s: set<int>, p: real, a: set<int>, b: set<int>)
    requires IsWeight(w) && Inside(x, s)
    requires NoTies(x, s)
    requires IsNucleus(w, x, s, p, a) && IsNucleus(w, x, s, p, b)
    ensures b <= a
  {
    if !(b <= a) {
      var v0 :| v0 in b && v0 !in a;
      var v := HasSmallest(x, b);
      forall u | u in a ensures u in b - {v} { AboveOutsider(w, x, s, p, a, v0, u); }
      MassMonotone(w, x, a, b - {v});
    }
  }

  /** `top_p` 1 switches the filter off. */
  lemma {:induction false} TopPOneKeepsAll(w: real -> real, x: seq<real>, s: set<int>, kept: set<int>)
    requires IsWeight(w) && Inside(x, s) && IsNucleus(w, x, s, 1.0, kept)
    ensures kept == s
  {
    if v :| v in s && v !in kept {
      MassWithout(w, x, s, v);
      Positive(w, x[v]);
      MassMonotone(w, x, kept, s - {v});
    }
  }

  /** The kept tokens have the fraction `p` of the mass, and would not without the least of them. */
  lemma {:induction false} FractionKept(w: real -> real, x: seq<real>, s: set<int>, p: real, kept: set<int>, v: int)
    requires Inside(x, s) && IsNucleus(w, x, s, p, kept) && v in kept && forall u :: u in kept ==> x[v] <= x[u]
    ensures Mass(w, x, kept) - w(x[v]) < p * Mass(w, x, s) <= Mass(w, x, kept)
  {
    hide Mass;
    MassWithout(w, x, kept, v);
  }

  /** The masked weights of the first `i` places of the sort. */
  ghost function Head(w: real -> real, x: seq<real>, s: set<int>, order: seq<int>, i: nat): real
    requires IsSort(x, order) && i <= |x|
  {
    if i == 0 then 0.0 else Head(w, x, s, order, i - 1) + Share(w, x, s, order[i - 1])
  }

  ghost function Share(w: real -> real, x: seq<real>, s: set<int>, v: int): real
    requires 0 <= v < |x|
  {
    if v in s then w(x[v]) else 0.0
  }

  lemma {:induction false} HeadAscends(w: real -> real, x: seq<real>, s: set<int>, order: seq<int>, i: nat, j: nat)
    requires IsWeight(w) && IsSort(x, order) && i <= j <= |x|
    ensures Head(w, x, s, order, i) <= Head(w, x, s, order, j)
  {
    if i < j {
      HeadAscends(w, x, s, order, i, j - 1);
      Positive(w, x[order[j - 1]]);
    }
  }

  /** The places before `i` and the survivors from `i` on share the mass. */
  lemma {:induction false} HeadAndTail(w: real -> real, x: seq<real>, s: set<int>, order: seq<int>, i: nat)
    requires IsSort(x, order) && i <= |x| && Inside(x, s)
    ensures Head(w, x, s, order, i) + Mass(w, x, s * Tail(order, i)) == Mass(w, x, s)
  {
    if i == 0 {
      TailAll(x, order);
      assert s * Tail(order, 0) == s;
    } else {
      HeadAndTail(w, x, s, order, i - 1);
      MassStep(w, x, s, order, i - 1);
    }
  }

  lemma {:induction false} MassStep(w: real -> real, x: seq<real>, s: set<int>, order: seq<int>, i: nat)
    requires IsSort(x, order) && i < |x| && Inside(x, s)
    ensures Mass(w, x, s * Tail(order, i)) == Share(w, x, s, order[i]) + Mass(w, x, s * Tail(order, i + 1))
  {
    hide Tail, Mass;
    TailStep(x, order, i);
    var a, b := s * Tail(order, i), s * Tail(order, i + 1);
    if order[i] in s {
      MassWithout(w, x, a, order[i]);
      assert a - {order[i]} == b;
    } else {
      assert a == b;
    }
  }

  predicate UpClosed(x: seq<real>, s: set<int>)
    requires Inside(x, s)
  {
    forall v, u :: v in s && 0 <= u < |x| && x[u] >= x[v] ==> u in s
  }

  lemma {:induction false} TopKUpClosed(x: seq<real>, k: Option<nat>)
    requires k.Some? ==> 1 <= k.value
    ensures Inside(x, TopK(x, k)) && UpClosed(x, TopK(x, k))
    ensures x != [] ==> TopK(x, k) != {}
  {
    forall v, u | v in TopK(x, k) && 0 <= u < |x| && x[u] >= x[v] ensures u in TopK(x, k) {
      SubsetCount(Above(x, x[u]), Above(x, x[v]));
    }
    if x != [] {
      var b := HasLargest(x, |x|);
      assert Above(x, x[b]) == {};
      assert b in TopK(x, k);
    }
  }

  lemma {:induction false} HasLargest(x: seq<real>, n: nat) returns (b: nat)
    requires 0 < n <= |x|
    ensures b < n && forall v :: 0 <= v < n ==> x[v] <= x[b]
  {
    b := 0;
    if n > 1 {
      b := HasLargest(x, n - 1);
      if x[b] < x[n - 1] { b := n - 1; }
    }
  }

  /** The mass that the cumulative comparison lets go at most. */
  ghost function Cut(w: real -> real, x: seq<real>, s: set<int>, p: real): real
    requires Inside(x, s)
  {
    (1.0 - p) * Mass(w, x, s)
  }

  /** The places that the cumulative comparison leaves; the last one always stays. */
  ghost predicate Stays(w: real -> real, x: seq<real>, s: set<int>, order: seq<int>, p: real, i: nat)
    requires IsSort(x, order) && i < |x| && Inside(x, s)
  {
    i == |x| - 1 || Head(w, x, s, order, i + 1) > Cut(w, x, s, p)
  }

  /** Where the kept tokens begin: the first place at which the cumulative mass passes the cut. */
  lemma {:induction false} FirstKept(w: real -> real, x: seq<real>, s: set<int>, order: seq<int>, cut: real, m: nat)
    returns (r: nat)
    requires IsSort(x, order) && m < |x| && Head(w, x, s, order, m) <= cut < Head(w, x, s, order, |x|)
    ensures r < |x| && order[r] in s && Head(w, x, s, order, r) <= cut < Head(w, x, s, order, r + 1)
    decreases |x| - m
  {
    if Head(w, x, s, order, m + 1) <= cut { r := FirstKept(w, x, s, order, cut, m + 1); } else { r := m; }
  }

  lemma {:induction false} MassPositive(w: real -> real, x: seq<real>, s: set<int>)
    requires IsWeight(w) && Inside(x, s) && s != {}
    ensures Mass(w, x, s) > 0.0
  {
    var v := Least(s);
    Positive(w, x[v]);
    MassMonotone(w, x, {}, s - {v});
  }

  lemma {:induction false} CutBounds(w: real -> real, x: seq<real>, s: set<int>, p: real)
    requires IsWeight(w) && Inside(x, s) && s != {} && 0.0 < p <= 1.0
    ensures 0.0 <= Cut(w, x, s, p) < Mass(w, x, s)
    ensures Cut(w, x, s, p) == Mass(w, x, s) - Need(w, x, s, p)
  {
    hide Mass, IsWeight, Indices;
    MassPositive(w, x, s);
  }

  /** What the cumulative comparison keeps is a nucleus. */
  lemma {:induction false} SortKeepsNucleus(w: real -> real, x: seq<real>, s: set<int>, order: seq<int>, p: real,
                                            kept: set<int>)
    requires IsWeight(w) && IsSort(x, order) && Inside(x, s) && s != {} && UpClosed(x, s) && 0.0 < p <= 1.0
    requires Inside(x, kept)
    requires forall i :: 0 <= i < |x| ==> (order[i] in kept <==> order[i] in s && Stays(w, x, s, order, p, i))
    ensures IsNucleus(w, x, s, p, kept)
  {
    hide Head, Mass, Cut, Tail, IsWeight, UpClosed, Need, Stays, IsSort;
    var m := NucleusStart(w, x, s, order, p);
    TailIsKept(w, x, s, order, p, kept, m);
    NucleusMass(w, x, s, order, p, m);
    TailIsNucleus(w, x, s, order, p, m, kept);
  }

  lemma {:induction false} TailIsNucleus(w: real -> real, x: seq<real>, s: set<int>, order: seq<int>, p: real, m: nat,
                                         kept: set<int>)
    requires IsSort(x, order) && Inside(x, s) && m < |x| && kept == Tail(order, m) && kept <= s && Inside(x, kept)
    requires order[m] in kept && Inside(x, kept - {order[m]})
    requires Mass(w, x, kept - {order[m]}) < Need(w, x, s, p) <= Mass(w, x, kept)
    ensures IsNucleus(w, x, s, p, kept)
  {
    hide Mass, Tail, Need, IsSort;
    forall v | v in kept && Smallest(x, kept, v) ensures Mass(w, x, kept - {v}) < Need(w, x, s, p) {
      SmallestWeighsAlike(w, x, order, m, kept, v);
    }
    forall v, u | v in kept && u in s && x[u] > x[v] ensures u in kept { LargerIsLater(x, order, m, v, u); }
  }

  /** Where the kept tokens begin. */
  lemma {:induction false} NucleusStart(w: real -> real, x: seq<real>, s: set<int>, order: seq<int>, p: real)
    returns (m: nat)
    requires IsWeight(w) && IsSort(x, order) && Inside(x, s) && s != {} && 0.0 < p <= 1.0
    ensures m < |x| && order[m] in s
    ensures Head(w, x, s, order, m) <= Cut(w, x, s, p) < Head(w, x, s, order, m + 1)
  {
    hide Mass, Cut, Tail, IsWeight;
    CutBounds(w, x, s, p);
    WholeHead(w, x, s, order);
    assert Head(w, x, s, order, 0) == 0.0;
    m := FirstKept(w, x, s, order, Cut(w, x, s, p), 0);
  }

  /** The tokens from there on weigh enough, and without the first of them too little. */
  lemma {:induction false} NucleusMass(w: real -> real, x: seq<real>, s: set<int>, order: seq<int>, p: real, m: nat)
    requires IsSort(x, order) && Inside(x, s) && m < |x| && Tail(order, m) <= s && Inside(x, Tail(order, m))
    requires Head(w, x, s, order, m) <= Cut(w, x, s, p) < Head(w, x, s, order, m + 1)
    ensures order[m] in Tail(order, m) && Inside(x, Tail(order, m) - {order[m]})
    ensures Mass(w, x, Tail(order, m) - {order[m]}) < Need(w, x, s, p) <= Mass(w, x, Tail(order, m))
  {
    hide Head, Mass, Cut, Tail, Need;
    var kept := Tail(order, m);
    HeadAndTail(w, x, s, order, m);
    HeadAndTail(w, x, s, order, m + 1);
    TailStep(x, order, m);
    CutIsRest(w, x, s, p);
    assert s * kept == kept && s * Tail(order, m + 1) == kept - {order[m]};
  }

  lemma {:induction false} CutIsRest(w: real -> real, x: seq<real>, s: set<int>, p: real)
    requires Inside(x, s)
    ensures Cut(w, x, s, p) == Mass(w, x, s) - Need(w, x, s, p)
  {
    var z := Mass(w, x, s);
    assert (1.0 - p) * z == z - p * z;
  }

  lemma {:induction false} SmallestWeighsAlike(w: real -> real, x: seq<real>, order: seq<int>, m: nat, kept: set<int>,
                                               v: int)
    requires IsSort(x, order) && m < |x| && kept == Tail(order, m) && Inside(x, kept)
    requires v in kept && Smallest(x, kept, v)
    ensures order[m] in kept && Mass(w, x, kept - {v}) == Mass(w, x, kept - {order[m]})
  {
    hide Tail, Mass;
    TailStep(x, order, m);
    var j := TailMember(order, m, v);
    assert x[v] == x[order[m]];
    MassWithout(w, x, kept, v);
    MassWithout(w, x, kept, order[m]);
  }

  lemma {:induction false} WholeHead(w: real -> real, x: seq<real>, s: set<int>, order: seq<int>)
    requires IsSort(x, order) && Inside(x, s)
    ensures Head(w, x, s, order, |x|) == Mass(w, x, s)
  {
    HeadAndTail(w, x, s, order, |x|);
    assert s * Tail(order, |x|) == {};
  }

  lemma {:induction false} TailStep(x: seq<real>, order: seq<int>, m: nat)
    requires IsSort(x, order) && m < |x|
    ensures order[m] in Tail(order, m) && Tail(order, m + 1) == Tail(order, m) - {order[m]}
  {
    TailFresh(x, order, m);
  }

  lemma {:induction false} LargerIsLater(x: seq<real>, order: seq<int>, m: nat, v: int, u: int)
    requires IsSort(x, order) && m <= |x| && v in Tail(order, m) && 0 <= v < |x| && 0 <= u < |x| && x[u] > x[v]
    ensures u in Tail(order, m)
  {
    var j := TailMember(order, m, v);
    TailAll(x, order);
    var i := TailMember(order, 0, u);
  }

  lemma {:induction false} TailIsKept(w: real -> real, x: seq<real>, s: set<int>, order: seq<int>, p: real,
                                      kept: set<int>, m: nat)
    requires IsWeight(w) && IsSort(x, order) && Inside(x, s) && UpClosed(x, s) && Inside(x, kept)
    requires forall i :: 0 <= i < |x| ==> (order[i] in kept <==> order[i] in s && Stays(w, x, s, order, p, i))
    requires m < |x| && order[m] in s
    requires Head(w, x, s, order, m) <= Cut(w, x, s, p) < Head(w, x, s, order, m + 1)
    ensures kept == Tail(order, m) && kept <= s
  {
    hide Head, Cut, Mass, Tail, IsWeight, UpClosed;
    assert |order| == |x|;
    forall i: nat | i < |x| ensures order[i] in kept <==> i >= m {
      if i >= m {
        HeadAscends(w, x, s, order, m + 1, i + 1);
        LaterSurvives(x, s, order, m, i);
      } else {
        HeadAscends(w, x, s, order, i + 1, m);
      }
    }
    TailAll(x, order);
    forall v | v in kept ensures v in Tail(order, m) { var j := TailMember(order, 0, v); }
    forall v | v in Tail(order, m) ensures v in kept && v in s {
      var j := TailMember(order, m, v);
      LaterSurvives(x, s, order, m, j);
    }
  }

  lemma {:induction false} LaterSurvives(x: seq<real>, s: set<int>, order: seq<int>, m: nat, i: nat)
    requires IsSort(x, order) && Inside(x, s) && UpClosed(x, s) && m <= i < |x| && order[m] in s
    ensures order[i] in s
  {
    assert x[order[m]] <= x[order[i]];
  }

  /** A place of the sorted row while it is filtered. */
  predicate Masked(x: seq<real>, order: seq<int>, s: set<int>, row: seq<Option<real>>)
  {
    && |row| == |x| == |order|
    && (forall i :: 0 <= i < |x| ==> 0 <= order[i] < |x|)
    && (forall i :: 0 <= i < |x| ==> row[i] == if order[i] in s then Some(x[order[i]]) else None)
  }

  lemma {:induction false} CompareWithCut(w: real -> real, x: seq<real>, s: set<int>, a: real, p: real)
    requires Inside(x, s) && Mass(w, x, s) > 0.0
    ensures a / Mass(w, x, s) <= 1.0 - p <==> a <= Cut(w, x, s, p)
  {
    var z := Mass(w, x, s);
    var q := a / z;
    assert q * z == a;
    if q <= 1.0 - p { ScaleUp(q, 1.0 - p, z); } else { ScaleUp(1.0 - p, q, z); }
  }

  lemma {:induction false} ScaleUp(a: real, b: real, z: real)
    requires z > 0.0 && a <= b
    ensures a * z <= b * z && (a < b ==> a * z < b * z)
  {
    assert (b - a) * z >= 0.0;
    if a < b { assert (b - a) * z > 0.0; }
  }

  /** The sort-based filter: the top-k survivors, then a nucleus of them; each kept logit returns to its
      own vocabulary index through the sort's permutation. */
  method ApplyTopKTopP(w: real -> real, x: seq<real>, k: Option<nat>, p: real, order: seq<int>)
    returns (out: seq<Option<real>>)
    requires IsWeight(w) && x != [] && IsSort(x, order)
    requires k.Some? ==> 1 <= k.value <= |x|
    requires 0.0 < p <= 1.0
    ensures Filters(x, out) && Inside(x, TopK(x, k))
    ensures IsNucleus(w, x, TopK(x, k), p, Kept(out))
  {
    var n := |x|;
    ghost var s := TopK(x, k);
    TopKUpClosed(x, k);
    var row := MaskTopK(x, k, order);
    row := MaskTopP(w, x, s, p, order, row);
    out := Scatter(x, order, row);
    SortKeepsNucleus(w, x, s, order, p, Kept(out));
  }

  method MaskTopK(x: seq<real>, k: Option<nat>, order: seq<int>) returns (row: seq<Option<real>>)
    requires x != [] && IsSort(x, order)
    requires k.Some? ==> 1 <= k.value <= |x|
    ensures Masked(x, order, TopK(x, k), row)
  {
    row := seq(|x|, i requires 0 <= i < |x| && IsSort(x, order) => Some(x[order[i]]));
    if k.Some? {
      var t := row[|x| - k.value].value;
      SortedThreshold(x, order, k.value);
      var masked := new Option<real>[|x|](i requires 0 <= i < |row| => row[i]);
      for i := 0 to |x|
        invariant forall j :: 0 <= j < i ==> masked[j] == if order[j] in TopK(x, k) then Some(x[order[j]]) else None
        invariant forall j :: i <= j < |x| ==> masked[j] == Some(x[order[j]])
      {
        ThresholdSelects(x, t, k.value, order[i]);
        if masked[i].value < t {
          masked[i] := None;
        }
      }
      row := masked[..];
    }
  }

  function WeightOf(w: real -> real, l: Option<real>): real { if l.Some? then w(l.value) else 0.0 }

  lemma {:induction false} HeadStart(w: real -> real, x: seq<real>, s: set<int>, order: seq<int>)
    requires IsSort(x, order)
    ensures Head(w, x, s, order, 0) == 0.0
  {
  }

  lemma {:induction false} HeadStep(w: real -> real, x: seq<real>, s: set<int>, order: seq<int>, row: seq<Option<real>>,
                                    i: nat)
    requires IsSort(x, order) && i < |x| && Masked(x, order, s, row)
    ensures Head(w, x, s, order, i + 1) == Head(w, x, s, order, i) + WeightOf(w, row[i])
  {
  }

  lemma {:induction false} QuotientSum(a: real, b: real, z: real)
    requires z > 0.0
    ensures a / z + b / z == (a + b) / z
  {
  }

  /** `softmax` followed by `cumsum`. */
  method CumulativeSums(w: real -> real, x: seq<real>, ghost s: set<int>, order: seq<int>, row: seq<Option<real>>)
    returns (sums: seq<real>)
    requires IsWeight(w) && IsSort(x, order) && Inside(x, s) && s != {} && Masked(x, order, s, row)
    ensures Mass(w, x, s) > 0.0 && |sums| == |x|
    ensures forall i :: 0 <= i < |x| ==> sums[i] == Head(w, x, s, order, i + 1) / Mass(w, x, s)
  {
    hide Mass, IsWeight, IsSort, Head;
    MassPositive(w, x, s);
    HeadStart(w, x, s, order);
    var total := 0.0;
    for i := 0 to |x|
      invariant total == Head(w, x, s, order, i)
    {
      HeadStep(w, x, s, order, row, i);
      total := total + WeightOf(w, row[i]);
    }
    WholeHead(w, x, s, order);
    var sum := 0.0;
    sums := [];
    for i := 0 to |x|
      invariant sum == Head(w, x, s, order, i) / total
      invariant |sums| == i && forall j :: 0 <= j < i ==> sums[j] == Head(w, x, s, order, j + 1) / total
    {
      HeadStep(w, x, s, order, row, i);
      QuotientSum(Head(w, x, s, order, i), WeightOf(w, row[i]), total);
      sum := sum + WeightOf(w, row[i]) / total;
      sums := sums + [sum];
    }
  }

  method MaskTopP(w: real -> real, x: seq<real>, ghost s: set<int>, p: real, order: seq<int>, row: seq<Option<real>>)
    returns (masked: seq<Option<real>>)
    requires IsWeight(w) && x != [] && IsSort(x, order) && Inside(x, s) && s != {} && Masked(x, order, s, row)
    ensures |masked| == |x|
    ensures forall i :: 0 <= i < |x| ==>
      masked[i] == if order[i] in s && Stays(w, x, s, order, p, i) then Some(x[order[i]]) else None
  {
    hide Mass, Head, Cut, IsWeight, IsSort;
    var sums := CumulativeSums(w, x, s, order, row);
    var out := new Option<real>[|x|](i requires 0 <= i < |row| => row[i]);
    for i := 0 to |x|
      invariant forall j :: 0 <= j < i ==>
        out[j] == if order[j] in s && Stays(w, x, s, order, p, j) then Some(x[order[j]]) else None
      invariant forall j :: i <= j < |x| ==> out[j] == row[j]
    {
      CompareWithCut(w, x, s, Head(w, x, s, order, i + 1), p);
      if sums[i] <= 1.0 - p && i != |x| - 1 {
        out[i] := None;
      }
    }
    masked := out[..];
  }

  method Scatter(x: seq<real>, order: seq<int>, row: seq<Option<real>>) returns (out: seq<Option<real>>)
    requires IsSort(x, order) && |row| == |x|
    requires forall i :: 0 <= i < |x| ==> row[i].None? || row[i] == Some(x[order[i]])
    ensures Filters(x, out) && Inside(x, Kept(out))
    ensures forall i :: 0 <= i < |x| ==> (order[i] in Kept(out) <==> row[i].Some?)
  {
    var dest := new Option<real>[|x|](_ => None);
    for i := 0 to |x|
      invariant forall j :: 0 <= j < i ==> dest[order[j]] == row[j]
      invariant forall v :: 0 <= v < |x| ==> dest[v].None? || dest[v] == Some(x[v])
    {
      dest[order[i]] := row[i];
    }
    out := dest[..];
  }

  /** Without top-p the call goes to the filter that needs no sort, which keeps the same survivors. */
  method Filter(w: real -> real, x: seq<real>, k: Option<nat>, p: Option<real>, order: seq<int>)
    returns (out: seq<Option<real>>)
    requires IsWeight(w) && x != [] && IsSort(x, order)
    requires k.Some? ==> 1 <= k.value <= |x|
    requires p.Some? ==> 0.0 < p.value <= 1.0
    ensures Filters(x, out) && Inside(x, TopK(x, k))
    ensures p.None? ==> Kept(out) == TopK(x, k)
    ensures p.Some? ==> IsNucleus(w, x, TopK(x, k), p.value, Kept(out))
  {
    hide TopK, IsNucleus, Filters, Kept, IsWeight, UpClosed;
    TopKUpClosed(x, k);
    if p.Some? {
      out := ApplyTopKTopP(w, x, k, p.value, order);
    } else if k.Some? {
      out := TopKBranch(x, k.value, order);
    } else {
      out := seq(|x|, v requires 0 <= v < |x| => Some(x[v]));
      AllSurvive(x);
      KeptIs(x, out, TopK(x, None));
    }
  }

  /** The largest values in descending order, as `topk` returns them. */
  function TopValues(x: seq<real>, order: seq<int>, m: nat): (top: seq<real>)
    requires IsSort(x, order) && m <= |x|
    ensures |top| == m && forall j :: 0 <= j < m ==> top[j] == x[order[|x| - 1 - j]]
  {
    seq(m, j requires 0 <= j < m <= |x| && IsSort(x, order) => x[order[|x| - 1 - j]])
  }

  lemma {:induction false} TopValuesAreLargest(x: seq<real>, order: seq<int>, m: nat)
    requires IsSort(x, order) && m <= |x|
    ensures forall j :: 0 <= j < m ==> IsKthLargest(x, TopValues(x, order, m)[j], j + 1)
  {
    forall j | 0 <= j < m ensures IsKthLargest(x, TopValues(x, order, m)[j], j + 1) {
      SortedThreshold(x, order, j + 1);
    }
  }

  method TopKBranch(x: seq<real>, k: nat, order: seq<int>) returns (out: seq<Option<real>>)
    requires IsSort(x, order) && 1 <= k <= |x|
    ensures Filters(x, out) && Kept(out) == TopK(x, Some(k))
  {
    hide IsSort, IsKthLargest, TopK, Filters, Kept;
    var logits := new Option<real>[|x|](v requires 0 <= v < |x| => Some(x[v]));
    TopValuesAreLargest(x, order, k);
    ApplyTopKOnly(logits, x, k, TopValues(x, order, k));
    out := logits[..];
  }
}
