/** Small facts about sequences and multisets that several components share. */
module Prelude {

  datatype Option<+T> = None | Some(value: T)

  function Max(a: int, b: int): int { if a >= b then a else b }

  function Min(a: int, b: int): int { if a <= b then a else b }

  lemma {:induction false} MulLe(x: int, y: int, b: int)
    requires x <= y && 0 <= b
    ensures x * b <= y * b
  {
  }

  /** Python's `(a + b - 1) // b` and Triton's `cdiv`. */
  function CeilDiv(a: nat, b: nat): (r: nat)
    requires b > 0
    ensures (r - 1) * b < a <= r * b
  {
    (a + b - 1) / b
  }

  /** The only quotient that covers `a` without a spare unit. */
  lemma {:induction false} CeilDivUnique(a: nat, b: nat, r: nat)
    requires b > 0 && (r - 1) * b < a <= r * b
    ensures r == CeilDiv(a, b)
  {
    var c := CeilDiv(a, b);
    if r < c { MulLe(r, c - 1, b); } else if c < r { MulLe(c, r - 1, b); }
  }

  lemma {:induction false} CeilDivMonotone(a: nat, a': nat, b: nat)
    requires b > 0 && a <= a'
    ensures CeilDiv(a, b) <= CeilDiv(a', b)
    ensures a' <= a + 1 ==> CeilDiv(a', b) <= CeilDiv(a, b) + 1
  {
    var c, c' := CeilDiv(a, b), CeilDiv(a', b);
    if c' < c { MulLe(c', c - 1, b); } else if c' > c + 1 { MulLe(c + 1, c' - 1, b); }
  }

  /** Two (quotient, remainder) pairs that give the same number are the same pair. */
  lemma {:induction false} DivModUnique(q: int, r: int, q': int, r': int, b: int)
    requires 0 <= r < b && 0 <= r' < b && q * b + r == q' * b + r'
    ensures q == q' && r == r'
  {
    if q < q' { MulLe(q + 1, q', b); } else if q' < q { MulLe(q' + 1, q, b); }
  }

  /** Counting once around a circle of `n` places. */
  lemma {:induction false} Wrap(x: nat, n: nat)
    requires 0 < n && x < 2 * n
    ensures x % n == (if x < n then x else x - n)
  {
    if x < n { DivModUnique(x / n, x % n, 0, x, n); } else { DivModUnique(x / n, x % n, 1, x - n, n); }
  }

  lemma {:induction false} NextSlot(n: nat, cur: nat)
    requires cur < n
    ensures (cur + 1) % n == (if cur + 1 < n then cur + 1 else 0)
  {
    Wrap(cur + 1, n);
  }

  /** Python's `set(range(n))`. */
  function Universe(n: nat): (s: set<int>)
    ensures forall b :: b in s <==> 0 <= b < n
    ensures |s| == n
  {
    if n == 0 then {} else Universe(n - 1) + {n - 1}
  }

  /** `s` without its element at `i`. */
  function Remove<T>(s: seq<T>, i: nat): (r: seq<T>)
    requires i < |s|
    ensures |r| == |s| - 1
    ensures forall j :: 0 <= j < i ==> r[j] == s[j]
    ensures forall j :: i <= j < |r| ==> r[j] == s[j + 1]
  {
    s[..i] + s[i + 1..]
  }

  /** The multiset sum of what `f` makes of each element. */
  ghost function Gather<T, U>(f: T -> multiset<U>, s: seq<T>): multiset<U>
  {
    if s == [] then multiset{} else f(s[0]) + Gather(f, s[1..])
  }

  lemma {:induction false} GatherConcat<T, U>(f: T -> multiset<U>, a: seq<T>, b: seq<T>)
    ensures Gather(f, a + b) == Gather(f, a) + Gather(f, b)
  {
    if a == [] {
      assert a + b == b;
    } else {
      assert (a + b)[1..] == a[1..] + b;
      GatherConcat(f, a[1..], b);
    }
  }

  lemma {:induction false} GatherSingle<T, U>(f: T -> multiset<U>, x: T)
    ensures Gather(f, [x]) == f(x)
  {
    assert [x][1..] == [];
  }

  lemma {:induction false} GatherSplit<T, U>(f: T -> multiset<U>, s: seq<T>, i: nat)
    requires i < |s|
    ensures Gather(f, s) == Gather(f, s[..i]) + f(s[i]) + Gather(f, s[i + 1..])
  {
    assert s == s[..i] + ([s[i]] + s[i + 1..]);
    GatherConcat(f, s[..i], [s[i]] + s[i + 1..]);
    GatherConcat(f, [s[i]], s[i + 1..]);
    GatherSingle(f, s[i]);
  }

  lemma {:induction false} GatherRemove<T, U>(f: T -> multiset<U>, s: seq<T>, i: nat)
    requires i < |s|
    ensures Gather(f, s) == Gather(f, Remove(s, i)) + f(s[i])
  {
    GatherSplit(f, s, i);
    GatherConcat(f, s[..i], s[i + 1..]);
  }

  lemma {:induction false} GatherUpdate<T, U>(f: T -> multiset<U>, s: seq<T>, i: nat, x: T)
    requires i < |s|
    ensures Gather(f, s[i := x]) + f(s[i]) == Gather(f, s) + f(x)
  {
    GatherSplit(f, s, i);
    GatherSplit(f, s[i := x], i);
    assert s[i := x][..i] == s[..i] && s[i := x][i + 1..] == s[i + 1..];
  }

  lemma {:induction false} SwapBag<U>(a: multiset<U>, b: multiset<U>, c: multiset<U>)
    ensures a + b + c == a + c + b
  {
  }

  lemma {:induction false} RotateBag<U>(x: multiset<U>, a: multiset<U>, r: multiset<U>)
    ensures (x + a) + r == (a + r) + x == a + (x + r)
  {
  }

  lemma {:induction false} CancelBag<U>(a: multiset<U>, x: multiset<U>, b: multiset<U>, y: multiset<U>)
    requires a + x == b + (x + y)
    ensures a == b + y
  {
    forall e ensures a[e] == (b + y)[e]
    {
      assert (a + x)[e] == (b + (x + y))[e];
    }
  }

  /** Every element's share is part of the sum, and two elements' shares are two parts of it. */
  lemma {:induction false} GatherContains<T, U>(f: T -> multiset<U>, s: seq<T>, i: nat)
    requires i < |s|
    ensures f(s[i]) <= Gather(f, s)
  {
    GatherSplit(f, s, i);
  }

  lemma {:induction false} GatherContainsTwo<T, U>(f: T -> multiset<U>, s: seq<T>, i: nat, j: nat)
    requires i < j < |s|
    ensures f(s[i]) + f(s[j]) <= Gather(f, s)
  {
    GatherSplit(f, s, i);
    assert s[i + 1..][j - i - 1] == s[j];
    GatherContains(f, s[i + 1..], j - i - 1);
  }

  /** A part is no larger than the whole. */
  lemma {:induction false} SubsetCount<T>(a: set<T>, b: set<T>)
    requires a <= b
    ensures |a| <= |b|
  {
    assert b == a + (b - a) && a !! (b - a);
  }

  lemma {:induction false} EmptyByMembers<T>(s: set<T>)
    requires forall x :: x !in s
    ensures s == {}
  {
  }

  ghost predicate IsLeast(s: set<int>, b: int) { b in s && forall y :: y in s ==> b <= y }

  lemma {:induction false} HasLeast(s: set<int>) returns (b: int)
    requires s != {}
    ensures IsLeast(s, b)
    decreases |s|
  {
    if forall x :: x !in s { EmptyByMembers(s); }
    var x :| x in s;
    var rest := s - {x};
    if rest == {} {
      assert s == {x};
      b := x;
    } else {
      var c := HasLeast(rest);
      b := Min(x, c);
      assert s == rest + {x};
    }
  }

  lemma {:induction false} LeastExists(s: set<int>)
    requires s != {}
    ensures exists b :: IsLeast(s, b)
  {
    var b := HasLeast(s);
  }

  function Least(s: set<int>): (b: int)
    requires s != {}
    ensures b in s && forall y :: y in s ==> b <= y
  {
    LeastExists(s);
    assert exists b :: IsLeast(s, b);
    assert exists b :: b in s && forall y :: y in s ==> b <= y by { var b :| IsLeast(s, b); }
    var b :| b in s && forall y :: y in s ==> b <= y;
    b
  }

  /** Concatenation of a sequence of sequences. */
  function Flat<T>(ss: seq<seq<T>>): seq<T>
  {
    if ss == [] then [] else ss[0] + Flat(ss[1..])
  }

  lemma {:induction false} FlatConcat<T>(a: seq<seq<T>>, b: seq<seq<T>>)
    ensures Flat(a + b) == Flat(a) + Flat(b)
  {
    if a == [] {
      assert a + b == b;
    } else {
      assert (a + b)[1..] == a[1..] + b;
      FlatConcat(a[1..], b);
    }
  }

  lemma {:induction false} FlatSingle<T>(s: seq<T>)
    ensures Flat([s]) == s
  {
    assert [s][1..] == [];
  }
}
