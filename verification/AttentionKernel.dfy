/**
 The launch of the paged kernel: programs over (sequence, query block), each storing the rows of its
 block that belong to the sequence, with keys and values read through the page table.
 */
module AttentionKernel {
  import opened Prelude
  import opened Attention

  /** One launch, for one head. `cu` is `cu_seqlens_q`, `used` the key lengths, `table` the page table. */
  datatype Launch<!F> = Launch(
    q: seq<seq<F>>, keys: seq<seq<F>>, values: seq<seq<F>>,
    cu: seq<nat>, used: seq<nat>, table: seq<seq<int>>, pageSize: nat)
  {
    /** Packed queries, at most as many as keys in every sequence; a padded batch has more rows at the end. */
    predicate Valid()
    {
      && pageSize > 0 && |cu| == |used| + 1 && |table| == |used| && cu[0] == 0 && cu[|used|] <= |q|
      && forall i :: 0 <= i < |used| ==> cu[i] <= cu[i + 1] <= cu[i] + used[i]
    }

    /** Absolute position of the first query of a sequence. */
    function First(i: nat): nat
      requires Valid() && i < |used|
    {
      used[i] - (cu[i + 1] - cu[i])
    }

    /** The slot the table gives for a position; -1 past the table or on an unused entry. */
    function SlotOf(i: nat, n: nat): int
      requires Valid() && i < |used|
    {
      var page := if n / pageSize < |table[i]| then table[i][n / pageSize] else -1;
      if page < 0 then -1 else page * pageSize + n % pageSize
    }

    /** The keys and values of a sequence as its programs load them. */
    function SourceOf(i: nat): Source<F>
      requires Valid() && i < |used|
    {
      Source(n => LoadRow(keys, SlotOf(i, n)), n => LoadRow(values, SlotOf(i, n)), used[i])
    }
  }

  function LoadRow<F>(cache: seq<seq<F>>, slot: int): seq<F>
  {
    if 0 <= slot < |cache| then cache[slot] else []
  }

  /** The sequence a packed row belongs to. */
  ghost predicate Owns<F>(launch: Launch<F>, i: nat, row: nat)
    requires launch.Valid()
  {
    i < |launch.used| && launch.cu[i] <= row < launch.cu[i + 1]
  }

  /** Absolute position of a packed row. */
  function Position<F>(launch: Launch<F>, i: nat, row: nat): int
    requires launch.Valid() && i < |launch.used|
  {
    launch.First(i) + row - launch.cu[i]
  }

  /** One of the two loops over the key blocks of a row. */
  method SweepLoop<F>(ops: Ops<F>, q: seq<F>, src: Source<F>, s: Shape, r0: Running<F>, from: nat, count: nat,
                      visible: nat, onBand: bool)
    returns (r: Running<F>)
    requires |r0.acc| == s.dim
    ensures |r.acc| == s.dim && r == Sweep(ops, q, src, s, r0, from, count, visible, onBand)
  {
    hide Block;
    r := r0;
    var startN := from;
    for turn := 0 to count
      invariant startN == from + turn * s.blockN
      invariant |r.acc| == s.dim && r == Sweep(ops, q, src, s, r0, from, turn, visible, onBand)
    {
      r := Block(ops, q, src, s, r, startN, visible, onBand);
      startN := startN + s.blockN;
    }
  }

  method ForwardRow<F(!new)>(ops: Ops<F>, q: seq<F>, src: Source<F>, s: Shape, startM: nat, p: nat)
    returns (out: seq<F>)
    requires ValidShape(s) && p < src.len && startM == StartM(s, p)
    ensures out == Row(ops, q, src, s, p)
  {
    hide Row, Sweep, ValidShape, StartM, PerTile;
    RowParts(ops, q, src, s, p);
    var perTile := PerTile(s);
    var r := SweepLoop(ops, q, src, s, Begin(ops, s), 0, startM * perTile, src.len, false);
    r := SweepLoop(ops, q, src, s, r, startM * s.blockM, perTile, p + 1, true);
    out := Finished(ops, r, s.dim);
  }

  /** Program (i, m) stores this packed row. */
  ghost predicate Writes<F>(launch: Launch<F>, s: Shape, i: nat, m: nat, row: nat)
    requires launch.Valid() && ValidShape(s)
  {
    Owns(launch, i, row) && 0 <= Position(launch, i, row) && Position(launch, i, row) / s.blockM == m
  }

  /** The row's result, for its position in its own sequence. */
  ghost predicate IsResult<F>(ops: Ops<F>, launch: Launch<F>, s: Shape, i: nat, row: nat, x: seq<F>)
    requires launch.Valid() && ValidShape(s)
  {
    && i < |launch.used| && row < |launch.q| && 0 <= Position(launch, i, row) < launch.used[i]
    && x == Row(ops, launch.q[row], launch.SourceOf(i), s, Position(launch, i, row))
  }

  /** A row of the sequence at one of `n` positions from `from` on. */
  ghost predicate InLanes<F>(launch: Launch<F>, i: nat, row: nat, from: nat, n: nat)
    requires launch.Valid()
  {
    Owns(launch, i, row) && from <= Position(launch, i, row) < from + n
  }

  /** The next lane holds one row of the sequence, or none. */
  lemma {:induction false} NextLane<F>(launch: Launch<F>, i: nat, from: nat, n: nat, n': nat)
    requires launch.Valid() && i < |launch.used| && n' == n + 1
    ensures var p, first := from + n, launch.First(i);
            forall row: nat :: InLanes(launch, i, row, from, n') <==>
              InLanes(launch, i, row, from, n)
              || (first <= p < launch.used[i] && row == launch.cu[i] + (p - first))
  {
    assert launch.cu[i] <= launch.cu[i + 1] <= launch.cu[i] + launch.used[i];
  }

  lemma {:induction false} NoLanes<F>(launch: Launch<F>, i: nat, from: nat)
    requires launch.Valid() && i < |launch.used|
    ensures forall row: nat :: !InLanes(launch, i, row, from, 0)
  {
  }

  lemma {:induction false} LaneIsResult<F>(ops: Ops<F>, launch: Launch<F>, s: Shape, i: nat, p: nat, x: seq<F>)
    requires launch.Valid() && ValidShape(s) && i < |launch.used| && launch.First(i) <= p < launch.used[i]
    requires launch.cu[i + 1] <= |launch.q|
    ensures var row := launch.cu[i] + (p - launch.First(i));
            && row < |launch.q|
            && (x == Row(ops, launch.q[row], launch.SourceOf(i), s, p) ==> IsResult(ops, launch, s, i, row, x))
  {
    hide Row;
  }

  predicate BlockStarts(s: Shape, startM: nat, from: nat) { from == startM * s.blockM }

  lemma {:induction false} LaneBlock(s: Shape, startM: nat, from: nat, lane: nat)
    requires ValidShape(s) && lane < s.blockM && BlockStarts(s, startM, from)
    ensures StartM(s, from + lane) == startM
  {
    InBlockOf(startM * s.blockM + lane, startM, s.blockM);
  }

  /** One lane: a position that has a query stores its row. */
  method StoreLane<F(!new)>(ops: Ops<F>, launch: Launch<F>, s: Shape, i: nat, startM: nat, p: nat, out: array<seq<F>>)
    requires launch.Valid() && ValidShape(s) && i < |launch.used| && out.Length == |launch.q|
    requires launch.cu[i + 1] <= out.Length && startM == StartM(s, p)
    modifies out
    ensures forall row :: 0 <= row < out.Length ==>
      if launch.First(i) <= p < launch.used[i] && row == launch.cu[i] + (p - launch.First(i))
      then IsResult(ops, launch, s, i, row, out[row]) else out[row] == old(out[row])
  {
    hide Row, IsResult, StartM;
    if launch.First(i) <= p < launch.used[i] {
      var row := launch.cu[i] + (p - launch.First(i));
      LaneIsResult(ops, launch, s, i, p, []);
      var r := ForwardRow(ops, launch.q[row], launch.SourceOf(i), s, startM, p);
      LaneIsResult(ops, launch, s, i, p, r);
      out[row] := r;
    }
  }

  /** The rows of one block, lane by lane. */
  method StoreLanes<F(!new)>(ops: Ops<F>, launch: Launch<F>, s: Shape, i: nat, startM: nat, from: nat,
                             out: array<seq<F>>)
    requires launch.Valid() && ValidShape(s) && i < |launch.used| && out.Length == |launch.q|
    requires launch.cu[i + 1] <= out.Length && BlockStarts(s, startM, from)
    modifies out
    ensures forall row :: 0 <= row < out.Length ==>
      if InLanes(launch, i, row, from, s.blockM) then IsResult(ops, launch, s, i, row, out[row])
      else out[row] == old(out[row])
  {
    hide InLanes, IsResult, BlockStarts, StartM;
    NoLanes(launch, i, from);
    for lane := 0 to s.blockM
      invariant forall row :: 0 <= row < out.Length ==>
        if InLanes(launch, i, row, from, lane) then IsResult(ops, launch, s, i, row, out[row])
        else out[row] == old(out[row])
    {
      NextLane(launch, i, from, lane, lane + 1);
      LaneBlock(s, startM, from, lane);
      StoreLane(ops, launch, s, i, startM, from + lane, out);
    }
  }

  /** One program: it returns at once when its block holds no query of the sequence, and stores only the
      rows of the block that do belong to it. */
  method Program<F(!new)>(ops: Ops<F>, launch: Launch<F>, s: Shape, i: nat, startM: nat, out: array<seq<F>>)
    requires launch.Valid() && ValidShape(s) && i < |launch.used| && out.Length == |launch.q|
    requires launch.cu[i] <= launch.cu[i + 1] <= out.Length
    modifies out
    ensures forall row :: 0 <= row < out.Length ==>
      if Writes(launch, s, i, startM, row) then IsResult(ops, launch, s, i, row, out[row])
      else out[row] == old(out[row])
  {
    hide Writes, InLanes, IsResult;
    BlockRows(launch, s, i, startM);
    if startM * s.blockM >= launch.used[i] || (startM + 1) * s.blockM <= launch.First(i) {
      return;
    }
    StoreLanes(ops, launch, s, i, startM, startM * s.blockM, out);
  }

  /** The rows that a program writes are those of its block; none when it returns at once. */
  lemma {:induction false} BlockRows<F>(launch: Launch<F>, s: Shape, i: nat, startM: nat)
    requires launch.Valid() && ValidShape(s) && i < |launch.used|
    ensures 0 <= startM * s.blockM
    ensures forall row: nat ::
              Writes(launch, s, i, startM, row) <==> InLanes(launch, i, row, startM * s.blockM, s.blockM)
    ensures startM * s.blockM >= launch.used[i] || (startM + 1) * s.blockM <= launch.First(i) ==>
              forall row: nat :: !Writes(launch, s, i, startM, row)
  {
    BlockOf(startM, s.blockM);
    forall row: nat
      ensures Writes(launch, s, i, startM, row) <==> InLanes(launch, i, row, startM * s.blockM, s.blockM)
    {
      if Position(launch, i, row) >= 0 { InBlockOf(Position(launch, i, row), startM, s.blockM); }
    }
  }

  lemma {:induction false} InBlockOf(p: nat, startM: nat, blockM: nat)
    requires blockM > 0
    ensures p / blockM == startM <==> startM * blockM <= p < startM * blockM + blockM
  {
    BlockOf(startM, blockM);
  }

  lemma {:induction false} BlockOf(startM: nat, blockM: nat)
    requires blockM > 0
    ensures forall p: nat :: p / blockM == startM <==> startM * blockM <= p < startM * blockM + blockM
    ensures (startM + 1) * blockM == startM * blockM + blockM
  {
    forall p: nat ensures p / blockM == startM <==> startM * blockM <= p < startM * blockM + blockM {
      if startM * blockM <= p < startM * blockM + blockM {
        DivModUnique(p / blockM, p % blockM, startM, p - startM * blockM, blockM);
      }
    }
  }

  lemma {:induction false} OwnersAreOrdered<F>(launch: Launch<F>, i: nat, j: nat)
    requires launch.Valid() && i <= j <= |launch.used|
    ensures launch.cu[i] <= launch.cu[j] <= |launch.q|
    decreases |launch.used| - i
  {
    if i < j {
      OwnersAreOrdered(launch, i + 1, j);
    } else if j < |launch.used| {
      OwnersAreOrdered(launch, i + 1, j + 1);
    }
  }

  /** Every packed row belongs to one sequence only, and to a position that has a key. */
  lemma {:induction false} OneOwner<F>(launch: Launch<F>, i: nat, j: nat, row: nat)
    requires launch.Valid() && Owns(launch, i, row) && Owns(launch, j, row)
    ensures i == j && 0 <= Position(launch, i, row) < launch.used[i]
  {
    if i < j { OwnersAreOrdered(launch, i + 1, j); } else if j < i { OwnersAreOrdered(launch, j + 1, i); }
  }

  lemma {:induction false} SomeOwner<F>(launch: Launch<F>, row: nat, n: nat) returns (i: nat)
    requires launch.Valid() && n <= |launch.used| && row < launch.cu[n]
    ensures i < n && Owns(launch, i, row)
  {
    if n > 0 && row < launch.cu[n - 1] { i := SomeOwner(launch, row, n - 1); } else { i := n - 1; }
  }

  /** Exactly one program of the grid stores a packed row: the one of its owner and of its position's
      block. The grid, sized by the widest table, contains it. */
  lemma {:induction false} OneWriter<F>(launch: Launch<F>, s: Shape, row: nat, gridM: nat) returns (i: nat, m: nat)
    requires launch.Valid() && ValidShape(s) && row < launch.cu[|launch.used|]
    requires forall k :: 0 <= k < |launch.used| ==> launch.used[k] <= gridM * s.blockM
    ensures Writes(launch, s, i, m, row) && i < |launch.used| && m < gridM
    ensures forall i', m' :: Writes(launch, s, i', m', row) ==> i' == i && m' == m
  {
    i := SomeOwner(launch, row, |launch.used|);
    OneOwner(launch, i, i, row);
    m := Position(launch, i, row) / s.blockM;
    if m >= gridM { MulLe(gridM, m, s.blockM); }
    forall i', m' | Writes(launch, s, i', m', row) ensures i' == i && m' == m {
      OneOwner(launch, i, i', row);
    }
  }

  /** The whole grid, its programs run in any order: every packed row gets the result of its own
      position over its own sequence, and rows behind the last sequence are left alone. */
  method LaunchGrid<F(!new)>(ops: Ops<F>, launch: Launch<F>, s: Shape, gridM: nat, order: seq<(nat, nat)>,
                             out: array<seq<F>>)
    requires launch.Valid() && ValidShape(s) && out.Length == |launch.q|
    requires forall k :: 0 <= k < |launch.used| ==> launch.used[k] <= gridM * s.blockM
    requires forall i, m: nat :: (i, m) in order <==> 0 <= i < |launch.used| && m < gridM
    modifies out
    ensures forall i, row :: 0 <= row < out.Length && Owns(launch, i, row) ==>
              IsResult(ops, launch, s, i, row, out[row])
    ensures forall row :: launch.cu[|launch.used|] <= row < out.Length ==> out[row] == old(out[row])
  {
    hide IsResult, Writes, Owns;
    for k := 0 to |order|
      invariant forall row :: launch.cu[|launch.used|] <= row < out.Length ==> out[row] == old(out[row])
      invariant forall i, m, row :: 0 <= row < out.Length && (i, m) in order[..k] && Writes(launch, s, i, m, row) ==>
        IsResult(ops, launch, s, i, row, out[row])
    {
      var (i, m) := order[k];
      assert (i, m) in order;
      OwnersAreOrdered(launch, i, i + 1);
      label before:
      NothingBehind(launch, s, i, m);
      Program(ops, launch, s, i, m, out);
      assert order[..k + 1] == order[..k] + [(i, m)];
      forall i', m', row | 0 <= row < out.Length && (i', m') in order[..k + 1] && Writes(launch, s, i', m', row)
        ensures IsResult(ops, launch, s, i', row, out[row])
      {
        if Writes(launch, s, i, m, row) { OneProgram(launch, s, i, m, i', m', row); }
      }
    }
    assert order[..|order|] == order;
    forall i, row | 0 <= row < out.Length && Owns(launch, i, row)
      ensures IsResult(ops, launch, s, i, row, out[row])
    {
      OwnedIsPacked(launch, i, row);
      var i', m := OneWriter(launch, s, row, gridM);
      OneOwner(launch, i, i', row);
    }
  }

  lemma {:induction false} OwnedIsPacked<F>(launch: Launch<F>, i: nat, row: nat)
    requires launch.Valid() && Owns(launch, i, row)
    ensures row < launch.cu[|launch.used|]
  {
    OwnersAreOrdered(launch, i + 1, |launch.used|);
  }

  lemma {:induction false} NothingBehind<F>(launch: Launch<F>, s: Shape, i: nat, m: nat)
    requires launch.Valid() && ValidShape(s)
    ensures forall row: nat :: Writes(launch, s, i, m, row) ==> row < launch.cu[|launch.used|]
  {
    forall row: nat | Writes(launch, s, i, m, row) ensures row < launch.cu[|launch.used|] {
      OwnedIsPacked(launch, i, row);
    }
  }

  lemma {:induction false} OneProgram<F>(launch: Launch<F>, s: Shape, i: nat, m: nat, i': nat, m': nat, row: nat)
    requires launch.Valid() && ValidShape(s) && Writes(launch, s, i, m, row) && Writes(launch, s, i', m', row)
    ensures i == i' && m == m'
  {
    OneOwner(launch, i, i', row);
  }

  /** A page table that holds a sequence's keys and values gives its rows what a packed, contiguous
      launch over the same keys and values gives them. */
  lemma {:induction false} PagedIsPacked<F(!new)>(ops: Ops<F>, launch: Launch<F>, i: nat, q: seq<F>, packed: Source<F>,
                                                  s: Shape, p: nat)
    requires launch.Valid() && i < |launch.used| && p < launch.used[i] && p < packed.len
    requires ValidShape(s) && IgnoresWeightless(ops)
    requires forall n :: 0 <= n <= p ==>
      && LoadRow(launch.keys, launch.SlotOf(i, n)) == packed.key(n)
      && LoadRow(launch.values, launch.SlotOf(i, n)) == packed.value(n)
    ensures Row(ops, q, launch.SourceOf(i), s, p) == Row(ops, q, packed, s, p)
  {
    hide Row, ValidShape, IgnoresWeightless;
    assert AgreeUpTo(launch.SourceOf(i), packed, p);
    RowInvariance(ops, q, launch.SourceOf(i), packed, s, p);
  }
}
