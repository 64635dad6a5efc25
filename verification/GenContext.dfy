/** `_prepare_gen_ctx`: the arrays of one packed batch, filled request by request. */
module GenContext {
  import opened Prelude
  import opened Transformer
  import opened Requests
  import opened Pages
  import opened Device

  datatype Context = Context(inputIds: seq<Token>, positions: seq<int>, slotMapping: seq<int>, contextLens: seq<int>,
                             blockTables: seq<seq<int>>, queryStart: seq<nat>, maxSeqlenQ: int)

  /** What the filling of the arrays relies on: the step's positions have pages, a prefill chunk lies in
      the input, and a decode step is one token after at least one generated token. */
  predicate Batchable(c: Config, r: Req)
    requires ValidConfig(c)
  {
    && 1 <= r.step <= r.computed && PagesFor(c, r.computed) <= |r.blocks|
    && (forall a :: 0 <= a < |r.blocks| ==> r.blocks[a] >= 0)
    && if r.computed - r.step < |r.input| then r.computed <= |r.input| else r.step == 1 && r.generated != []
  }

  /** A row of `block_tables`: the pages, then -1. */
  function TableRow(blocks: seq<int>, width: nat): (row: seq<int>)
    requires |blocks| <= width
    ensures |row| == width && row[..|blocks|] == blocks
  {
    blocks + seq(width - |blocks|, _ => -1)
  }

  /** The arrays say of every packed row what the batch says of it. */
  predicate Represents(c: Config, batch: seq<Req>, width: nat, g: Context)
    requires ValidConfig(c)
  {
    var rows := Rows(c, batch, |batch|);
    && |g.inputIds| == |g.positions| == |g.slotMapping| == |rows|
    && (forall j :: 0 <= j < |rows| ==> g.slotMapping[j] == rows[j].slot)
    && (forall j :: 0 <= j < |rows| ==> g.inputIds[j] == rows[j].tok && g.positions[j] == rows[j].pos)
    && |g.contextLens| == |g.blockTables| == |batch| && |g.queryStart| == |batch| + 1
    && (forall i :: 0 <= i <= |batch| ==> g.queryStart[i] == QueryStart(batch, i))
    && (forall i :: 0 <= i < |batch| ==> g.contextLens[i] == batch[i].computed)
    && (forall i :: 0 <= i < |batch| ==>
          |batch[i].blocks| <= width && g.blockTables[i] == TableRow(batch[i].blocks, width))
    && (forall i :: 0 <= i < |batch| ==> batch[i].step <= g.maxSeqlenQ)
    && (batch != [] ==> exists i :: 0 <= i < |batch| && batch[i].step == g.maxSeqlenQ)
  }

  lemma {:induction false} QueryStartAscends(batch: seq<Req>, i: nat, n: nat)
    requires i <= n <= |batch|
    ensures QueryStart(batch, i) <= QueryStart(batch, n)
  {
    if i < n { QueryStartAscends(batch, i, n - 1); }
  }

  /** `slot_mapping`, -1 where nothing is to be written. */
  method SlotMapping(c: Config, batch: seq<Req>) returns (slots: seq<int>)
    requires ValidConfig(c) && forall i :: 0 <= i < |batch| ==> Batchable(c, batch[i])
    ensures |slots| == |Rows(c, batch, |batch|)|
    ensures forall j :: 0 <= j < |slots| ==> slots[j] == Rows(c, batch, |batch|)[j].slot
  {
    hide Rows;
    var total := 0;
    for i := 0 to |batch|
      invariant total == QueryStart(batch, i)
    {
      total := total + batch[i].step;
    }
    var mapping := new int[total](_ => -1);
    var next := 0;
    ghost var rows := Rows(c, batch, |batch|);
    for i := 0 to |batch|
      invariant next == QueryStart(batch, i) <= total
      invariant forall j :: 0 <= j < next ==> mapping[j] == rows[j].slot
    {
      var r := batch[i];
      var start := r.computed - r.step;
      QueryStartAscends(batch, i + 1, |batch|);
      for pos := start to start + r.step
        invariant next == QueryStart(batch, i) + pos - start
        invariant forall j :: 0 <= j < next ==> mapping[j] == rows[j].slot
      {
        PositionHasPage(c, r.computed, pos);
        RowIndex(c, batch, |batch|, i, pos);
        mapping[next] := r.blocks[pos / c.pageSize] * c.pageSize + pos % c.pageSize;
        next := next + 1;
      }
    }
    slots := mapping[..];
  }

  method BlockTables(c: Config, batch: seq<Req>, width: nat) returns (tables: seq<seq<int>>)
    requires forall i :: 0 <= i < |batch| ==> |batch[i].blocks| <= width
    ensures |tables| == |batch|
    ensures forall i :: 0 <= i < |batch| ==> tables[i] == TableRow(batch[i].blocks, width)
  {
    tables := [];
    for i := 0 to |batch|
      invariant |tables| == i && forall i' :: 0 <= i' < i ==> tables[i'] == TableRow(batch[i'].blocks, width)
    {
      var row := new int[width](_ => -1);
      for j := 0 to |batch[i].blocks|
        invariant forall j' :: 0 <= j' < j ==> row[j'] == batch[i].blocks[j']
        invariant forall j' :: j <= j' < width ==> row[j'] == -1
      {
        row[j] := batch[i].blocks[j];
      }
      assert row[..] == TableRow(batch[i].blocks, width);
      tables := tables + [row[..]];
    }
  }

  method QueryStarts(batch: seq<Req>) returns (starts: seq<nat>)
    requires forall i :: 0 <= i < |batch| ==> batch[i].step >= 1
    ensures |starts| == |batch| + 1 && forall i :: 0 <= i <= |batch| ==> starts[i] == QueryStart(batch, i)
  {
    starts := [0];
    for i := 0 to |batch|
      invariant |starts| == i + 1 && forall i' :: 0 <= i' <= i ==> starts[i'] == QueryStart(batch, i')
    {
      starts := starts + [starts[i] + batch[i].step];
    }
  }

  method LongestQuery(batch: seq<Req>) returns (longest: int)
    requires batch != []
    ensures forall i :: 0 <= i < |batch| ==> batch[i].step <= longest
    ensures exists i :: 0 <= i < |batch| && batch[i].step == longest
  {
    longest := batch[0].step;
    for i := 1 to |batch|
      invariant forall i' :: 0 <= i' < i ==> batch[i'].step <= longest
      invariant exists i' :: 0 <= i' < i && batch[i'].step == longest
    {
      if batch[i].step > longest {
        longest := batch[i].step;
      }
    }
  }

  /** Token ids and positions: a chunk of the input while prefilling, else the last generated token. */
  method Inputs(c: Config, batch: seq<Req>) returns (ids: seq<Token>, positions: seq<int>)
    requires ValidConfig(c) && forall i :: 0 <= i < |batch| ==> Batchable(c, batch[i])
    ensures |ids| == |positions| == |Rows(c, batch, |batch|)|
    ensures forall j :: 0 <= j < |ids| ==>
      ids[j] == Rows(c, batch, |batch|)[j].tok && positions[j] == Rows(c, batch, |batch|)[j].pos
  {
    ids, positions := [], [];
    for i := 0 to |batch|
      invariant |ids| == |positions| == |Rows(c, batch, i)|
      invariant forall j :: 0 <= j < |ids| ==>
        ids[j] == Rows(c, batch, i)[j].tok && positions[j] == Rows(c, batch, i)[j].pos
    {
      var r := batch[i];
      assert Batchable(c, r);
      var start := r.computed - r.step;
      if start < |r.input| {
        ids := ids + r.input[start..r.computed];
        positions := positions + seq(r.computed - start, t => start + t);
      } else {
        ids := ids + [r.generated[|r.generated| - 1]];
        positions := positions + [r.computed - 1];
      }
      assert Rows(c, batch, i + 1) == Rows(c, batch, i) + RowsOf(c, r, i);
    }
  }

  /** The arrays of a batch of at least one request represent it. */
  method Prepare(c: Config, batch: seq<Req>, width: nat) returns (g: Context)
    requires ValidConfig(c) && batch != []
    requires forall i :: 0 <= i < |batch| ==> Batchable(c, batch[i]) && |batch[i].blocks| <= width
    ensures Represents(c, batch, width, g)
  {
    var slots := SlotMapping(c, batch);
    var lens := seq(|batch|, i requires 0 <= i < |batch| => batch[i].computed);
    var tables := BlockTables(c, batch, width);
    var starts := QueryStarts(batch);
    var longest := LongestQuery(batch);
    var ids, positions := Inputs(c, batch);
    g := Context(ids, positions, slots, lens, tables, starts, longest);
  }

  /** The row whose logits are sampled for a request is its last position, at context length minus one. */
  lemma {:induction false} SampledRow(c: Config, batch: seq<Req>, width: nat, g: Context, i: nat)
    requires ValidConfig(c) && Represents(c, batch, width, g) && i < |batch| && batch[i].step >= 1
    ensures 1 <= g.queryStart[i + 1] <= |g.positions|
    ensures g.positions[g.queryStart[i + 1] - 1] == g.contextLens[i] - 1
    ensures Rows(c, batch, |batch|)[g.queryStart[i + 1] - 1] == RowAt(c, batch[i], i, batch[i].computed - 1)
  {
    RowIndex(c, batch, |batch|, i, batch[i].computed - 1);
    QueryStartAscends(batch, i + 1, |batch|);
  }

  /** What the scheduler plans can always be packed. */
  lemma {:induction false} IssuedIsBatchable(c: Config, m: Model, r: Req)
    requires ValidConfig(c) && Issued(c, m, r) && forall a :: 0 <= a < |r.blocks| ==> r.blocks[a] >= 0
    ensures Batchable(c, r)
  {
    hide Decode, Stops;
    CeilDivMonotone(r.computed, Max(|r.input|, r.computed), c.pageSize);
  }

  /** A request whose prompt and longest output fit `max_model_len`, the last token left out, fits the width of the
      block tables. */
  lemma {:induction false} TableIsWideEnough(c: Config, m: Model, r: Req, maxModelLen: nat)
    requires ValidConfig(c) && Issued(c, m, r) && r.promptLen + Longest(r.cfg, r.promptLen) - 1 <= maxModelLen
    ensures |r.blocks| <= CeilDiv(maxModelLen, c.pageSize)
  {
    hide Decode;
    assert |r.Text()| <= maxModelLen;
    CeilDivMonotone(Max(|r.input|, r.computed), maxModelLen, c.pageSize);
  }

  predicate SlotFits(slot: int, d: nat, size: int) { slot == -1 || (0 <= slot && (slot + 1) * d <= size) }

  /** The store kernel: one program per row, in any order; a row with slot -1 is skipped. */
  method StoreSingleCache<F>(src: seq<seq<F>>, cache: array<F>, slots: seq<int>, d: nat, order: seq<nat>)
    requires |src| == |slots| && forall j :: 0 <= j < |src| ==> |src[j]| == d
    requires forall j :: 0 <= j < |slots| ==> SlotFits(slots[j], d, cache.Length)
    requires forall j, k :: 0 <= j < k < |slots| && slots[j] == slots[k] ==> slots[j] == -1
    requires forall j :: j in order <==> j < |slots|
    modifies cache
    ensures forall j, o :: 0 <= j < |slots| && slots[j] >= 0 && 0 <= o < d ==>
              CellOf(cache[..], slots[j], d, o) == Some(src[j][o])
    ensures forall s: nat, o :: s !in slots && 0 <= o < d ==>
              CellOf(cache[..], s, d, o) == CellOf(old(cache[..]), s, d, o)
  {
    for k := 0 to |order|
      invariant forall j, o :: 0 <= j < |slots| && j in order[..k] && slots[j] >= 0 && 0 <= o < d ==>
        CellOf(cache[..], slots[j], d, o) == Some(src[j][o])
      invariant forall s: nat, o :: s !in slots && 0 <= o < d ==>
        CellOf(cache[..], s, d, o) == CellOf(old(cache[..]), s, d, o)
    {
      var idx := order[k];
      assert idx in order && order[..k + 1] == order[..k] + [idx];
      StoreRow(src[idx], cache, slots[idx], d);
    }
    assert order[..|order|] == order;
  }

  /** Element `o` of slot `s` in the flat cache. */
  function CellOf<F>(cache: seq<F>, s: int, d: nat, o: int): Option<F>
  {
    if 0 <= s * d + o < |cache| then Some(cache[s * d + o]) else None
  }

  method StoreRow<F>(row: seq<F>, cache: array<F>, slot: int, d: nat)
    requires |row| == d && SlotFits(slot, d, cache.Length)
    modifies cache
    ensures slot >= 0 ==> forall o :: 0 <= o < d ==> CellOf(cache[..], slot, d, o) == Some(row[o])
    ensures forall s: nat, o :: s != slot && 0 <= o < d ==>
              CellOf(cache[..], s, d, o) == CellOf(old(cache[..]), s, d, o)
  {
    if slot == -1 {
      return;
    }
    assert (slot + 1) * d == slot * d + d;
    MulLe(0, slot, d);
    var base := slot * d;
    for o := 0 to d
      invariant forall i :: 0 <= i < o ==> cache[base + i] == row[i]
      invariant forall a :: 0 <= a < cache.Length && !(base <= a < base + o) ==> cache[a] == old(cache[a])
    {
      cache[base + o] := row[o];
    }
    forall s: nat, o | s != slot && 0 <= o < d
      ensures CellOf(cache[..], s, d, o) == CellOf(old(cache[..]), s, d, o)
    {
      ApartSlots(s, slot, d, o);
    }
  }

  lemma {:induction false} ApartSlots(s: nat, slot: nat, d: nat, o: int)
    requires s != slot && 0 <= o < d
    ensures s * d + o < slot * d || slot * d + d <= s * d + o
  {
    if s < slot { MulLe(s + 1, slot, d); } else { MulLe(slot + 1, s, d); }
  }
}
