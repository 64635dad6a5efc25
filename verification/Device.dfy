/**
 The forward pass of a packed batch over the paged store, layer by layer in the order of the code:
 every row of the batch stores its key and value, then every row attends through its block table.
 */
module Device {
  import opened Prelude
  import opened Transformer
  import opened Requests
  import opened Pages
  import opened Cache

  /** One packed token: the request it belongs to, its id, position and physical slot. */
  datatype Row = Row(owner: nat, tok: Token, pos: int, slot: int)

  /** The token fed at a position: from the input while prefilling, else the last generated one. */
  function InputAt(r: Req, pos: int): Token
  {
    if r.computed - r.step < |r.input| then (if 0 <= pos < |r.input| then r.input[pos] else 0)
    else if r.generated != [] then r.generated[|r.generated| - 1] else 0
  }

  function RowAt(c: Config, r: Req, owner: nat, pos: int): Row
    requires ValidConfig(c)
  {
    Row(owner, InputAt(r, pos), pos, Slot(c, r.blocks, pos))
  }

  function RowsOf(c: Config, r: Req, owner: nat): (rows: seq<Row>)
    requires ValidConfig(c)
    ensures |rows| == Max(0, r.step)
    ensures forall t :: 0 <= t < |rows| ==> rows[t] == RowAt(c, r, owner, r.computed - r.step + t)
  {
    seq(Max(0, r.step), t => RowAt(c, r, owner, r.computed - r.step + t))
  }

  /** The packed rows of the first `n` requests. */
  function Rows(c: Config, batch: seq<Req>, n: nat): (rows: seq<Row>)
    requires ValidConfig(c) && n <= |batch|
    ensures |rows| == QueryStart(batch, n)
  {
    if n == 0 then [] else Rows(c, batch, n - 1) + RowsOf(c, batch[n - 1], n - 1)
  }

  /** `query_start_loc[n]`. */
  function QueryStart(batch: seq<Req>, n: nat): nat
    requires n <= |batch|
  {
    if n == 0 then 0 else QueryStart(batch, n - 1) + Max(0, batch[n - 1].step)
  }

  /** Where the row of a request's position lies in the packed batch. */
  lemma {:induction false} RowIndex(c: Config, batch: seq<Req>, n: nat, i: nat, pos: int)
    requires ValidConfig(c) && i < n <= |batch|
    requires batch[i].computed - batch[i].step <= pos < batch[i].computed
    ensures var j := QueryStart(batch, i) + pos - (batch[i].computed - batch[i].step);
            0 <= j < QueryStart(batch, n) && Rows(c, batch, n)[j] == RowAt(c, batch[i], i, pos)
  {
    if i < n - 1 { RowIndex(c, batch, n - 1, i, pos); }
  }

  /** Every packed row is some request's row at one of this step's positions. */
  lemma {:induction false} RowOrigin(c: Config, batch: seq<Req>, n: nat, j: nat)
    requires ValidConfig(c) && n <= |batch| && j < QueryStart(batch, n)
    ensures var row := Rows(c, batch, n)[j];
            && row.owner < n
            && batch[row.owner].computed - batch[row.owner].step <= row.pos < batch[row.owner].computed
            && row == RowAt(c, batch[row.owner], row.owner, row.pos)
            && j == QueryStart(batch, row.owner) + row.pos - (batch[row.owner].computed - batch[row.owner].step)
  {
    if j < QueryStart(batch, n - 1) {
      RowOrigin(c, batch, n - 1, j);
    } else {
      var t := j - QueryStart(batch, n - 1);
      assert Rows(c, batch, n)[j] == RowsOf(c, batch[n - 1], n - 1)[t];
    }
  }

  /** `_store_cache_kernel` over all rows; slot -1 is skipped. */
  function StoreRows(layer: seq<Hidden>, rows: seq<Row>, hidden: seq<Hidden>): (after: seq<Hidden>)
    requires |hidden| == |rows|
    ensures |after| == |layer|
  {
    if rows == [] then layer
    else
      var before := StoreRows(layer, rows[..|rows| - 1], hidden[..|rows| - 1]);
      var slot := rows[|rows| - 1].slot;
      if 0 <= slot < |layer| then before[slot := hidden[|rows| - 1]] else before
  }

  ghost predicate DistinctSlots(rows: seq<Row>)
  {
    forall j, k :: 0 <= j < k < |rows| ==> rows[j].slot != rows[k].slot
  }

  /** With pairwise distinct slots the order of the stores does not matter: each slot of the batch
      holds its own row's value and every other slot is untouched. */
  lemma {:induction false} StoreRowsEffect(layer: seq<Hidden>, rows: seq<Row>, hidden: seq<Hidden>)
    requires |hidden| == |rows| && DistinctSlots(rows)
    requires forall j :: 0 <= j < |rows| ==> 0 <= rows[j].slot < |layer|
    ensures forall j :: 0 <= j < |rows| ==> StoreRows(layer, rows, hidden)[rows[j].slot] == hidden[j]
    ensures forall s :: 0 <= s < |layer| && (forall j :: 0 <= j < |rows| ==> rows[j].slot != s) ==>
              StoreRows(layer, rows, hidden)[s] == layer[s]
  {
    if rows != [] {
      var n := |rows| - 1;
      StoreRowsEffect(layer, rows[..n], hidden[..n]);
      var after := StoreRows(layer, rows, hidden);
      forall j | 0 <= j < |rows| ensures after[rows[j].slot] == hidden[j] {
        if j < n { assert rows[..n][j] == rows[j]; }
      }
      forall s | 0 <= s < |layer| && (forall j :: 0 <= j < |rows| ==> rows[j].slot != s)
        ensures after[s] == layer[s]
      {
        assert forall j :: 0 <= j < n ==> rows[..n][j].slot == rows[j].slot;
      }
    }
  }

  const NOTHING := Embed(0, -1)

  /** What a masked-out lane loads. */
  function Load(layer: seq<Hidden>, slot: int): Hidden
  {
    if 0 <= slot < |layer| then layer[slot] else NOTHING
  }

  /** One row's attention: positions 0..pos read through the block table of the row's owner. */
  function Attend(c: Config, layer: seq<Hidden>, blocks: seq<int>, pos: int, h: Hidden): Hidden
    requires ValidConfig(c)
  {
    Layer(h, seq(Max(0, pos + 1), q => Load(layer, Slot(c, blocks, q))))
  }

  function AttendRows(c: Config, batch: seq<Req>, layer: seq<Hidden>, rows: seq<Row>,
                      hidden: seq<Hidden>): (h: seq<Hidden>)
    requires ValidConfig(c) && |hidden| == |rows|
    requires forall j :: 0 <= j < |rows| ==> rows[j].owner < |batch|
    ensures |h| == |rows|
  {
    seq(|rows|, j requires 0 <= j < |rows| => Attend(c, layer, batch[rows[j].owner].blocks, rows[j].pos, hidden[j]))
  }

  /** Layers `l..` of the forward pass: the store after it, and the last hidden states. */
  function Layers(c: Config, batch: seq<Req>, rows: seq<Row>, l: nat, store: Store,
                  hidden: seq<Hidden>): (out: (Store, seq<Hidden>))
    requires ValidConfig(c) && |hidden| == |rows| && l <= |store|
    requires forall j :: 0 <= j < |rows| ==> rows[j].owner < |batch|
    ensures |out.0| == |store| && |out.1| == |rows|
    decreases |store| - l
  {
    if l == |store| then (store, hidden)
    else
      var layer := StoreRows(store[l], rows, hidden);
      Layers(c, batch, rows, l + 1, store[l := layer], AttendRows(c, batch, layer, rows, hidden))
  }

  function Embeddings(rows: seq<Row>): (h: seq<Hidden>)
    ensures |h| == |rows|
  {
    seq(|rows|, j requires 0 <= j < |rows| => Embed(rows[j].tok, rows[j].pos))
  }

  lemma {:induction false} OwnersInRange(c: Config, batch: seq<Req>)
    requires ValidConfig(c)
    ensures forall j :: 0 <= j < |Rows(c, batch, |batch|)| ==> Rows(c, batch, |batch|)[j].owner < |batch|
  {
    forall j | 0 <= j < |Rows(c, batch, |batch|)| ensures Rows(c, batch, |batch|)[j].owner < |batch| {
      RowOrigin(c, batch, |batch|, j);
    }
  }

  function Forward(c: Config, store: Store, batch: seq<Req>): (Store, seq<Hidden>)
    requires ValidConfig(c)
  {
    var rows := Rows(c, batch, |batch|);
    OwnersInRange(c, batch);
    Layers(c, batch, rows, 0, store, Embeddings(rows))
  }

  /** What `_select_tokens` asserts before it samples, and the sampler about seeds. */
  predicate UniformSampling(batch: seq<Req>)
  {
    forall i :: 0 <= i < |batch| ==> Alike(batch[0].cfg, batch[i].cfg)
  }

  /** `_select_tokens`: the last row of each request, sampled at position `context_len - 1` with its own seed,
      but with the parameters of the first request of the batch. */
  function Select(m: Model, batch: seq<Req>, hidden: seq<Hidden>): (tokens: seq<Token>)
    ensures |tokens| == |batch|
    ensures forall i :: 0 <= i < |batch| ==>
      tokens[i] == m.sample(Load(hidden, QueryStart(batch, i + 1) - 1), batch[i].computed - 1,
                            batch[0].cfg.sampling, batch[i].cfg.seed)
  {
    seq(|batch|, i requires 0 <= i < |batch| =>
      m.sample(Load(hidden, QueryStart(batch, i + 1) - 1), batch[i].computed - 1,
               batch[0].cfg.sampling, batch[i].cfg.seed))
  }

  /** The slot of every covered position is in range and belongs to one request at one position. */
  ghost predicate Exclusive(c: Config, all: seq<Req>)
    requires ValidConfig(c)
  {
    && (forall i, p :: 0 <= i < |all| && PageAt(c, all[i].blocks, p) != -1 ==>
          0 <= Slot(c, all[i].blocks, p) < c.maxBlocks * c.pageSize)
    && (forall i, p, j, q | 0 <= i < |all| && 0 <= j < |all|
                            && PageAt(c, all[i].blocks, p) != -1 && PageAt(c, all[j].blocks, q) != -1
                            && Slot(c, all[i].blocks, p) == Slot(c, all[j].blocks, q) :: i == j && p == q)
  }

  lemma {:induction false} OwnedPage(c: Config, pool: Pool, all: seq<Req>, i: nat, a: nat)
    requires Conserved(c, pool, Gather(BlocksOf, all)) && i < |all| && a < |all[i].blocks|
    ensures 0 <= all[i].blocks[a] < c.maxBlocks
  {
    GatherContains(BlocksOf, all, i);
    assert all[i].blocks[a] in multiset(all[i].blocks);
    ConservedPartition(c, pool, Gather(BlocksOf, all));
  }

  lemma {:induction false} RepeatCounts(s: seq<int>, a: nat, b: nat)
    requires a < b < |s| && s[a] == s[b]
    ensures multiset(s)[s[a]] >= 2
  {
    assert s == s[..b] + [s[b]] + s[b + 1..];
    assert s[..b][a] == s[a];
    assert s[a] in multiset(s[..b]);
    assert multiset(s) == multiset(s[..b]) + multiset{s[b]} + multiset(s[b + 1..]);
  }

  lemma {:induction false} SharedPageCounts(all: seq<Req>, i: nat, a: nat, j: nat, b: nat)
    requires i < |all| && j < |all| && a < |all[i].blocks| && b < |all[j].blocks|
    requires all[i].blocks[a] == all[j].blocks[b] && (i != j || a != b)
    ensures Gather(BlocksOf, all)[all[i].blocks[a]] >= 2
  {
    var page := all[i].blocks[a];
    assert page in multiset(all[i].blocks) && page in multiset(all[j].blocks);
    if i == j {
      GatherContains(BlocksOf, all, i);
      RepeatCounts(all[i].blocks, Min(a, b), Max(a, b));
      assert BlocksOf(all[i])[page] <= Gather(BlocksOf, all)[page];
    } else {
      var lo, hi := Min(i, j), Max(i, j);
      GatherContainsTwo(BlocksOf, all, lo, hi);
      assert (BlocksOf(all[lo]) + BlocksOf(all[hi]))[page] <= Gather(BlocksOf, all)[page];
    }
  }

  /** No page is in two tables, nor twice in one. */
  lemma {:induction false} PageHasOneOwner(c: Config, pool: Pool, all: seq<Req>, i: nat, a: nat, j: nat, b: nat)
    requires Conserved(c, pool, Gather(BlocksOf, all))
    requires i < |all| && j < |all| && a < |all[i].blocks| && b < |all[j].blocks|
    requires all[i].blocks[a] == all[j].blocks[b]
    ensures i == j && a == b
  {
    ConservedPartition(c, pool, Gather(BlocksOf, all));
    if i != j || a != b {
      SharedPageCounts(all, i, a, j, b);
    }
  }

  /** Page conservation gives every live position a slot of its own. */
  lemma {:induction false} ConservedIsExclusive(c: Config, pool: Pool, all: seq<Req>)
    requires ValidConfig(c) && Conserved(c, pool, Gather(BlocksOf, all))
    ensures Exclusive(c, all)
  {
    forall i, p | 0 <= i < |all| && PageAt(c, all[i].blocks, p) != -1
      ensures 0 <= Slot(c, all[i].blocks, p) < c.maxBlocks * c.pageSize
    {
      OwnedPage(c, pool, all, i, p / c.pageSize);
      SlotInRange(c, all[i].blocks, p);
    }
    forall i, p, j, q | 0 <= i < |all| && 0 <= j < |all|
                        && PageAt(c, all[i].blocks, p) != -1 && PageAt(c, all[j].blocks, q) != -1
                        && Slot(c, all[i].blocks, p) == Slot(c, all[j].blocks, q)
      ensures i == j && p == q
    {
      OwnedPage(c, pool, all, i, p / c.pageSize);
      OwnedPage(c, pool, all, j, q / c.pageSize);
      SlotInRange(c, all[i].blocks, p);
      SlotsMeet(c, all[i].blocks, p, all[j].blocks, q);
      PageHasOneOwner(c, pool, all, i, p / c.pageSize, j, q / c.pageSize);
    }
  }
}
