/** The paged, packed, chunked forward pass computes what the model computes with no cache at all. */
module DeviceProofs {
  import opened Prelude
  import opened Transformer
  import opened Requests
  import opened Pages
  import opened Cache
  import opened Device
  import opened SchedulingProofs

  ghost predicate StoreShape(c: Config, m: Model, store: Store)
  {
    |store| == m.layers && forall l :: 0 <= l < |store| ==> |store[l]| == c.maxBlocks * c.pageSize
  }

  /** A batch that is ready, among all the requests that hold pages: `all[pre..]` starts with it. */
  ghost predicate Among(c: Config, m: Model, store: Store, batch: seq<Req>, all: seq<Req>, pre: nat)
    requires ValidConfig(c)
  {
    && StoreShape(c, m, store)
    && Exclusive(c, all)
    && pre + |batch| <= |all|
    && (forall i :: 0 <= i < |batch| ==> all[pre + i] == batch[i])
    && (forall i :: 0 <= i < |batch| ==> Ready(c, m, store, batch[i]))
    && (forall i, p :: 0 <= i < |batch| && 0 <= p < batch[i].computed ==> PageAt(c, batch[i].blocks, p) != -1)
  }

  /** The text up to and including a row's position. */
  ghost function PrefixOf(batch: seq<Req>, row: Row): (p: seq<Token>)
    requires row.owner < |batch| && batch[row.owner].WellFormed()
    requires 0 <= row.pos < |batch[row.owner].Text()|
    ensures p != []
  {
    batch[row.owner].Text()[..row.pos + 1]
  }

  /** The packed input is the text at every position of this step, prefill and decode alike. */
  lemma {:induction false} InputIsText(c: Config, m: Model, r: Req, pos: int)
    requires ValidConfig(c) && Issued(c, m, r) && Before(r) <= pos < r.computed
    ensures 0 <= pos < |r.Text()| && InputAt(r, pos) == r.Text()[pos]
  {
  }

  /** A packed row is a request of the batch at a position of this step, in that position's slot. */
  ghost predicate RowOk(c: Config, batch: seq<Req>, row: Row)
    requires ValidConfig(c)
  {
    && row.owner < |batch| && batch[row.owner].WellFormed()
    && Before(batch[row.owner]) <= row.pos < batch[row.owner].computed
    && 0 <= row.pos < |batch[row.owner].Text()|
    && row.tok == batch[row.owner].Text()[row.pos]
    && row.slot == Slot(c, batch[row.owner].blocks, row.pos)
    && 0 <= row.slot < c.maxBlocks * c.pageSize
  }

  lemma {:induction false} RowFacts(c: Config, m: Model, store: Store, batch: seq<Req>, all: seq<Req>, pre: nat, j: nat)
    requires ValidConfig(c) && Among(c, m, store, batch, all, pre) && j < QueryStart(batch, |batch|)
    ensures RowOk(c, batch, Rows(c, batch, |batch|)[j])
    ensures var row := Rows(c, batch, |batch|)[j];
            && pre + row.owner < |all| && all[pre + row.owner] == batch[row.owner]
            && PageAt(c, batch[row.owner].blocks, row.pos) != -1
            && j == QueryStart(batch, row.owner) + row.pos - Before(batch[row.owner])
  {
    hide Slot, PageAt, StoreShape, Rows;
    RowOrigin(c, batch, |batch|, j);
    var row := Rows(c, batch, |batch|)[j];
    assert Ready(c, m, store, batch[row.owner]);
    assert all[pre + row.owner] == batch[row.owner];
    assert 0 <= Slot(c, all[pre + row.owner].blocks, row.pos) < c.maxBlocks * c.pageSize;
    RowIsOk(c, m, store, batch, row);
  }

  lemma {:induction false} RowIsOk(c: Config, m: Model, store: Store, batch: seq<Req>, row: Row)
    requires ValidConfig(c) && row.owner < |batch|
    requires Ready(c, m, store, batch[row.owner])
    requires Before(batch[row.owner]) <= row.pos < batch[row.owner].computed
    requires row == RowAt(c, batch[row.owner], row.owner, row.pos)
    requires 0 <= row.slot < c.maxBlocks * c.pageSize
    ensures RowOk(c, batch, row)
  {
    hide Cached, Slot;
    InputIsText(c, m, batch[row.owner], row.pos);
  }

  /** A covered position of any request meets a row of the batch only if it is that row's own. */
  lemma {:induction false} RowMeets(c: Config, m: Model, store: Store, batch: seq<Req>, all: seq<Req>, pre: nat, j: nat,
                                    k: nat, p: int)
    requires ValidConfig(c) && Among(c, m, store, batch, all, pre) && j < QueryStart(batch, |batch|)
    requires k < |all| && PageAt(c, all[k].blocks, p) != -1
    requires Rows(c, batch, |batch|)[j].slot == Slot(c, all[k].blocks, p)
    ensures k == pre + Rows(c, batch, |batch|)[j].owner && p == Rows(c, batch, |batch|)[j].pos
  {
    hide Ready, Slot, PageAt, StoreShape;
    RowFacts(c, m, store, batch, all, pre, j);
  }

  lemma {:induction false} RowsDiffer(c: Config, m: Model, store: Store, batch: seq<Req>, all: seq<Req>, pre: nat,
                                      j: nat, k: nat)
    requires ValidConfig(c) && Among(c, m, store, batch, all, pre) && j < k < QueryStart(batch, |batch|)
    ensures Rows(c, batch, |batch|)[j].slot != Rows(c, batch, |batch|)[k].slot
  {
    hide Among, Slot, PageAt;
    var rows := Rows(c, batch, |batch|);
    RowFacts(c, m, store, batch, all, pre, j);
    RowFacts(c, m, store, batch, all, pre, k);
    if rows[j].slot == rows[k].slot {
      RowMeets(c, m, store, batch, all, pre, j, pre + rows[k].owner, rows[k].pos);
    }
  }

  /** The writes of a batch are pairwise distinct and in range. */
  lemma {:induction false} BatchWritesAreDistinct(c: Config, m: Model, store: Store, batch: seq<Req>, all: seq<Req>,
                                                  pre: nat)
    requires ValidConfig(c) && Among(c, m, store, batch, all, pre)
    ensures DistinctSlots(Rows(c, batch, |batch|))
    ensures forall j :: 0 <= j < QueryStart(batch, |batch|) ==>
              0 <= Rows(c, batch, |batch|)[j].slot < c.maxBlocks * c.pageSize
  {
    hide Among, Slot, PageAt;
    var rows := Rows(c, batch, |batch|);
    forall j | 0 <= j < |rows| ensures 0 <= rows[j].slot < c.maxBlocks * c.pageSize {
      RowFacts(c, m, store, batch, all, pre, j);
    }
    forall j, k | 0 <= j < k < |rows| ensures rows[j].slot != rows[k].slot {
      RowsDiffer(c, m, store, batch, all, pre, j, k);
    }
  }

  /** The hidden states entering layer `l` are those of the plain model, row by row. */
  ghost predicate RowsAreIdeal(c: Config, batch: seq<Req>, l: nat, hidden: seq<Hidden>)
    requires ValidConfig(c) && |hidden| == QueryStart(batch, |batch|)
  {
    forall j :: 0 <= j < |hidden| ==>
      var row := Rows(c, batch, |batch|)[j];
      RowOk(c, batch, row) && hidden[j] == Ideal(l, PrefixOf(batch, row))
  }

  lemma {:induction false} WriteEffects(c: Config, m: Model, store: Store, batch: seq<Req>, all: seq<Req>, pre: nat,
                     l: nat, hidden: seq<Hidden>)
    requires ValidConfig(c) && Among(c, m, store, batch, all, pre) && l < |store|
    requires |hidden| == QueryStart(batch, |batch|)
    ensures var rows := Rows(c, batch, |batch|);
            var after := StoreRows(store[l], rows, hidden);
            && |after| == |store[l]| == c.maxBlocks * c.pageSize
            && (forall j :: 0 <= j < |rows| ==> Load(after, rows[j].slot) == hidden[j])
            && (forall s :: 0 <= s < |after| && (forall j :: 0 <= j < |rows| ==> rows[j].slot != s) ==>
                  after[s] == store[l][s])
  {
    hide Exclusive, Ready, PageAt, Slot;
    BatchWritesAreDistinct(c, m, store, batch, all, pre);
    StoreRowsEffect(store[l], Rows(c, batch, |batch|), hidden);
  }

  /** A position computed in an earlier step is not written by the batch. */
  lemma {:induction false} EarlierIsUntouched(c: Config, m: Model, store: Store, batch: seq<Req>, all: seq<Req>,
                                              pre: nat, i: nat, q: int, j: nat)
    requires ValidConfig(c) && Among(c, m, store, batch, all, pre) && i < |batch|
    requires 0 <= q < Before(batch[i]) && q < batch[i].computed && j < QueryStart(batch, |batch|)
    ensures Rows(c, batch, |batch|)[j].slot != Slot(c, batch[i].blocks, q)
  {
    hide Ready, Slot, PageAt, StoreShape, Exclusive;
    assert all[pre + i] == batch[i] && PageAt(c, batch[i].blocks, q) != -1;
    RowFacts(c, m, store, batch, all, pre, j);
    if Rows(c, batch, |batch|)[j].slot == Slot(c, batch[i].blocks, q) {
      RowMeets(c, m, store, batch, all, pre, j, pre + i, q);
    }
  }

  /** A position of this step holds what its own row stored. */
  lemma {:induction false} ReadsNew(c: Config, m: Model, store: Store, batch: seq<Req>, all: seq<Req>, pre: nat,
                                    l: nat, hidden: seq<Hidden>, i: nat, q: int)
    requires ValidConfig(c) && Among(c, m, store, batch, all, pre) && l < |store|
    requires QueryStart(batch, |batch|) == |hidden| && RowsAreIdeal(c, batch, l, hidden)
    requires i < |batch| && batch[i].WellFormed() && Before(batch[i]) <= q < batch[i].computed
    requires 0 <= q < |batch[i].Text()|
    ensures Load(StoreRows(store[l], Rows(c, batch, |batch|), hidden), Slot(c, batch[i].blocks, q))
            == Ideal(l, batch[i].Text()[..q + 1])
  {
    hide Among, Slot, StoreRows, Ideal, PageAt, Rows, RowsAreIdeal, QueryStart, RowOk, Before;
    var k := NewRow(c, batch, l, hidden, i, q);
    WriteEffects(c, m, store, batch, all, pre, l, hidden);
  }

  /** The row of a position of this step: its slot and its hidden state. */
  lemma {:induction false} NewRow(c: Config, batch: seq<Req>, l: nat, hidden: seq<Hidden>, i: nat, q: int)
    returns (k: nat)
    requires ValidConfig(c) && QueryStart(batch, |batch|) == |hidden| && RowsAreIdeal(c, batch, l, hidden)
    requires i < |batch| && batch[i].WellFormed() && Before(batch[i]) <= q < batch[i].computed
    requires 0 <= q < |batch[i].Text()|
    ensures k < |hidden| && Rows(c, batch, |batch|)[k].slot == Slot(c, batch[i].blocks, q)
    ensures hidden[k] == Ideal(l, batch[i].Text()[..q + 1])
  {
    hide Slot, Ideal, Rows, RowsAreIdeal, QueryStart, RowOk, InputAt;
    RowIndex(c, batch, |batch|, i, q);
    k := QueryStart(batch, i) + q - Before(batch[i]);
    RowIdeal(c, batch, l, hidden, k);
  }

  lemma {:induction false} RowIdeal(c: Config, batch: seq<Req>, l: nat, hidden: seq<Hidden>, j: nat)
    requires ValidConfig(c) && |hidden| == QueryStart(batch, |batch|) && RowsAreIdeal(c, batch, l, hidden)
    requires j < |hidden|
    ensures var row := Rows(c, batch, |batch|)[j];
            RowOk(c, batch, row) && hidden[j] == Ideal(l, PrefixOf(batch, row))
  {
    hide RowOk, Ideal, Rows, QueryStart;
  }

  /** A position of an earlier step still holds what was stored then. */
  lemma {:induction false} ReadsOld(c: Config, m: Model, store: Store, batch: seq<Req>, all: seq<Req>, pre: nat,
                                    l: nat, hidden: seq<Hidden>, i: nat, q: int)
    requires ValidConfig(c) && Among(c, m, store, batch, all, pre) && l < m.layers == |store|
    requires QueryStart(batch, |batch|) == |hidden|
    requires i < |batch| && batch[i].WellFormed() && 0 <= q < Before(batch[i]) && q < batch[i].computed
    requires q < |batch[i].Text()|
    ensures Load(StoreRows(store[l], Rows(c, batch, |batch|), hidden), Slot(c, batch[i].blocks, q))
            == Ideal(l, batch[i].Text()[..q + 1])
  {
    hide Slot, StoreRows, Ideal, PageAt;
    WriteEffects(c, m, store, batch, all, pre, l, hidden);
    ReadyRead(c, m, store, batch, l, q, i);
    var rows := Rows(c, batch, |batch|);
    forall k | 0 <= k < |rows| ensures rows[k].slot != Slot(c, batch[i].blocks, q) {
      EarlierIsUntouched(c, m, store, batch, all, pre, i, q, k);
    }
  }

  lemma {:induction false} ReadyRead(c: Config, m: Model, store: Store, batch: seq<Req>, l: nat, q: int, i: nat)
    requires ValidConfig(c) && i < |batch| && l < m.layers
    requires forall k :: 0 <= k < |batch| ==> Ready(c, m, store, batch[k])
    requires 0 <= q < Before(batch[i])
    ensures var r := batch[i];
            && r.WellFormed() && q < |r.Text()|
            && 0 <= l < |store| && 0 <= Slot(c, r.blocks, q) < |store[l]|
            && store[l][Slot(c, r.blocks, q)] == Ideal(l, r.Text()[..q + 1])
  {
    hide Issued, Slot;
    var r := batch[i];
    assert Ready(c, m, store, batch[i]);
    assert Read(store, l, Slot(c, r.blocks, q)) == Some(Ideal(l, r.Text()[..q + 1]));
  }

  /** A row whose reads are those of a contiguous cache moves to the next layer as the model does. */
  lemma {:induction false} AttendIdealReads(c: Config, layer: seq<Hidden>, blocks: seq<int>, l: nat, prefix: seq<Token>,
                                            h: Hidden)
    requires ValidConfig(c) && prefix != [] && h == Ideal(l, prefix)
    requires forall q :: 0 <= q < |prefix| ==> Load(layer, Slot(c, blocks, q)) == Ideal(l, prefix[..q + 1])
    ensures Attend(c, layer, blocks, |prefix| - 1, h) == Ideal(l + 1, prefix)
  {
    hide Slot, Load;
    var read := seq(Max(0, |prefix| - 1 + 1), q => Load(layer, Slot(c, blocks, q)));
    var ideal := seq(|prefix|, i requires 0 <= i < |prefix| => Ideal(l, prefix[..i + 1]));
    assert read == ideal;
  }

  /** After the stores of layer `l`, every position of this batch reads as in a contiguous cache. */
  lemma {:induction false} ReadsIdeal(c: Config, m: Model, store: Store, batch: seq<Req>, all: seq<Req>, pre: nat,
                   l: nat, hidden: seq<Hidden>, i: nat, q: int)
    requires ValidConfig(c) && Among(c, m, store, batch, all, pre) && l < m.layers == |store|
    requires QueryStart(batch, |batch|) == |hidden| && RowsAreIdeal(c, batch, l, hidden)
    requires i < |batch| && batch[i].WellFormed() && 0 <= q < batch[i].computed && q < |batch[i].Text()|
    ensures Load(StoreRows(store[l], Rows(c, batch, |batch|), hidden), Slot(c, batch[i].blocks, q))
            == Ideal(l, batch[i].Text()[..q + 1])
  {
    hide *;
    if Before(batch[i]) <= q {
      ReadsNew(c, m, store, batch, all, pre, l, hidden, i, q);
    } else {
      ReadsOld(c, m, store, batch, all, pre, l, hidden, i, q);
    }
  }

  lemma {:induction false} AttendRowIsIdeal(c: Config, m: Model, store: Store, batch: seq<Req>, all: seq<Req>, pre: nat,
                         l: nat, hidden: seq<Hidden>, j: nat)
    requires ValidConfig(c) && Among(c, m, store, batch, all, pre) && l < m.layers == |store|
    requires |hidden| == QueryStart(batch, |batch|) && RowsAreIdeal(c, batch, l, hidden)
    requires j < |hidden| && RowOk(c, batch, Rows(c, batch, |batch|)[j])
    ensures var rows := Rows(c, batch, |batch|);
            Attend(c, StoreRows(store[l], rows, hidden), batch[rows[j].owner].blocks, rows[j].pos, hidden[j])
            == Ideal(l + 1, PrefixOf(batch, rows[j]))
  {
    hide Among, StoreRows, Slot, RowsAreIdeal, Rows, QueryStart, Attend, Load, Ideal;
    RowIdeal(c, batch, l, hidden, j);
    var row := Rows(c, batch, |batch|)[j];
    var layer := StoreRows(store[l], Rows(c, batch, |batch|), hidden);
    var r := batch[row.owner];
    var prefix := PrefixOf(batch, row);
    forall q | 0 <= q < |prefix| ensures Load(layer, Slot(c, r.blocks, q)) == Ideal(l, prefix[..q + 1]) {
      assert prefix[..q + 1] == r.Text()[..q + 1];
      ReadsIdeal(c, m, store, batch, all, pre, l, hidden, row.owner, q);
    }
    AttendIdealReads(c, layer, r.blocks, l, prefix, hidden[j]);
  }

  lemma {:induction false} AttendIsIdeal(c: Config, m: Model, store: Store, batch: seq<Req>, all: seq<Req>, pre: nat,
                      l: nat, hidden: seq<Hidden>)
    requires ValidConfig(c) && Among(c, m, store, batch, all, pre) && l < m.layers == |store|
    requires |hidden| == QueryStart(batch, |batch|) && RowsAreIdeal(c, batch, l, hidden)
    requires forall j :: 0 <= j < |hidden| ==> Rows(c, batch, |batch|)[j].owner < |batch|
    ensures var rows := Rows(c, batch, |batch|);
            RowsAreIdeal(c, batch, l + 1, AttendRows(c, batch, StoreRows(store[l], rows, hidden), rows, hidden))
  {
    hide Among, StoreRows, Attend, Ideal;
    var rows := Rows(c, batch, |batch|);
    var layer := StoreRows(store[l], rows, hidden);
    var after := AttendRows(c, batch, layer, rows, hidden);
    forall j | 0 <= j < |rows|
      ensures RowOk(c, batch, rows[j]) && after[j] == Ideal(l + 1, PrefixOf(batch, rows[j]))
    {
      AttendRowIsIdeal(c, m, store, batch, all, pre, l, hidden, j);
    }
  }

  /** One layer of the store after the batch: the rows' slots hold the model's own hidden states,
      every other slot is as before. */
  ghost predicate Written(c: Config, batch: seq<Req>, l: nat, before: seq<Hidden>, after: seq<Hidden>)
    requires ValidConfig(c)
  {
    var rows := Rows(c, batch, |batch|);
    && |after| == |before|
    && (forall j :: 0 <= j < |rows| ==>
          RowOk(c, batch, rows[j]) && Load(after, rows[j].slot) == Ideal(l, PrefixOf(batch, rows[j])))
    && (forall s :: 0 <= s < |before| && (forall j :: 0 <= j < |rows| ==> rows[j].slot != s) ==> after[s] == before[s])
  }

  lemma {:induction false} StoreIsWritten(c: Config, m: Model, store: Store, batch: seq<Req>, all: seq<Req>, pre: nat,
                       l: nat, hidden: seq<Hidden>)
    requires ValidConfig(c) && Among(c, m, store, batch, all, pre) && l < |store|
    requires |hidden| == QueryStart(batch, |batch|) && RowsAreIdeal(c, batch, l, hidden)
    ensures Written(c, batch, l, store[l], StoreRows(store[l], Rows(c, batch, |batch|), hidden))
  {
    hide Among, StoreRows, Rows, Load, Ideal, RowOk, QueryStart;
    WriteEffects(c, m, store, batch, all, pre, l, hidden);
  }

  /** The loop over layers: by the last one every row has the model's own hidden state. */
  lemma {:induction false} LayersEffect(c: Config, m: Model, store0: Store, batch: seq<Req>, all: seq<Req>, pre: nat,
                                        l: nat, store: Store, hidden: seq<Hidden>)
    requires ValidConfig(c) && Among(c, m, store0, batch, all, pre)
    requires |store| == |store0| == m.layers && l <= m.layers
    requires forall k :: l <= k < m.layers ==> store[k] == store0[k]
    requires |hidden| == QueryStart(batch, |batch|) && RowsAreIdeal(c, batch, l, hidden)
    requires forall j :: 0 <= j < |hidden| ==> Rows(c, batch, |batch|)[j].owner < |batch|
    ensures var out := Layers(c, batch, Rows(c, batch, |batch|), l, store, hidden);
            && RowsAreIdeal(c, batch, m.layers, out.1)
            && (forall k :: 0 <= k < l ==> out.0[k] == store[k])
            && (forall k :: l <= k < m.layers ==> Written(c, batch, k, store0[k], out.0[k]))
    decreases m.layers - l
  {
    hide Among, RowsAreIdeal, Written, StoreRows, Rows, QueryStart, AttendRows;
    if l < m.layers {
      var rows := Rows(c, batch, |batch|);
      var layer := StoreRows(store[l], rows, hidden);
      var next := AttendRows(c, batch, layer, rows, hidden);
      StoreIsWritten(c, m, store0, batch, all, pre, l, hidden);
      AttendIsIdeal(c, m, store0, batch, all, pre, l, hidden);
      LayersEffect(c, m, store0, batch, all, pre, l + 1, store[l := layer], next);
    }
  }

  lemma {:induction false} EmbeddingsAreIdeal(c: Config, m: Model, store: Store, batch: seq<Req>, all: seq<Req>,
                                              pre: nat)
    requires ValidConfig(c) && Among(c, m, store, batch, all, pre)
    ensures RowsAreIdeal(c, batch, 0, Embeddings(Rows(c, batch, |batch|)))
  {
    var rows := Rows(c, batch, |batch|);
    forall j | 0 <= j < |rows|
      ensures RowOk(c, batch, rows[j]) && Embed(rows[j].tok, rows[j].pos) == Ideal(0, PrefixOf(batch, rows[j]))
    {
      RowFacts(c, m, store, batch, all, pre, j);
    }
  }

  /** The whole forward pass over the paged store. */
  lemma {:induction false} ForwardEffect(c: Config, m: Model, store: Store, batch: seq<Req>, all: seq<Req>, pre: nat)
    requires ValidConfig(c) && Among(c, m, store, batch, all, pre)
    ensures var (after, hidden) := Forward(c, store, batch);
            && |after| == m.layers && |hidden| == QueryStart(batch, |batch|)
            && RowsAreIdeal(c, batch, m.layers, hidden)
            && (forall l :: 0 <= l < m.layers ==> Written(c, batch, l, store[l], after[l]))
  {
    OwnersInRange(c, batch);
    EmbeddingsAreIdeal(c, m, store, batch, all, pre);
    LayersEffect(c, m, store, batch, all, pre, 0, store, Embeddings(Rows(c, batch, |batch|)));
  }

  /** The live positions of every request that holds pages and is not in the batch are untouched. */
  lemma {:induction false} OthersStayCached(c: Config, m: Model, store: Store, after: Store, batch: seq<Req>,
                                            all: seq<Req>, pre: nat, k: nat, n: int)
    requires ValidConfig(c) && Among(c, m, store, batch, all, pre) && |after| == m.layers
    requires forall l :: 0 <= l < m.layers ==> Written(c, batch, l, store[l], after[l])
    requires k < |all| && !(pre <= k < pre + |batch|) && Cached(c, m, store, all[k], n)
    requires forall p :: 0 <= p < n ==> PageAt(c, all[k].blocks, p) != -1
    ensures Cached(c, m, after, all[k], n)
  {
    hide Slot, PageAt, Rows, QueryStart, Ideal;
    var r := all[k];
    forall l, p | 0 <= l < m.layers && 0 <= p < n
      ensures Read(after, l, Slot(c, r.blocks, p)) == Some(Ideal(l, r.Text()[..p + 1]))
    {
      OtherIsUntouched(c, m, store, batch, all, pre, k, p);
      assert Read(store, l, Slot(c, r.blocks, p)) == Some(Ideal(l, r.Text()[..p + 1]));
      assert Written(c, batch, l, store[l], after[l]);
    }
  }

  lemma {:induction false} OtherIsUntouched(c: Config, m: Model, store: Store, batch: seq<Req>, all: seq<Req>, pre: nat,
                                            k: nat, p: int)
    requires ValidConfig(c) && Among(c, m, store, batch, all, pre)
    requires k < |all| && !(pre <= k < pre + |batch|) && PageAt(c, all[k].blocks, p) != -1
    ensures forall j :: 0 <= j < |Rows(c, batch, |batch|)| ==>
              Rows(c, batch, |batch|)[j].slot != Slot(c, all[k].blocks, p)
  {
    hide Among, Slot, PageAt;
    forall j | 0 <= j < |Rows(c, batch, |batch|)|
      ensures Rows(c, batch, |batch|)[j].slot != Slot(c, all[k].blocks, p)
    {
      RowFacts(c, m, store, batch, all, pre, j);
      if Rows(c, batch, |batch|)[j].slot == Slot(c, all[k].blocks, p) {
        RowMeets(c, m, store, batch, all, pre, j, k, p);
      }
    }
  }

  /** After the step, everything the batch has computed is in the cache. */
  lemma {:induction false} BatchIsCached(c: Config, m: Model, store: Store, after: Store, batch: seq<Req>,
                                         all: seq<Req>, pre: nat, i: nat)
    requires ValidConfig(c) && Among(c, m, store, batch, all, pre) && |after| == m.layers && i < |batch|
    requires forall l :: 0 <= l < m.layers ==> Written(c, batch, l, store[l], after[l])
    ensures Cached(c, m, after, batch[i], batch[i].computed)
  {
    hide Slot, PageAt, Ideal;
    var r := batch[i];
    assert Ready(c, m, store, r);
    CeilDivMonotone(Max(0, r.computed), Max(|r.input|, r.computed), c.pageSize);
    forall l, p | 0 <= l < m.layers && 0 <= p < r.computed
      ensures Read(after, l, Slot(c, r.blocks, p)) == Some(Ideal(l, r.Text()[..p + 1]))
    {
      BatchReads(c, m, store, after, batch, all, pre, i, l, p);
    }
  }

  lemma {:induction false} BatchReads(c: Config, m: Model, store: Store, after: Store, batch: seq<Req>, all: seq<Req>,
                                      pre: nat, i: nat, l: nat, p: int)
    requires ValidConfig(c) && Among(c, m, store, batch, all, pre) && |after| == m.layers && i < |batch|
    requires l < m.layers && Written(c, batch, l, store[l], after[l])
    requires 0 <= p < batch[i].computed && batch[i].WellFormed() && p < |batch[i].Text()|
    ensures Read(after, l, Slot(c, batch[i].blocks, p)) == Some(Ideal(l, batch[i].Text()[..p + 1]))
  {
    hide Slot, PageAt, Ideal, Rows, QueryStart, RowOk;
    BatchSlotInRange(c, m, store, batch, all, pre, i, p);
    if Before(batch[i]) <= p {
      BatchReadsNew(c, m, store, batch, all, pre, i, l, p, after[l]);
    } else {
      BatchReadsOld(c, m, store, batch, all, pre, i, l, p, after[l]);
    }
  }

  lemma {:induction false} BatchSlotInRange(c: Config, m: Model, store: Store, batch: seq<Req>, all: seq<Req>, pre: nat,
                                            i: nat, p: int)
    requires ValidConfig(c) && Among(c, m, store, batch, all, pre) && i < |batch| && 0 <= p < batch[i].computed
    ensures 0 <= Slot(c, batch[i].blocks, p) < c.maxBlocks * c.pageSize
    ensures forall l :: 0 <= l < m.layers ==> |store[l]| == c.maxBlocks * c.pageSize
  {
    hide Ready, Slot, PageAt;
    assert all[pre + i] == batch[i] && PageAt(c, batch[i].blocks, p) != -1;
    assert 0 <= Slot(c, all[pre + i].blocks, p) < c.maxBlocks * c.pageSize;
  }

  lemma {:induction false} BatchReadsNew(c: Config, m: Model, store: Store, batch: seq<Req>, all: seq<Req>, pre: nat,
                                         i: nat, l: nat, p: int, after: seq<Hidden>)
    requires ValidConfig(c) && Among(c, m, store, batch, all, pre) && i < |batch|
    requires l < m.layers == |store| && Written(c, batch, l, store[l], after)
    requires Before(batch[i]) <= p < batch[i].computed && batch[i].WellFormed() && 0 <= p < |batch[i].Text()|
    ensures Load(after, Slot(c, batch[i].blocks, p)) == Ideal(l, batch[i].Text()[..p + 1])
  {
    hide Among, Slot, PageAt, Ideal, Load, Written, Rows, QueryStart, RowOk;
    RowIndex(c, batch, |batch|, i, p);
    var j := QueryStart(batch, i) + p - Before(batch[i]);
    WrittenRow(c, batch, l, store[l], after, j);
  }

  lemma {:induction false} BatchReadsOld(c: Config, m: Model, store: Store, batch: seq<Req>, all: seq<Req>, pre: nat,
                                         i: nat, l: nat, p: int, after: seq<Hidden>)
    requires ValidConfig(c) && Among(c, m, store, batch, all, pre) && i < |batch|
    requires l < m.layers == |store| && Written(c, batch, l, store[l], after)
    requires 0 <= p < Before(batch[i]) && p < batch[i].computed && batch[i].WellFormed() && p < |batch[i].Text()|
    ensures Load(after, Slot(c, batch[i].blocks, p)) == Ideal(l, batch[i].Text()[..p + 1])
  {
    hide Slot, PageAt, Ideal, Rows, QueryStart, RowOk;
    ReadyRead(c, m, store, batch, l, p, i);
    forall j | 0 <= j < |Rows(c, batch, |batch|)|
      ensures Rows(c, batch, |batch|)[j].slot != Slot(c, batch[i].blocks, p)
    {
      EarlierIsUntouched(c, m, store, batch, all, pre, i, p, j);
    }
  }

  lemma {:induction false} WrittenRow(c: Config, batch: seq<Req>, l: nat, before: seq<Hidden>, after: seq<Hidden>,
                                      j: nat)
    requires ValidConfig(c) && Written(c, batch, l, before, after) && j < |Rows(c, batch, |batch|)|
    ensures var row := Rows(c, batch, |batch|)[j];
            RowOk(c, batch, row) && Load(after, row.slot) == Ideal(l, PrefixOf(batch, row))
  {
    hide RowOk, Load, Ideal, Rows;
  }

  /** Every request of the batch that is past its prefill gets the token the plain loop gives. */
  lemma {:induction false} TokensAreExpected(c: Config, m: Model, store: Store, batch: seq<Req>, all: seq<Req>,
                                             pre: nat, hidden: seq<Hidden>, i: nat)
    requires ValidConfig(c) && Among(c, m, store, batch, all, pre) && i < |batch|
    requires |hidden| == QueryStart(batch, |batch|) && RowsAreIdeal(c, batch, m.layers, hidden)
    requires !MidPrefill(batch[i]) && UniformSampling(batch)
    ensures batch[i].WellFormed() && Select(m, batch, hidden)[i] == Expected(m, batch[i])
  {
    hide Among, Ready, Ideal, RowsAreIdeal, Rows, QueryStart, Select, Expected;
    BatchIsReady(c, m, store, batch, all, pre, i);
    DoneIsWholeText(c, m, store, batch[i]);
    LastRowIsIdeal(c, batch, m.layers, hidden, i);
    SampledText(m, batch[i], hidden[QueryStart(batch, i + 1) - 1]);
  }

  lemma {:induction false} BatchIsReady(c: Config, m: Model, store: Store, batch: seq<Req>, all: seq<Req>, pre: nat,
                                        i: nat)
    requires ValidConfig(c) && Among(c, m, store, batch, all, pre) && i < |batch|
    ensures Ready(c, m, store, batch[i])
  {
    hide Ready, Exclusive, StoreShape;
  }

  lemma {:induction false} LastRowIsIdeal(c: Config, batch: seq<Req>, l: nat, hidden: seq<Hidden>, i: nat)
    requires ValidConfig(c) && |hidden| == QueryStart(batch, |batch|) && RowsAreIdeal(c, batch, l, hidden)
    requires i < |batch| && batch[i].step >= 1 && batch[i].WellFormed() && batch[i].computed == |batch[i].Text()|
    ensures 0 <= QueryStart(batch, i + 1) - 1 < |hidden|
    ensures hidden[QueryStart(batch, i + 1) - 1] == Ideal(l, batch[i].Text())
  {
    hide RowsAreIdeal, Ideal, Rows, QueryStart, Slot, PageAt;
    LastRow(c, batch, i);
    RowIdeal(c, batch, l, hidden, QueryStart(batch, i + 1) - 1);
    assert batch[i].Text()[..|batch[i].Text()|] == batch[i].Text();
  }

  lemma {:induction false} SampledText(m: Model, r: Req, h: Hidden)
    requires r.WellFormed() && h == Ideal(m.layers, r.Text()) && r.computed == |r.Text()|
    ensures m.sample(h, r.computed - 1, r.cfg.sampling, r.cfg.seed) == Expected(m, r)
  {
    hide Ideal;
  }

  lemma {:induction false} DoneIsWholeText(c: Config, m: Model, store: Store, r: Req)
    requires ValidConfig(c) && Ready(c, m, store, r) && !MidPrefill(r)
    ensures r.WellFormed() && r.computed == |r.Text()| && r.step >= 1
  {
    hide Cached;
  }

  /** `query_start_loc[i + 1] - 1` is the row of a request's newest position. */
  lemma {:induction false} LastRow(c: Config, batch: seq<Req>, i: nat)
    requires ValidConfig(c) && i < |batch| && batch[i].step >= 1
    ensures 0 <= QueryStart(batch, i + 1) - 1 < QueryStart(batch, |batch|)
    ensures Rows(c, batch, |batch|)[QueryStart(batch, i + 1) - 1] == RowAt(c, batch[i], i, batch[i].computed - 1)
  {
    RowIndex(c, batch, |batch|, i, batch[i].computed - 1);
  }
}
