/**
 The forward pass as a graph replays it: over the arrays alone, padded tokens and padded requests included.
 Whatever the padding computes, the real rows and the caches come out as those of the batch.
 */
module PaddedForward {
  import opened Prelude
  import opened Transformer
  import opened Requests
  import opened Pages
  import opened Cache
  import opened Device
  import opened GenContext
  import opened GraphDispatch
  import opened Stages

  /** The request that a packed row belongs to, by `query_start_loc`; a padded token belongs to none. */
  function RequestOf(starts: seq<nat>, n: nat, j: nat): (i: Option<nat>)
    requires n < |starts|
    ensures i.Some? ==> i.value < n && starts[i.value] <= j < starts[i.value + 1]
  {
    if n == 0 then None
    else if starts[n - 1] <= j < starts[n] then Some(n - 1)
    else RequestOf(starts, n - 1, j)
  }

  predicate Ascending(starts: seq<nat>) { forall i, j :: 0 <= i <= j < |starts| ==> starts[i] <= starts[j] }

  lemma {:induction false} RequestOfRow(starts: seq<nat>, n: nat, j: nat, i: nat)
    requires n < |starts| && Ascending(starts) && i < n && starts[i] <= j < starts[i + 1]
    ensures RequestOf(starts, n, j) == Some(i)
  {
    if i < n - 1 { RequestOfRow(starts, n - 1, j, i); }
  }

  /** Arrays of matching sizes. */
  predicate Sized(g: Context)
  {
    |g.slotMapping| == |g.positions| && |g.contextLens| == |g.blockTables| && |g.queryStart| == |g.contextLens| + 1
  }

  /** The position of row `j` in request `i`, counted from the end of the request's context. */
  function PositionIn(g: Context, i: nat, j: nat): int
    requires Sized(g) && i < |g.contextLens|
  {
    g.contextLens[i] - (g.queryStart[i + 1] as int - g.queryStart[i] as int) + j - g.queryStart[i]
  }

  /** One row's attention by the arrays. */
  function AttendAt(c: Config, g: Context, layer: seq<Hidden>, j: nat, h: Hidden, junk: Hidden): Hidden
    requires ValidConfig(c) && Sized(g)
  {
    match RequestOf(g.queryStart, |g.contextLens|, j)
    case None => junk
    case Some(i) =>
      Attend(c, layer, g.blockTables[i], PositionIn(g, i, j), h)
  }

  function SlotRows(slots: seq<int>): (rows: seq<Row>)
    ensures |rows| == |slots| && forall j :: 0 <= j < |rows| ==> rows[j].slot == slots[j]
  {
    seq(|slots|, j requires 0 <= j < |slots| => Row(0, 0, 0, slots[j]))
  }

  /** One layer's rows. */
  function ArrayRows(c: Config, g: Context, l: nat, layer: seq<Hidden>, hidden: seq<Hidden>,
                     junk: (nat, nat) -> Hidden)
    : (next: seq<Hidden>)
    requires ValidConfig(c) && Sized(g)
    ensures |next| == |hidden|
  {
    seq(|hidden|, j requires 0 <= j < |hidden| => AttendAt(c, g, layer, j, hidden[j], junk(l, j)))
  }

  /** The layers of one rank over the arrays. `junk` is what rows of no request hold after a layer. */
  function ArrayLayers(c: Config, g: Context, l: nat, part: Store, hidden: seq<Hidden>, junk: (nat, nat) -> Hidden)
    : (out: (Store, seq<Hidden>))
    requires ValidConfig(c) && Sized(g) && |hidden| == |g.positions| && l <= |part|
    ensures |out.1| == |hidden|
    decreases |part| - l
  {
    if l == |part| then (part, hidden)
    else
      var layer := StoreRows(part[l], SlotRows(g.slotMapping), hidden);
      ArrayLayers(c, g, l + 1, part[l := layer], ArrayRows(c, g, l, layer, hidden, junk), junk)
  }

  /** The arrays of a batch, padded as `_prepare_input_buffers_from_gen_ctx` pads them. */
  predicate Padded(g: Context, p: Context)
  {
    && Sized(g) && Sized(p) && |g.positions| <= |p.positions| && |g.contextLens| <= |p.contextLens|
    && PrefixThen(p.slotMapping, g.slotMapping, |p.slotMapping|, -1)
    && PrefixThen(p.contextLens, g.contextLens, |p.contextLens|, 0)
    && PrefixThen(p.queryStart, g.queryStart, |p.queryStart|, |g.positions|)
    && forall i :: 0 <= i < |g.blockTables| ==> p.blockTables[i] == g.blockTables[i]
  }

  /** The store looks at slots only. */
  lemma {:induction false} StoreBySlots(layer: seq<Hidden>, rows: seq<Row>, rows': seq<Row>, hidden: seq<Hidden>)
    requires |rows| == |rows'| == |hidden| && forall j :: 0 <= j < |rows| ==> rows[j].slot == rows'[j].slot
    ensures StoreRows(layer, rows, hidden) == StoreRows(layer, rows', hidden)
  {
    if rows != [] {
      var n := |rows| - 1;
      StoreBySlots(layer, rows[..n], rows'[..n], hidden[..n]);
    }
  }

  /** Padded tokens are written nowhere: the store after a padded layer is the store after the batch's. */
  lemma {:induction false} PaddingWritesNothing(layer: seq<Hidden>, rows: seq<Row>, hidden: seq<Hidden>,
                                                slots: seq<int>, padded: seq<Hidden>)
    requires |hidden| == |rows| <= |slots| == |padded| && padded[..|rows|] == hidden
    requires forall j :: 0 <= j < |rows| ==> slots[j] == rows[j].slot
    requires forall j :: |rows| <= j < |slots| ==> slots[j] == -1
    ensures StoreRows(layer, SlotRows(slots), padded) == StoreRows(layer, rows, hidden)
    decreases |slots|
  {
    if |slots| == |rows| {
      assert padded == hidden;
      StoreBySlots(layer, SlotRows(slots), rows, hidden);
    } else {
      var n := |slots| - 1;
      assert SlotRows(slots)[..n] == SlotRows(slots[..n]) && padded[..n][..|rows|] == hidden;
      PaddingWritesNothing(layer, rows, hidden, slots[..n], padded[..n]);
    }
  }

  /** Padding a table with -1 does not move any slot. */
  lemma {:induction false} PaddedTableKeepsSlots(c: Config, blocks: seq<int>, width: nat, pos: int)
    requires ValidConfig(c) && |blocks| <= width
    ensures Slot(c, TableRow(blocks, width), pos) == Slot(c, blocks, pos)
  {
    var row := TableRow(blocks, width);
    if 0 <= pos / c.pageSize < |blocks| { assert row[..|blocks|][pos / c.pageSize] == row[pos / c.pageSize]; }
  }

  lemma {:induction false} PaddedTableAttends(c: Config, layer: seq<Hidden>, blocks: seq<int>, width: nat, pos: int,
                                              h: Hidden)
    requires ValidConfig(c) && |blocks| <= width
    ensures Attend(c, layer, TableRow(blocks, width), pos, h) == Attend(c, layer, blocks, pos, h)
  {
    hide Slot, TableRow;
    forall q ensures Slot(c, TableRow(blocks, width), q) == Slot(c, blocks, q) {
      PaddedTableKeepsSlots(c, blocks, width, q);
    }
  }

  lemma {:induction false} PaddedAscends(c: Config, batch: seq<Req>, width: nat, g: Context, p: Context)
    requires ValidConfig(c) && Represents(c, batch, width, g) && Padded(g, p)
    ensures Ascending(p.queryStart)
    ensures forall i :: 0 <= i <= |batch| ==> p.queryStart[i] == QueryStart(batch, i)
  {
    forall i | 0 <= i <= |batch| ensures p.queryStart[i] == QueryStart(batch, i) {
      assert p.queryStart[i] == p.queryStart[..|g.queryStart|][i];
    }
    forall i, j | 0 <= i <= j < |p.queryStart| ensures p.queryStart[i] <= p.queryStart[j] {
      QueryStartAscends(batch, Min(i, |batch|), Min(j, |batch|));
      QueryStartAscends(batch, Min(i, |batch|), |batch|);
    }
  }

  /** A real row belongs to its own request, at its own position. */
  lemma {:induction false} RealRowPlace(c: Config, batch: seq<Req>, width: nat, g: Context, p: Context, j: nat)
    requires ValidConfig(c) && Represents(c, batch, width, g) && Padded(g, p) && j < |Rows(c, batch, |batch|)|
    ensures var row := Rows(c, batch, |batch|)[j];
            && row.owner < |batch| && |batch[row.owner].blocks| <= width
            && RequestOf(p.queryStart, |p.contextLens|, j) == Some(row.owner)
            && p.blockTables[row.owner] == TableRow(batch[row.owner].blocks, width)
            && PositionIn(p, row.owner, j) == row.pos
  {
    hide Rows, TableRow, RequestOf;
    RowOrigin(c, batch, |batch|, j);
    var i := Rows(c, batch, |batch|)[j].owner;
    PaddedAscends(c, batch, width, g, p);
    QueryStartOf(batch, i, |batch|);
    RequestOfRow(p.queryStart, |p.contextLens|, j, i);
    assert p.contextLens[i] == p.contextLens[..|g.contextLens|][i];
  }

  /** A real row attends as in the batch. */
  lemma {:induction false} RealRowAttends(c: Config, batch: seq<Req>, width: nat, g: Context, p: Context,
                                          layer: seq<Hidden>, j: nat, h: Hidden, junk: Hidden)
    requires ValidConfig(c) && Represents(c, batch, width, g) && Padded(g, p) && j < |Rows(c, batch, |batch|)|
    ensures Rows(c, batch, |batch|)[j].owner < |batch|
    ensures var row := Rows(c, batch, |batch|)[j];
            AttendAt(c, p, layer, j, h, junk) == Attend(c, layer, batch[row.owner].blocks, row.pos, h)
  {
    hide Represents, Rows, Attend, TableRow, RequestOf, PositionIn;
    RealRowPlace(c, batch, width, g, p, j);
    var row := Rows(c, batch, |batch|)[j];
    PaddedTableAttends(c, layer, batch[row.owner].blocks, width, row.pos, h);
  }

  lemma {:induction false} QueryStartOf(batch: seq<Req>, i: nat, n: nat)
    requires i < n <= |batch|
    ensures QueryStart(batch, i + 1) == QueryStart(batch, i) + Max(0, batch[i].step)
  {
  }

  /** The padded forward pass of one rank: its cache and its real rows are those of the batch. */
  lemma {:induction false} PaddedLayers(c: Config, batch: seq<Req>, width: nat, g: Context, p: Context, l: nat,
                                        part: Store, hidden: seq<Hidden>, padded: seq<Hidden>,
                                        junk: (nat, nat) -> Hidden)
    requires ValidConfig(c) && Represents(c, batch, width, g) && Padded(g, p) && l <= |part|
    requires |padded| == |p.positions| && |hidden| == |g.positions| && padded[..|hidden|] == hidden
    requires forall j :: 0 <= j < |Rows(c, batch, |batch|)| ==> Rows(c, batch, |batch|)[j].owner < |batch|
    ensures var (after, out) := Layers(c, batch, Rows(c, batch, |batch|), l, part, hidden);
            var (after', out') := ArrayLayers(c, p, l, part, padded, junk);
            after' == after && out'[..|hidden|] == out
    decreases |part| - l
  {
    if l < |part| {
      var rows := Rows(c, batch, |batch|);
      var layer := StoreRows(part[l], rows, hidden);
      PaddedSlots(c, batch, width, g, p);
      PaddingWritesNothing(part[l], rows, hidden, p.slotMapping, padded);
      var next := AttendRows(c, batch, layer, rows, hidden);
      var next' := ArrayRows(c, p, l, layer, padded, junk);
      RealRowsAttend(c, batch, width, g, p, l, layer, hidden, padded, junk);
      PaddedLayers(c, batch, width, g, p, l + 1, part[l := layer], next, next', junk);
    }
  }

  lemma {:induction false} RealRowsAttend(c: Config, batch: seq<Req>, width: nat, g: Context, p: Context, l: nat,
                                          layer: seq<Hidden>, hidden: seq<Hidden>, padded: seq<Hidden>,
                                          junk: (nat, nat) -> Hidden)
    requires ValidConfig(c) && Represents(c, batch, width, g) && Padded(g, p)
    requires |padded| == |p.positions| && |hidden| == |g.positions| && padded[..|hidden|] == hidden
    requires forall j :: 0 <= j < |Rows(c, batch, |batch|)| ==> Rows(c, batch, |batch|)[j].owner < |batch|
    ensures ArrayRows(c, p, l, layer, padded, junk)[..|hidden|]
            == AttendRows(c, batch, layer, Rows(c, batch, |batch|), hidden)
  {
    hide Rows;
    var rows := Rows(c, batch, |batch|);
    var next, next' := AttendRows(c, batch, layer, rows, hidden), ArrayRows(c, p, l, layer, padded, junk);
    forall j | 0 <= j < |hidden| ensures next'[j] == next[j] {
      assert padded[j] == padded[..|hidden|][j];
      RealRowAttends(c, batch, width, g, p, layer, j, hidden[j], junk(l, j));
    }
    assert next'[..|hidden|] == next;
  }

  lemma {:induction false} PaddedSlots(c: Config, batch: seq<Req>, width: nat, g: Context, p: Context)
    requires ValidConfig(c) && Represents(c, batch, width, g) && Padded(g, p)
    ensures var rows := Rows(c, batch, |batch|);
            && |rows| == |g.positions| <= |p.slotMapping|
            && (forall j :: 0 <= j < |rows| ==> p.slotMapping[j] == rows[j].slot)
            && (forall j :: |rows| <= j < |p.slotMapping| ==> p.slotMapping[j] == -1)
  {
    hide Rows;
    forall j | 0 <= j < |g.slotMapping| ensures p.slotMapping[j] == g.slotMapping[j] {
      assert p.slotMapping[j] == p.slotMapping[..|g.slotMapping|][j];
    }
  }

  /** What the first layer of a rank reads from the buffers. */
  function EntryRows(e: Entry, positions: seq<int>): (h: seq<Hidden>)
    requires EntrySize(e) == |positions|
    ensures |h| == |positions|
  {
    match e
    case Ids(ids) => seq(|positions|, j requires 0 <= j < |positions| => Embed(ids[j], positions[j]))
    case Intermediate(hidden) => hidden
  }

  /** A replay over buffers that hold a batch is the batch's own stage run, whatever the padding computes. */
  lemma {:induction false} ReplayIsStageRun(c: Config, batch: seq<Req>, width: nat, g: Context, p: Context, part: Store,
                                            e: Entry, padded: seq<Hidden>, junk: (nat, nat) -> Hidden)
    requires ValidConfig(c) && Represents(c, batch, width, g) && Padded(g, p)
    requires EntrySize(e) == |g.positions| && |padded| == |p.positions|
    requires padded[..|g.positions|] == EntryRows(e, g.positions)
    ensures var out := ArrayLayers(c, p, 0, part, padded, junk);
            (out.0, out.1[..|g.positions|]) == StageRun(c, batch, part, EntryRows(e, g.positions))
  {
    hide Rows;
    OwnersInRange(c, batch);
    PaddedLayers(c, batch, width, g, p, 0, part, EntryRows(e, g.positions), padded, junk);
  }

  /** On the first rank the entry is the batch's own: ids and positions give its embeddings. */
  lemma {:induction false} IdsAreEntry(c: Config, batch: seq<Req>, width: nat, g: Context)
    requires ValidConfig(c) && Represents(c, batch, width, g)
    ensures EntryRows(Ids(g.inputIds), g.positions) == Stages.Entry(c, batch)
  {
    hide Rows;
  }

  /** The arrays that a graph of the given shape sees. */
  function Seen(b: InputBuffers, desc: Shape): (p: Context)
    requires b.Valid() && desc.numTokens <= b.maxTokens && desc.numSeqs <= b.maxSeqs
    requires forall i :: 0 <= i <= desc.numSeqs ==> b.queryStart[i] >= 0
    reads b, b.inputIds, b.positions, b.slotMapping, b.contextLens, b.queryStart, b.blockTables
  {
    var starts: seq<nat> := seq(desc.numSeqs + 1, i requires 0 <= i <= desc.numSeqs reads b.queryStart
      requires b.queryStart.Length == b.maxSeqs + 1 && desc.numSeqs <= b.maxSeqs && b.queryStart[i] >= 0 =>
        b.queryStart[i]);
    Context(b.inputIds[..desc.numTokens], b.positions[..desc.numTokens], b.slotMapping[..desc.numTokens],
            b.contextLens[..desc.numSeqs], TableRows(b, desc.numSeqs), starts, 0)
  }

  function TableRows(b: InputBuffers, n: nat): (tables: seq<seq<int>>)
    requires b.Valid() && n <= b.maxSeqs
    reads b, b.blockTables
    ensures |tables| == n
    ensures forall i :: 0 <= i < n ==> |tables[i]| == b.width
    ensures forall i, j :: 0 <= i < n && 0 <= j < b.width ==> tables[i][j] == b.blockTables[i, j]
  {
    if n == 0 then [] else TableRows(b, n - 1) + [seq(b.width, j requires 0 <= j < b.width reads b.blockTables
      requires b.blockTables.Length0 == b.maxSeqs && b.blockTables.Length1 == b.width && n <= b.maxSeqs =>
        b.blockTables[n - 1, j])]
  }

  /** Buffers that hold a batch are its arrays, padded, and what the first layer reads starts with its entry. */
  lemma {:induction false} BuffersArePadded(b: InputBuffers, g: Context, e: Entry, desc: Shape)
    requires b.Valid() && desc.numTokens <= b.maxTokens && desc.numSeqs <= b.maxSeqs && Sized(g)
    requires |g.positions| <= desc.numTokens && |g.contextLens| <= desc.numSeqs && EntrySize(e) == |g.positions|
    requires forall i :: 0 <= i < |g.blockTables| ==> |g.blockTables[i]| == b.width
    requires b.HoldsTokens(g, e, desc.numTokens) && b.HoldsRows(g, desc.numSeqs)
    ensures forall i :: 0 <= i <= desc.numSeqs ==> b.queryStart[i] >= 0
    ensures var p := Seen(b, desc);
            && Padded(g, p) && |p.positions| == desc.numTokens
            && var read := if e.Ids? then EntryRows(Ids(p.inputIds), p.positions) else b.intermediate[..desc.numTokens];
               read[..|g.positions|] == EntryRows(e, g.positions)
  {
    StartsHeld(b, g, desc.numSeqs);
    var p := Seen(b, desc);
    assert p.queryStart[..|g.queryStart|] == g.queryStart;
    forall i | 0 <= i < |g.blockTables| ensures p.blockTables[i] == g.blockTables[i] { }
    assert p.positions[..|g.positions|] == g.positions;
    if e.Ids? { assert p.inputIds[..|g.positions|] == e.ids; }
  }

  lemma {:induction false} StartsHeld(b: InputBuffers, g: Context, numSeqs: nat)
    requires b.Valid() && numSeqs <= b.maxSeqs && Sized(g) && |g.contextLens| <= numSeqs && b.HoldsRows(g, numSeqs)
    ensures forall i :: 0 <= i < |g.queryStart| ==> b.queryStart[i] == g.queryStart[i]
    ensures forall i :: 0 <= i <= numSeqs ==> b.queryStart[i] >= 0
  {
    forall i | 0 <= i < |g.queryStart| ensures b.queryStart[i] == g.queryStart[i] {
      assert b.queryStart[..][..|g.queryStart|][i] == g.queryStart[i];
    }
  }

  /** One forward pass through a captured graph: fill the buffers, replay over them, slice off the padding. It is the
      batch's own stage run on every rank, whatever the padding computes. */
  method Replay(c: Config, batch: seq<Req>, g: Context, e: Entry, desc: Shape, b: InputBuffers, part: Store,
                junk: (nat, nat) -> Hidden) returns (ok: bool, after: Store, out: seq<Hidden>)
    requires ValidConfig(c) && b.Valid() && desc.numTokens <= b.maxTokens && desc.numSeqs <= b.maxSeqs
    requires Represents(c, batch, b.width, g) && EntrySize(e) == |g.positions|
    modifies b.inputIds, b.intermediate, b.positions, b.slotMapping, b.contextLens, b.queryStart, b.lastTokenIdx,
      b.blockTables
    ensures ok <==> |g.positions| <= desc.numTokens && |batch| <= desc.numSeqs
    ensures ok ==> (after, out) == StageRun(c, batch, part, EntryRows(e, g.positions))
  {
    after, out := part, [];
    ok := b.PrepareFrom(g, e, desc);
    if ok {
      BuffersArePadded(b, g, e, desc);
      var p := Seen(b, desc);
      var read := if e.Ids? then EntryRows(Ids(p.inputIds), p.positions) else b.intermediate[..desc.numTokens];
      ReplayIsStageRun(c, batch, b.width, g, p, part, e, read, junk);
      var (part', hidden) := ArrayLayers(c, p, 0, part, read, junk);
      after, out := part', hidden[..|g.positions|];
    }
  }
}
