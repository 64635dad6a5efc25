/** The flex backend's masks: the causal mask over logical positions and its paged form over the slots of
    the physical cache. */
module FlexMask {
  import opened Prelude
  import opened Requests
  import opened Pages

  /** One step's context: the flex batch size and query length, one block table row and one context
      length per sequence, and `query_start_loc`. */
  datatype Step = Step(bsz: nat, qLen: nat, tables: seq<seq<int>>, contextLens: seq<nat>, queryStart: seq<nat>)
  {
    predicate Packed() { bsz == 1 && |queryStart| > 2 }

    /** `query_start_loc` delimits the sequences' tokens, all of which are part of their contexts; without
        packing the flex batch dimension runs over sequences of `q_len` tokens each. */
    predicate Valid()
    {
      && |contextLens| == |tables| && |queryStart| == |tables| + 1 && queryStart[0] == 0
      && (forall i :: 0 <= i < |tables| ==> 0 <= Tokens(i) <= contextLens[i])
      && (!Packed() ==> bsz == |tables| && forall i :: 0 <= i < |tables| ==> Tokens(i) == qLen)
    }

    function Tokens(i: int): int
      requires 0 <= i < |queryStart| - 1
    {
      queryStart[i + 1] as int - queryStart[i] as int
    }
  }

  /** `repeat_interleave(arange(n), lengths)` for the first `n` lengths. */
  function ChunkMapping(s: Step, n: nat): (m: seq<nat>)
    requires s.Valid() && n <= |s.tables|
    ensures |m| == s.queryStart[n] && forall q :: 0 <= q < |m| ==> m[q] < n
  {
    if n == 0 then [] else ChunkMapping(s, n - 1) + seq(s.Tokens(n - 1), _ => n - 1)
  }

  lemma {:induction false} StartsAscend(s: Step, i: nat, j: nat)
    requires s.Valid() && i <= j <= |s.tables|
    ensures s.queryStart[i] <= s.queryStart[j]
  {
    if i < j {
      StartsAscend(s, i, j - 1);
      assert s.Tokens(j - 1) >= 0;
    }
  }

  /** The packed query `q` belongs to the sequence whose part of the packing contains it. */
  lemma {:induction false} ChunkMappingOwner(s: Step, n: nat, i: nat, q: nat)
    requires s.Valid() && i < n <= |s.tables| && s.queryStart[i] <= q < s.queryStart[i + 1]
    ensures s.queryStart[i + 1] <= s.queryStart[n] && ChunkMapping(s, n)[q] == i
  {
    StartsAscend(s, i + 1, n);
    if i + 1 < n {
      StartsAscend(s, i + 1, n - 1);
      ChunkMappingOwner(s, n - 1, i, q);
    }
  }

  /** Query `q` of batch entry `b` is token `t` of sequence `i`. */
  predicate IsQuery(s: Step, b: nat, q: nat, i: nat, t: nat)
    requires s.Valid()
  {
    && i < |s.tables| && t < s.Tokens(i)
    && if s.Packed() then b == 0 && q == s.queryStart[i] + t else b == i && q == t
  }

  /** The absolute position of that token: the step's tokens are the last of the context. */
  function Position(s: Step, i: nat, t: nat): int
    requires s.Valid() && i < |s.tables|
  {
    s.contextLens[i] - s.Tokens(i) + t
  }

  /** The last token of a step is the last of its context, and the others come right before it. */
  lemma {:induction false} PositionsEndTheContext(s: Step, i: nat, t: nat)
    requires s.Valid() && i < |s.tables| && t < s.Tokens(i)
    ensures 0 <= Position(s, i, t) < s.contextLens[i]
    ensures t + 1 < s.Tokens(i) ==> Position(s, i, t + 1) == Position(s, i, t) + 1
    ensures t + 1 == s.Tokens(i) ==> Position(s, i, t) == s.contextLens[i] - 1
  {
  }

  /** `physical_to_logical[i, page]`: later columns overwrite earlier ones; -1 if the page is not there. */
  function LogicalBlock(row: seq<int>, page: int): (l: int)
    ensures -1 <= l < |row| && (l >= 0 ==> row[l] == page)
  {
    if row == [] then -1
    else if row[|row| - 1] == page && page >= 0 then |row| - 1
    else LogicalBlock(row[..|row| - 1], page)
  }

  lemma {:induction false} LogicalBlockFinds(row: seq<int>, page: int)
    requires page >= 0 && page in row
    ensures LogicalBlock(row, page) >= 0
  {
    if row[|row| - 1] != page { LogicalBlockFinds(row[..|row| - 1], page); }
  }

  /** The table that `_prepare_paged_kv` fills. */
  method PhysicalToLogical(c: Config, s: Step) returns (table: array2<int>)
    requires s.Valid()
    requires forall i, j :: 0 <= i < |s.tables| && 0 <= j < |s.tables[i]| ==> s.tables[i][j] < c.maxBlocks
    ensures fresh(table) && table.Length0 == |s.tables| && table.Length1 == c.maxBlocks
    ensures forall i, page :: 0 <= i < |s.tables| && 0 <= page < c.maxBlocks ==>
              table[i, page] == LogicalBlock(s.tables[i], page)
  {
    table := new int[|s.tables|, c.maxBlocks]((i, page) => -1);
    for i := 0 to |s.tables|
      invariant forall i', page :: 0 <= i' < i && 0 <= page < c.maxBlocks ==>
        table[i', page] == LogicalBlock(s.tables[i'], page)
      invariant forall i', page :: i <= i' < |s.tables| && 0 <= page < c.maxBlocks ==> table[i', page] == -1
    {
      var row := s.tables[i];
      for j := 0 to |row|
        invariant forall i', page :: 0 <= i' < i && 0 <= page < c.maxBlocks ==>
          table[i', page] == LogicalBlock(s.tables[i'], page)
        invariant forall i', page :: i < i' < |s.tables| && 0 <= page < c.maxBlocks ==> table[i', page] == -1
        invariant forall page :: 0 <= page < c.maxBlocks ==> table[i, page] == LogicalBlock(row[..j], page)
      {
        if row[j] >= 0 {
          table[i, row[j]] := j;
        }
        assert row[..j + 1][..j] == row[..j] && row[..j + 1][j] == row[j];
      }
      assert row[..|row|] == row;
    }
  }

  /** `physical_mask_mod`. */
  function PhysicalMask(c: Config, s: Step, b: nat, q: nat, slot: nat): bool
    requires ValidConfig(c) && s.Valid()
    requires if s.Packed() then q < s.queryStart[|s.tables|] else b < |s.tables|
  {
    var chunks := ChunkMapping(s, |s.tables|);
    var i := if s.Packed() then chunks[q] else b;
    var absQ := if s.Packed() then s.contextLens[i] - s.Tokens(i) + (q - s.queryStart[i])
                else s.contextLens[i] - s.qLen + q;
    var block := LogicalBlock(s.tables[i], slot / c.pageSize);
    var position := block * c.pageSize + slot % c.pageSize;
    block >= 0 && position <= absQ && position < s.contextLens[i]
  }

  /** `mask_mod` of the path without pages, over indices into the keys handed to it. The chunk mapping is built
      for several sequences whatever the flex batch size is. */
  function LogicalMask(s: Step, b: nat, q: nat, kv: int): bool
    requires s.Valid()
    requires if |s.queryStart| > 2 then q < s.queryStart[|s.tables|] else b < |s.tables|
  {
    if |s.queryStart| > 2 then
      var i := ChunkMapping(s, |s.tables|)[q];
      kv <= s.contextLens[i] - s.Tokens(i) + (q - s.queryStart[i]) && kv < s.contextLens[i]
    else
      kv <= s.contextLens[b] - s.Tokens(b) + q && kv < s.contextLens[b]
  }

  /** The context lengths of the first `n` sequences. */
  function ContextSum(s: Step, n: nat): (sum: nat)
    requires s.Valid() && n <= |s.tables|
  {
    if n == 0 then 0 else ContextSum(s, n - 1) + s.contextLens[n - 1]
  }

  /** Where the keys of sequence `i` start: packing concatenates all keys, else each flex batch entry has its
      own and shorter ones are padded. */
  function KeyStart(s: Step, i: nat): nat
    requires s.Valid() && i < |s.tables|
  {
    if s.Packed() then ContextSum(s, i) else 0
  }

  ghost predicate HoldsKeys(s: Step, kvLen: nat)
    requires s.Valid()
  {
    if s.Packed() then kvLen == ContextSum(s, |s.tables|)
    else forall i :: 0 <= i < |s.tables| ==> s.contextLens[i] <= kvLen
  }

  /** Query `q` of batch entry `b`, which is token `t` of sequence `i`, attends to the keys 0..p of its own
      sequence and to no others, padding included. */
  ghost predicate AttendsCausally(s: Step, kvLen: nat, b: nat, q: nat, i: nat, t: nat)
    requires s.Valid() && IsQuery(s, b, q, i, t)
    requires if |s.queryStart| > 2 then q < s.queryStart[|s.tables|] else b < |s.tables|
  {
    forall kv :: 0 <= kv < kvLen ==>
      (LogicalMask(s, b, q, kv) <==> KeyStart(s, i) <= kv <= KeyStart(s, i) + Position(s, i, t))
  }

  /** What the path without pages needs: in a packed batch no keys before the sequence's own, in a batch of
      several entries a context as long as the first entry's. */
  predicate MaskFits(s: Step, i: nat)
    requires s.Valid() && i < |s.tables|
  {
    if s.Packed() then KeyStart(s, i) == 0 else s.contextLens[i] == s.contextLens[0]
  }

  /** Without packing every sequence has `q_len` tokens, so any query of a batch entry is found in the first chunk. */
  lemma {:induction false} UnpackedIsFirst(s: Step, q: nat)
    requires s.Valid() && !s.Packed() && |s.tables| > 0 && q < s.qLen
    ensures q < s.queryStart[|s.tables|] && ChunkMapping(s, |s.tables|)[q] == 0
    ensures s.queryStart[1] == s.qLen
  {
    assert s.Tokens(0) == s.qLen;
    ChunkMappingOwner(s, |s.tables|, 0, q);
  }

  lemma {:induction false} MaskIndices(s: Step, b: nat, q: nat, i: nat, t: nat)
    requires s.Valid() && IsQuery(s, b, q, i, t)
    ensures if s.Packed() then q < s.queryStart[|s.tables|] else b < |s.tables|
    ensures if |s.queryStart| > 2 then q < s.queryStart[|s.tables|] else b < |s.tables|
  {
    if s.Packed() { StartsAscend(s, i + 1, |s.tables|); } else { UnpackedIsFirst(s, q); }
  }

  /** The last key that the mask allows. */
  lemma {:induction false} MaskLimit(s: Step, b: nat, q: nat, i: nat, t: nat, kv: int)
    requires s.Valid() && IsQuery(s, b, q, i, t)
    requires if |s.queryStart| > 2 then q < s.queryStart[|s.tables|] else b < |s.tables|
    ensures LogicalMask(s, b, q, kv) <==> kv <= if s.Packed() then Position(s, i, t) else Position(s, 0, t)
  {
    if s.Packed() {
      ChunkMappingOwner(s, |s.tables|, i, q);
    } else {
      UnpackedIsFirst(s, q);
    }
  }

  lemma {:induction false} ContextSumGrows(s: Step, i: nat, j: nat)
    requires s.Valid() && i <= j <= |s.tables|
    ensures ContextSum(s, i) <= ContextSum(s, j)
  {
    if i < j { ContextSumGrows(s, i, j - 1); }
  }

  /** Without pages attention is causal within the own sequence if and only if the mask fits the sequence. */
  lemma {:induction false} LogicalMaskIsCausal(s: Step, kvLen: nat, b: nat, q: nat, i: nat, t: nat)
    requires s.Valid() && HoldsKeys(s, kvLen) && IsQuery(s, b, q, i, t)
    ensures if |s.queryStart| > 2 then q < s.queryStart[|s.tables|] else b < |s.tables|
    ensures AttendsCausally(s, kvLen, b, q, i, t) <==> MaskFits(s, i)
  {
    MaskIndices(s, b, q, i, t);
    forall kv
      ensures LogicalMask(s, b, q, kv) <==> kv <= if s.Packed() then Position(s, i, t) else Position(s, 0, t)
    {
      MaskLimit(s, b, q, i, t, kv);
    }
    if s.Packed() {
      ContextSumGrows(s, i + 1, |s.tables|);
      if KeyStart(s, i) > 0 { assert LogicalMask(s, b, q, 0); }
    } else if s.contextLens[i] != s.contextLens[0] {
      var kv := if s.contextLens[0] < s.contextLens[i] then Position(s, i, t) else Position(s, 0, t);
      assert !(LogicalMask(s, b, q, kv) <==> kv <= Position(s, i, t));
    }
  }

  /** A single sequence always fits. */
  lemma {:induction false} OneSequenceFits(s: Step, kvLen: nat, q: nat)
    requires s.Valid() && |s.tables| == 1 && HoldsKeys(s, kvLen) && q < s.Tokens(0)
    ensures AttendsCausally(s, kvLen, 0, q, 0, q)
  {
    LogicalMaskIsCausal(s, kvLen, 0, q, 0, q);
  }

  /** Two entries of one token each with contexts of 5 and 7 keys: the second does not see its own last key. */
  lemma {:induction false} LongerEntryLosesKeys(s: Step)
    requires s == Step(2, 1, [[], []], [5, 7], [0, 1, 2])
    ensures s.Valid() && !s.Packed() && IsQuery(s, 1, 0, 1, 0) && Position(s, 1, 0) == 6
    ensures s.queryStart[2] == 2 && !LogicalMask(s, 1, 0, 6) && HoldsKeys(s, 7)
    ensures !AttendsCausally(s, 7, 1, 0, 1, 0)
  {
    MaskLimit(s, 1, 0, 1, 0, 6);
    LogicalMaskIsCausal(s, 7, 1, 0, 1, 0);
  }

  /** Two sequences of 3 and 4 tokens packed together: the first token of the second sees the first key of the
      other sequence and not its own. */
  lemma {:induction false} PackedSeesForeignKeys(s: Step)
    requires s == Step(1, 7, [[], []], [3, 4], [0, 3, 7])
    ensures s.Valid() && s.Packed() && IsQuery(s, 0, 3, 1, 0) && KeyStart(s, 1) == 3
    ensures s.queryStart[2] == 7 && LogicalMask(s, 0, 3, 0) && !LogicalMask(s, 0, 3, 3)
  {
    MaskLimit(s, 0, 3, 1, 0, 0);
    MaskLimit(s, 0, 3, 1, 0, 3);
    assert ContextSum(s, 1) == ContextSum(s, 0) + 3;
  }

  lemma {:induction false} QueryOwner(s: Step, b: nat, q: nat, i: nat, t: nat)
    requires s.Valid() && IsQuery(s, b, q, i, t)
    ensures if s.Packed() then q < s.queryStart[|s.tables|] && ChunkMapping(s, |s.tables|)[q] == i
            else b == i && s.qLen == s.Tokens(i)
    ensures Position(s, i, t) < s.contextLens[i]
  {
    StartsAscend(s, i + 1, |s.tables|);
    if s.Packed() { ChunkMappingOwner(s, |s.tables|, i, q); }
  }

  /** A row of the block table that covers the context without naming a page twice. */
  predicate Covers(c: Config, row: seq<int>, contextLen: nat)
    requires ValidConfig(c)
  {
    && (forall l :: 0 <= l < contextLen ==> PageAt(c, row, l) >= 0)
    && NoRepeats(row)
  }

  predicate NoRepeats(row: seq<int>) { forall j, k :: 0 <= j < k < |row| && row[j] == row[k] ==> row[j] < 0 }

  /** A position and the slot it is stored in determine each other. */
  lemma {:induction false} SlotRoundTrip(c: Config, row: seq<int>, contextLen: nat, slot: nat, l: nat)
    requires ValidConfig(c) && Covers(c, row, contextLen) && l < contextLen
    ensures var block := LogicalBlock(row, slot / c.pageSize);
            slot == Slot(c, row, l) <==> block >= 0 && l == block * c.pageSize + slot % c.pageSize
  {
    var block := LogicalBlock(row, slot / c.pageSize);
    assert PageAt(c, row, l) >= 0;
    if slot == Slot(c, row, l) { SlotToPosition(c, row, slot, l); }
    if block >= 0 && l == block * c.pageSize + slot % c.pageSize {
      DivModUnique(l / c.pageSize, l % c.pageSize, block, slot % c.pageSize, c.pageSize);
    }
  }

  lemma {:induction false} SlotToPosition(c: Config, row: seq<int>, slot: nat, l: nat)
    requires ValidConfig(c) && PageAt(c, row, l) >= 0 && slot == Slot(c, row, l)
    requires NoRepeats(row)
    ensures var block := LogicalBlock(row, slot / c.pageSize);
            block >= 0 && l == block * c.pageSize + slot % c.pageSize
  {
    var page, offset := slot / c.pageSize, slot % c.pageSize;
    DivModUnique(page, offset, PageAt(c, row, l), l % c.pageSize, c.pageSize);
    LogicalBlockFinds(row, page);
    SamePlace(row, LogicalBlock(row, page), l / c.pageSize);
  }

  lemma {:induction false} SamePlace(row: seq<int>, j: nat, k: nat)
    requires j < |row| && k < |row| && row[j] == row[k] >= 0
    requires NoRepeats(row)
    ensures j == k
  {
  }

  /** The paged mask refines the causal one: the slots a token may attend to are exactly those of the
      positions 0..p of its own sequence, each position by its own slot. */
  lemma {:induction false} PhysicalMaskIsCausal(c: Config, s: Step, b: nat, q: nat, i: nat, t: nat, slot: nat)
    requires ValidConfig(c) && s.Valid() && IsQuery(s, b, q, i, t) && Covers(c, s.tables[i], s.contextLens[i])
    ensures if s.Packed() then q < s.queryStart[|s.tables|] else b < |s.tables|
    ensures PhysicalMask(c, s, b, q, slot) <==>
            exists l: nat :: l <= Position(s, i, t) && slot == Slot(c, s.tables[i], l)
    ensures forall l: nat, l': nat ::
              l <= Position(s, i, t) && l' <= Position(s, i, t) ==>
                Slot(c, s.tables[i], l) == Slot(c, s.tables[i], l') ==> l == l'
  {
    QueryOwner(s, b, q, i, t);
    var row, len := s.tables[i], s.contextLens[i];
    var l0 := LogicalBlock(row, slot / c.pageSize) * c.pageSize + slot % c.pageSize;
    if PhysicalMask(c, s, b, q, slot) {
      MulLe(0, LogicalBlock(row, slot / c.pageSize), c.pageSize);
      SlotRoundTrip(c, row, len, slot, l0);
    }
    forall l: nat | l <= Position(s, i, t) && slot == Slot(c, row, l) ensures PhysicalMask(c, s, b, q, slot) {
      SlotRoundTrip(c, row, len, slot, l);
    }
    forall l: nat, l': nat | l <= Position(s, i, t) && l' <= Position(s, i, t) && Slot(c, row, l) == Slot(c, row, l')
      ensures l == l'
    {
      SlotNotNegative(c, row, len, l);
      SlotRoundTrip(c, row, len, Slot(c, row, l), l);
      SlotRoundTrip(c, row, len, Slot(c, row, l), l');
    }
  }

  lemma {:induction false} SlotNotNegative(c: Config, row: seq<int>, contextLen: nat, l: nat)
    requires ValidConfig(c) && Covers(c, row, contextLen) && l < contextLen
    ensures Slot(c, row, l) >= 0
  {
    assert PageAt(c, row, l) >= 0;
    MulLe(0, PageAt(c, row, l), c.pageSize);
  }

  /** A slot on a page the sequence does not own, free or another sequence's, is never attended to. */
  lemma {:induction false} ForeignPagesAreMasked(c: Config, s: Step, b: nat, q: nat, i: nat, t: nat, slot: nat)
    requires ValidConfig(c) && s.Valid() && IsQuery(s, b, q, i, t)
    requires slot / c.pageSize !in s.tables[i]
    ensures if s.Packed() then q < s.queryStart[|s.tables|] else b < |s.tables|
    ensures !PhysicalMask(c, s, b, q, slot)
  {
    QueryOwner(s, b, q, i, t);
  }

  /** The tokens attended to without pages are those attended to with pages. */
  ghost predicate SameTokens(c: Config, s: Step, kvLen: nat, b: nat, q: nat, i: nat)
    requires ValidConfig(c) && s.Valid() && i < |s.tables| && Covers(c, s.tables[i], s.contextLens[i])
    requires if |s.queryStart| > 2 then q < s.queryStart[|s.tables|] else b < |s.tables|
    requires if s.Packed() then q < s.queryStart[|s.tables|] else b < |s.tables|
  {
    forall kv :: 0 <= kv < kvLen ==>
      (LogicalMask(s, b, q, kv) <==> PagedAllows(c, s, b, q, i, kv - KeyStart(s, i)))
  }

  predicate PagedAllows(c: Config, s: Step, b: nat, q: nat, i: nat, l: int)
    requires ValidConfig(c) && s.Valid() && i < |s.tables| && Covers(c, s.tables[i], s.contextLens[i])
    requires if s.Packed() then q < s.queryStart[|s.tables|] else b < |s.tables|
  {
    && 0 <= l < s.contextLens[i]
    && Slot(c, s.tables[i], l) >= 0
    && PhysicalMask(c, s, b, q, Slot(c, s.tables[i], l))
  }

  lemma {:induction false} PagedAllowsPrefix(c: Config, s: Step, b: nat, q: nat, i: nat, t: nat, l: int)
    requires ValidConfig(c) && s.Valid() && IsQuery(s, b, q, i, t) && Covers(c, s.tables[i], s.contextLens[i])
    requires if s.Packed() then q < s.queryStart[|s.tables|] else b < |s.tables|
    ensures PagedAllows(c, s, b, q, i, l) <==> 0 <= l <= Position(s, i, t)
  {
    QueryOwner(s, b, q, i, t);
    if 0 <= l < s.contextLens[i] {
      SlotNotNegative(c, s.tables[i], s.contextLens[i], l);
      SlotRoundTrip(c, s.tables[i], s.contextLens[i], Slot(c, s.tables[i], l), l);
    }
  }

  /** Both flex paths attend to the same tokens if and only if the mask without pages fits the sequence. */
  lemma {:induction false} MasksAgree(c: Config, s: Step, kvLen: nat, b: nat, q: nat, i: nat, t: nat)
    requires ValidConfig(c) && s.Valid() && IsQuery(s, b, q, i, t) && Covers(c, s.tables[i], s.contextLens[i])
    requires HoldsKeys(s, kvLen)
    ensures if s.Packed() then q < s.queryStart[|s.tables|] else b < |s.tables|
    ensures if |s.queryStart| > 2 then q < s.queryStart[|s.tables|] else b < |s.tables|
    ensures SameTokens(c, s, kvLen, b, q, i) <==> MaskFits(s, i)
  {
    MaskIndices(s, b, q, i, t);
    LogicalMaskIsCausal(s, kvLen, b, q, i, t);
    forall l ensures PagedAllows(c, s, b, q, i, l) <==> 0 <= l <= Position(s, i, t) {
      PagedAllowsPrefix(c, s, b, q, i, t, l);
    }
  }
}
