/** The page pool: which pages are free, which are allocated, and how a request's positions lie in its pages. */
module Pages {
  import opened Prelude
  import opened Requests

  datatype Pool = Pool(free: set<int>, used: set<int>)

  /** Free and allocated pages split the cache. */
  ghost predicate Partition(c: Config, p: Pool)
  {
    p.free !! p.used && p.free + p.used == Universe(c.maxBlocks)
  }

  /** The `n` lowest pages of a set, in increasing order. */
  function Lowest(free: set<int>, n: nat): (pages: seq<int>)
    requires n <= |free|
    ensures |pages| == n
    ensures forall i :: 0 <= i < n ==> pages[i] in free
    ensures multiset(free) == multiset(pages) + multiset(free - ToSet(pages))
    decreases n
  {
    if n == 0 then
      assert free - ToSet([]) == free;
      []
    else
      var b := Least(free);
      var rest := Lowest(free - {b}, n - 1);
      assert multiset(free) == multiset{b} + multiset(free - {b});
      assert free - ToSet([b] + rest) == (free - {b}) - ToSet(rest);
      [b] + rest
  }

  function ToSet(s: seq<int>): set<int>
  {
    set x | x in s
  }

  /** Increasing order: each page returned is below the later ones and below every page left. */
  lemma {:induction false} LowestIsIncreasing(free: set<int>, n: nat)
    requires n <= |free|
    ensures forall i, j :: 0 <= i < j < n ==> Lowest(free, n)[i] < Lowest(free, n)[j]
    ensures forall i, y :: 0 <= i < n && y in free - ToSet(Lowest(free, n)) ==> Lowest(free, n)[i] < y
    decreases n
  {
    if n > 0 {
      var b := Least(free);
      var rest := Lowest(free - {b}, n - 1);
      LowestIsIncreasing(free - {b}, n - 1);
      assert Lowest(free, n) == [b] + rest;
      assert free - ToSet(Lowest(free, n)) == (free - {b}) - ToSet(rest);
    }
  }

  /** `allocate_blocks`: the pages to add so that `total` tokens are covered, or None when short. */
  function Allocate(c: Config, pool: Pool, total: int, have: nat): Option<seq<int>>
    requires ValidConfig(c)
  {
    Obtain(pool, PagesFor(c, total) - have)
  }

  function Obtain(pool: Pool, delta: int): Option<seq<int>>
  {
    if delta <= 0 then Some([])
    else if |pool.free| < delta then None
    else Some(Lowest(pool.free, delta))
  }

  function Taken(pool: Pool, pages: seq<int>): Pool
  {
    Pool(pool.free - ToSet(pages), pool.used + ToSet(pages))
  }

  /** `free_blocks`: only pages that are allocated move. */
  function Released(pool: Pool, pages: seq<int>): Pool
  {
    var moved := set x | x in pages && x in pool.used;
    Pool(pool.free + moved, pool.used - moved)
  }

  ghost function BlocksOf(r: Req): multiset<int> { multiset(r.blocks) }

  /** Conservation: every page of the cache is either free or in exactly one table, exactly once. */
  ghost predicate Conserved(c: Config, pool: Pool, owned: multiset<int>)
  {
    && multiset(pool.free) + owned == multiset(Universe(c.maxBlocks))
    && pool.used == Universe(c.maxBlocks) - pool.free
  }

  lemma {:induction false} ConservedPartition(c: Config, pool: Pool, owned: multiset<int>)
    requires Conserved(c, pool, owned)
    ensures Partition(c, pool)
    ensures forall b :: (b in pool.used <==> b in owned) && owned[b] <= 1
  {
    forall b ensures (b in pool.used <==> b in owned) && owned[b] <= 1
                  && (b in pool.free ==> b in Universe(c.maxBlocks))
    {
      assert multiset(Universe(c.maxBlocks))[b] == multiset(pool.free)[b] + owned[b];
    }
  }

  lemma {:induction false} TakingConserves(c: Config, pool: Pool, owned: multiset<int>, n: nat)
    requires Conserved(c, pool, owned) && n <= |pool.free|
    ensures var pages := Lowest(pool.free, n);
            && Conserved(c, Taken(pool, pages), owned + multiset(pages))
            && |Taken(pool, pages).free| == |pool.free| - n
  {
    ConservedPartition(c, pool, owned);
    var pages := Lowest(pool.free, n);
    var p := Taken(pool, pages);
    assert |multiset(pool.free)| == |pool.free| && |multiset(p.free)| == |p.free|;
    assert |multiset(pages)| == n;
    assert p.used == Universe(c.maxBlocks) - p.free;
  }

  lemma {:induction false} AllocateConserves(c: Config, pool: Pool, owned: multiset<int>, delta: int)
    requires Conserved(c, pool, owned)
    ensures var a := Obtain(pool, delta);
            a.Some? ==> Conserved(c, Taken(pool, a.value), owned + multiset(a.value))
                        && |a.value| == Max(0, delta)
                        && |Taken(pool, a.value).free| == |pool.free| - |a.value|
  {
    if delta <= 0 {
      assert Taken(pool, []) == pool;
      assert owned + multiset([]) == owned;
    } else if delta <= |pool.free| {
      TakingConserves(c, pool, owned, delta);
    }
  }

  lemma {:induction false} ReleaseConserves(c: Config, pool: Pool, owned: multiset<int>, pages: seq<int>)
    requires Conserved(c, pool, owned + multiset(pages))
    ensures Conserved(c, Released(pool, pages), owned)
    ensures |Released(pool, pages).free| == |pool.free| + |pages|
  {
    ConservedPartition(c, pool, owned + multiset(pages));
    var p := Released(pool, pages);
    forall b
      ensures multiset(p.free)[b] == multiset(pool.free)[b] + multiset(pages)[b]
    {
      assert (owned + multiset(pages))[b] <= 1;
    }
    assert multiset(p.free) == multiset(pool.free) + multiset(pages);
    assert |multiset(p.free)| == |p.free| && |multiset(pool.free)| == |pool.free|;
  }

  /** The page a table gives for a position; -1 beyond its end, as in the padded `block_tables`. */
  function PageAt(c: Config, blocks: seq<int>, pos: int): int
    requires ValidConfig(c)
  {
    if 0 <= pos / c.pageSize < |blocks| then blocks[pos / c.pageSize] else -1
  }

  /** The physical slot of a position, as `_prepare_gen_ctx` and the paged kernels compute it. */
  function Slot(c: Config, blocks: seq<int>, pos: int): int
    requires ValidConfig(c)
  {
    if PageAt(c, blocks, pos) < 0 then -1
    else PageAt(c, blocks, pos) * c.pageSize + pos % c.pageSize
  }

  lemma {:induction false} PositionHasPage(c: Config, total: int, pos: int)
    requires ValidConfig(c) && 0 <= pos < total
    ensures 0 <= pos / c.pageSize < PagesFor(c, total)
  {
    var n := CeilDiv(total, c.pageSize);
    if pos / c.pageSize >= n {
      MulLe(n, pos / c.pageSize, c.pageSize);
    }
  }

  /** Pages appended at the end leave the slots of covered positions where they were. */
  lemma {:induction false} SlotOfExtended(c: Config, blocks: seq<int>, more: seq<int>, total: int, pos: int)
    requires ValidConfig(c) && 0 <= pos < total && PagesFor(c, total) <= |blocks|
    ensures Slot(c, blocks + more, pos) == Slot(c, blocks, pos)
  {
    PositionHasPage(c, total, pos);
  }

  /** Two positions meet in one slot only if they meet in one page at one offset. */
  lemma {:induction false} SlotsMeet(c: Config, a: seq<int>, pos: int, a': seq<int>, pos': int)
    requires ValidConfig(c)
    requires Slot(c, a, pos) == Slot(c, a', pos') != -1
    requires PageAt(c, a, pos) >= 0 && PageAt(c, a', pos') >= 0
    ensures PageAt(c, a, pos) == PageAt(c, a', pos') && pos % c.pageSize == pos' % c.pageSize
  {
    DivModUnique(PageAt(c, a, pos), pos % c.pageSize, PageAt(c, a', pos'), pos' % c.pageSize, c.pageSize);
  }

  lemma {:induction false} SlotInRange(c: Config, blocks: seq<int>, pos: int)
    requires ValidConfig(c) && 0 <= PageAt(c, blocks, pos) < c.maxBlocks
    ensures 0 <= Slot(c, blocks, pos) < c.maxBlocks * c.pageSize
  {
    var b := PageAt(c, blocks, pos);
    MulLe(b + 1, c.maxBlocks, c.pageSize);
    MulLe(0, b, c.pageSize);
    assert (b + 1) * c.pageSize == b * c.pageSize + c.pageSize;
  }
}
