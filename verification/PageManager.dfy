/** `KVCacheManager`: the sets of free and allocated pages, updated page by page. */
module PageManager {
  import opened Prelude
  import opened Requests
  import opened Pages

  class KVCacheManager {
    const c: Config
    var free: set<int>
    var used: set<int>

    function View(): Pool
      reads this
    {
      Pool(free, used)
    }

    constructor (c: Config)
      ensures this.c == c && View() == Pool(Universe(c.maxBlocks), {}) && Partition(c, View())
    {
      this.c := c;
      free, used := Universe(c.maxBlocks), {};
    }

    /** Removing the lowest free page `delta` times takes the `delta` lowest pages. */
    method AllocateBlocks(total: int, have: nat) returns (pages: Option<seq<int>>)
      requires ValidConfig(c)
      modifies this
      ensures pages == Allocate(c, old(View()), total, have)
      ensures View() == if pages.Some? then Taken(old(View()), pages.value) else old(View())
    {
      var delta := (total + c.pageSize - 1) / c.pageSize - have;
      if delta <= 0 {
        TakenStart(View());
        return Some([]);
      }
      if |free| < delta {
        return None;
      }
      var taken := TakeLowest(delta);
      pages := Some(taken);
    }

    method TakeLowest(n: nat) returns (taken: seq<int>)
      requires n <= |free|
      modifies this
      ensures taken == Lowest(old(free), n) && View() == Taken(old(View()), taken)
    {
      hide Lowest, Taken;
      ghost var was := View();
      ghost var all := Lowest(free, n);
      TakenStart(was);
      assert all == [] + Lowest(free, n);
      taken := [];
      for k := 0 to n
        invariant |free| >= n - k
        invariant all == taken + Lowest(free, n - k)
        invariant View() == Taken(was, taken)
      {
        var page := Least(free);
        LowestStep(free, n - k);
        TakenStep(was, taken, page);
        free := free - {page};
        used := used + {page};
        taken := taken + [page];
      }
      assert Lowest(free, 0) == [];
    }

    method FreeBlocks(pages: seq<int>)
      modifies this
      ensures View() == Released(old(View()), pages)
    {
      ghost var was := View();
      for i := 0 to |pages|
        invariant View() == Released(was, pages[..i])
      {
        if pages[i] in used {
          used := used - {pages[i]};
          free := free + {pages[i]};
        }
      }
      assert pages[..|pages|] == pages;
    }
  }

  lemma {:induction false} TakenStart(pool: Pool)
    ensures Taken(pool, []) == pool
  {
  }

  lemma {:induction false} TakenStep(pool: Pool, pages: seq<int>, page: int)
    ensures var p := Taken(pool, pages);
            Taken(pool, pages + [page]) == Pool(p.free - {page}, p.used + {page})
  {
    assert ToSet(pages + [page]) == ToSet(pages) + {page};
  }

  lemma {:induction false} LowestStep(free: set<int>, n: nat)
    requires 0 < n <= |free|
    ensures Lowest(free, n) == [Least(free)] + Lowest(free - {Least(free)}, n - 1)
  {
  }
}
