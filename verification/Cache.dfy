/** What it means for the paged store to hold what a contiguous cache would hold. */
module Cache {
  import opened Prelude
  import opened Transformer
  import opened Requests
  import opened Pages

  /** One store per layer, indexed by physical slot. */
  type Store = seq<seq<Hidden>>

  function Read(store: Store, l: int, slot: int): Option<Hidden>
  {
    if 0 <= l < |store| && 0 <= slot < |store[l]| then Some(store[l][slot]) else None
  }

  /** Reading through the table at every position below `n` gives exactly what was written for the
      prefix of the request's own text that ends there. */
  ghost predicate Cached(c: Config, m: Model, store: Store, r: Req, n: int)
    requires ValidConfig(c)
  {
    && r.WellFormed()
    && n <= |r.Text()|
    && PagesFor(c, n) <= |r.blocks|
    && forall l, p :: 0 <= l < m.layers && 0 <= p < n ==>
         Read(store, l, Slot(c, r.blocks, p)) == Some(Ideal(l, r.Text()[..p + 1]))
  }

  lemma {:induction false} CachedExtends(c: Config, m: Model, store: Store, r: Req, r': Req, n: int, more: seq<int>)
    requires ValidConfig(c) && Cached(c, m, store, r, n)
    requires r'.WellFormed() && r'.Text() == r.Text() && r'.blocks == r.blocks + more
    ensures Cached(c, m, store, r', n)
  {
    forall l, p | 0 <= l < m.layers && 0 <= p < n
      ensures Read(store, l, Slot(c, r'.blocks, p)) == Some(Ideal(l, r'.Text()[..p + 1]))
    {
      SlotOfExtended(c, r.blocks, more, n, p);
    }
  }

  /** A new token at the end of the text leaves the prefixes below it alone. */
  lemma {:induction false} CachedGrows(c: Config, m: Model, store: Store, r: Req, r': Req, n: int)
    requires ValidConfig(c) && Cached(c, m, store, r, n)
    requires r'.WellFormed() && r.Text() <= r'.Text() && r'.blocks == r.blocks
    ensures Cached(c, m, store, r', n)
  {
    forall l, p | 0 <= l < m.layers && 0 <= p < n
      ensures Read(store, l, Slot(c, r'.blocks, p)) == Some(Ideal(l, r'.Text()[..p + 1]))
    {
      assert r'.Text()[..p + 1] == r.Text()[..p + 1];
    }
  }
}
