/**
 `_moe_index_compute_kernel`: blocks reserve slots in the expert segments by atomic subtractions. The
 events are the (block, expert) subtractions, in any order the hardware may choose.
 */
module MoeSlots {
  import opened Prelude
  import opened MoeIndex

  datatype Reserve = Reserve(block: int, expert: int)

  /** The pairs of one block routed to one expert; `slots_to_reserve` is their number. */
  function Share(keys: seq<int>, size: nat, r: Reserve): set<int>
    requires size > 0
  {
    set f | 0 <= f < |keys| && BlockOf(f, size) == r.block && keys[f] == r.expert
  }

  /** `tl.cumsum(...) - 1` for pair `f`: its rank in its share. */
  function Rank(keys: seq<int>, size: nat, f: int): nat
    requires size > 0 && 0 <= f < |keys|
  {
    |set g | 0 <= g < f && BlockOf(g, size) == BlockOf(f, size) && keys[g] == keys[f]|
  }

  /** An expert's counter after some events: it starts at the end of the segment and goes down. */
  function Counter(keys: seq<int>, size: nat, events: seq<Reserve>, e: int): int
    requires size > 0
  {
    if events == [] then SegmentStart(keys, e + 1)
    else
      var last := events[|events| - 1];
      Counter(keys, size, events[..|events| - 1], e) - (if last.expert == e then |Share(keys, size, last)| else 0)
  }

  /** Every block subtracts once for every expert, in some order. */
  ghost predicate AllOnce(keys: seq<int>, size: nat, experts: nat, events: seq<Reserve>)
    requires size > 0
  {
    && (forall i, j :: 0 <= i < j < |events| ==> events[i] != events[j])
    && (forall r :: r in events <==> 0 <= r.block < CeilDiv(|keys|, size) && 0 <= r.expert < experts)
  }

  function EventOf(keys: seq<int>, size: nat, f: int): Reserve
    requires size > 0 && 0 <= f < |keys|
  {
    Reserve(BlockOf(f, size), keys[f])
  }

  /** The slot that pair `f` gets when its block's reservation is event number `k`. */
  function SlotAt(keys: seq<int>, size: nat, events: seq<Reserve>, f: int, k: nat): int
    requires size > 0 && 0 <= f < |keys| && k < |events|
  {
    Counter(keys, size, events[..k + 1], keys[f]) + Rank(keys, size, f)
  }

  lemma {:induction false} RankBelowShare(keys: seq<int>, size: nat, f: int)
    requires size > 0 && 0 <= f < |keys|
    ensures Rank(keys, size, f) < |Share(keys, size, EventOf(keys, size, f))|
  {
    hide BlockOf;
    var lower := set g | 0 <= g < f && BlockOf(g, size) == BlockOf(f, size) && keys[g] == keys[f];
    var share := Share(keys, size, EventOf(keys, size, f));
    assert lower <= share - {f} && f in share;
    SubsetCount(lower, share - {f});
  }

  lemma {:induction false} RanksDiffer(keys: seq<int>, size: nat, f: int, g: int)
    requires size > 0 && 0 <= f < g < |keys| && EventOf(keys, size, f) == EventOf(keys, size, g)
    ensures Rank(keys, size, f) < Rank(keys, size, g)
  {
    hide BlockOf;
    var a := set x | 0 <= x < f && BlockOf(x, size) == BlockOf(f, size) && keys[x] == keys[f];
    var b := set x | 0 <= x < g && BlockOf(x, size) == BlockOf(g, size) && keys[x] == keys[g];
    assert a <= b - {f} && f in b;
    SubsetCount(a, b - {f});
  }

  /** The pairs whose slots have been reserved for expert `e`. */
  ghost function Reserved(keys: seq<int>, size: nat, events: seq<Reserve>, e: int): set<int>
    requires size > 0
  {
    set f | 0 <= f < |keys| && keys[f] == e && EventOf(keys, size, f) in events
  }

  /** A counter is the end of the segment minus what has been reserved, so it never leaves the segment. */
  lemma {:induction false} CounterCounts(keys: seq<int>, size: nat, events: seq<Reserve>, e: int)
    requires size > 0 && forall i, j :: 0 <= i < j < |events| ==> events[i] != events[j]
    ensures Counter(keys, size, events, e) == SegmentStart(keys, e + 1) - |Reserved(keys, size, events, e)|
    ensures SegmentStart(keys, e) <= Counter(keys, size, events, e) <= SegmentStart(keys, e + 1)
  {
    hide BlockOf;
    SegmentsAbut(keys, e);
    SubsetCount(Reserved(keys, size, events, e), Members(keys, e));
    if events == [] {
      assert Reserved(keys, size, events, e) == {};
    } else {
      var n := |events| - 1;
      CounterCounts(keys, size, events[..n], e);
      assert events == events[..n] + [events[n]];
      var before, share := Reserved(keys, size, events[..n], e), Share(keys, size, events[n]);
      if events[n].expert == e {
        assert Reserved(keys, size, events, e) == before + share && before !! share;
      } else {
        assert Reserved(keys, size, events, e) == before;
      }
    }
  }

  lemma {:induction false} CounterFalls(keys: seq<int>, size: nat, events: seq<Reserve>, e: int, i: nat, j: nat)
    requires size > 0 && i <= j <= |events|
    ensures Counter(keys, size, events[..j], e) <= Counter(keys, size, events[..i], e)
    decreases j - i
  {
    if i < j {
      assert events[..j][..j - 1] == events[..j - 1];
      CounterFalls(keys, size, events, e, i, j - 1);
    }
  }

  lemma {:induction false} CounterStep(keys: seq<int>, size: nat, events: seq<Reserve>, f: int, k: nat)
    requires size > 0 && 0 <= f < |keys| && k < |events| && events[k] == EventOf(keys, size, f)
    ensures Counter(keys, size, events[..k + 1], keys[f])
            == Counter(keys, size, events[..k], keys[f]) - |Share(keys, size, EventOf(keys, size, f))|
  {
    assert events[..k + 1][..k] == events[..k];
  }

  /** For every interleaving: a pair's slot lies in its own expert's segment. */
  lemma {:induction false} SlotInSegment(keys: seq<int>, size: nat, experts: nat, events: seq<Reserve>, f: int, k: nat)
    requires size > 0 && AllOnce(keys, size, experts, events) && 0 <= f < |keys| && k < |events|
    requires events[k] == EventOf(keys, size, f)
    ensures SegmentStart(keys, keys[f]) <= SlotAt(keys, size, events, f, k) < SegmentStart(keys, keys[f] + 1)
  {
    hide BlockOf;
    CounterCounts(keys, size, events[..k + 1], keys[f]);
    CounterCounts(keys, size, events[..k], keys[f]);
    CounterStep(keys, size, events, f, k);
    RankBelowShare(keys, size, f);
  }

  /** For every interleaving: two pairs never get the same slot. */
  lemma {:induction false} SlotsDiffer(keys: seq<int>, size: nat, experts: nat, events: seq<Reserve>, f: int, g: int,
                                       k: nat, h: nat)
    requires size > 0 && AllOnce(keys, size, experts, events) && 0 <= f < g < |keys| && k < |events| && h < |events|
    requires events[k] == EventOf(keys, size, f) && events[h] == EventOf(keys, size, g)
    ensures SlotAt(keys, size, events, f, k) != SlotAt(keys, size, events, g, h)
  {
    hide BlockOf, Counter, Share, Rank;
    if keys[f] != keys[g] {
      SlotInSegment(keys, size, experts, events, f, k);
      SlotInSegment(keys, size, experts, events, g, h);
      SegmentsAreOrdered(keys, Min(keys[f], keys[g]) + 1, Max(keys[f], keys[g]));
    } else if k == h {
      RanksDiffer(keys, size, f, g);
    } else {
      RankBelowShare(keys, size, f);
      RankBelowShare(keys, size, g);
      CounterStep(keys, size, events, f, k);
      CounterStep(keys, size, events, g, h);
      CounterFalls(keys, size, events, keys[f], Min(k, h) + 1, Max(k, h));
    }
  }

  /** The kernel under a given interleaving: one atomic subtraction per event, whose old value gives the
      slots of the block's pairs of that expert. The result is a permutation of all rows. */
  method AssignSlots(keys: seq<int>, size: nat, experts: nat, cumsum: array<int>,
                     events: seq<Reserve>) returns (indices: array<int>)
    requires size > 0 && forall f :: 0 <= f < |keys| ==> 0 <= keys[f] < experts
    requires cumsum.Length == experts && forall e :: 0 <= e < experts ==> cumsum[e] == SegmentStart(keys, e + 1)
    requires AllOnce(keys, size, experts, events)
    modifies cumsum
    ensures fresh(indices) && IsPermutation(indices[..], |keys|)
    ensures forall f :: 0 <= f < |keys| ==> SegmentStart(keys, keys[f]) <= indices[f] < SegmentStart(keys, keys[f] + 1)
  {
    hide BlockOf, Rank, Share, AllOnce;
    indices := new int[|keys|](_ => 0);
    for k := 0 to |events|
      invariant fresh(indices)
      invariant forall e :: 0 <= e < experts ==> cumsum[e] == Counter(keys, size, events[..k], e)
      invariant forall f, j :: 0 <= f < |keys| && 0 <= j < k && events[j] == EventOf(keys, size, f) ==>
        indices[f] == SlotAt(keys, size, events, f, j)
      invariant forall f :: 0 <= f < |keys| && EventOf(keys, size, f) !in events[..k] ==> indices[f] == 0
    {
      var r := events[k];
      EventInRange(keys, size, experts, events, k);
      var slotsToReserve := |Share(keys, size, r)|;
      var previous := cumsum[r.expert];
      cumsum[r.expert] := previous - slotsToReserve;
      assert events[..k + 1][..k] == events[..k] && events[..k + 1] == events[..k] + [r];
      assert previous - slotsToReserve == Counter(keys, size, events[..k + 1], r.expert);
      FillShare(keys, size, indices, r, previous - slotsToReserve);
    }
    assert events[..|events|] == events;
    SlotsArePermutation(keys, size, experts, events, indices[..]);
  }

  /** Slots given under an interleaving that reserves everything are a permutation inside the segments. */
  lemma {:induction false} SlotsArePermutation(keys: seq<int>, size: nat, experts: nat, events: seq<Reserve>,
                                               indices: seq<int>)
    requires size > 0 && forall f :: 0 <= f < |keys| ==> 0 <= keys[f] < experts
    requires AllOnce(keys, size, experts, events) && |indices| == |keys|
    requires forall f, j :: 0 <= f < |keys| && 0 <= j < |events| && events[j] == EventOf(keys, size, f) ==>
      indices[f] == SlotAt(keys, size, events, f, j)
    ensures IsPermutation(indices, |keys|)
    ensures forall f :: 0 <= f < |keys| ==> SegmentStart(keys, keys[f]) <= indices[f] < SegmentStart(keys, keys[f] + 1)
  {
    hide BlockOf, Rank, Share, AllOnce, SlotAt, SegmentStart, EventOf;
    forall f | 0 <= f < |keys|
      ensures SegmentStart(keys, keys[f]) <= indices[f] < SegmentStart(keys, keys[f] + 1)
      ensures 0 <= indices[f] < |keys|
    {
      var k := PlaceOf(keys, size, experts, events, f);
      SlotInSegment(keys, size, experts, events, f, k);
      SegmentsAreOrdered(keys, keys[f] + 1, keys[f] + 1);
    }
    forall f, g | 0 <= f < g < |keys| ensures indices[f] != indices[g] {
      var k := PlaceOf(keys, size, experts, events, f);
      var h := PlaceOf(keys, size, experts, events, g);
      SlotsDiffer(keys, size, experts, events, f, g, k, h);
    }
  }

  lemma {:induction false} EventInRange(keys: seq<int>, size: nat, experts: nat, events: seq<Reserve>, k: nat)
    requires size > 0 && AllOnce(keys, size, experts, events) && k < |events|
    ensures 0 <= events[k].expert < experts && events[k] !in events[..k]
  {
    assert events[k] in events;
  }

  lemma {:induction false} PlaceOf(keys: seq<int>, size: nat, experts: nat, events: seq<Reserve>, f: int)
    returns (k: nat)
    requires size > 0 && AllOnce(keys, size, experts, events) && 0 <= f < |keys| && 0 <= keys[f] < experts
    ensures k < |events| && events[k] == EventOf(keys, size, f)
  {
    InSomeBlock(f, |keys|, size);
    assert EventOf(keys, size, f) in events;
    k :| 0 <= k < |events| && events[k] == EventOf(keys, size, f);
  }

  /** `indices += where(mask, slot, 0)` for the pairs of one reservation. */
  method FillShare(keys: seq<int>, size: nat, indices: array<int>, r: Reserve, base: int)
    requires size > 0 && indices.Length == |keys|
    requires forall f :: 0 <= f < |keys| && EventOf(keys, size, f) == r ==> indices[f] == 0
    modifies indices
    ensures forall f :: 0 <= f < |keys| ==>
      indices[f] == if EventOf(keys, size, f) == r then base + Rank(keys, size, f) else old(indices[f])
  {
    for f := 0 to |keys|
      invariant forall g :: 0 <= g < |keys| ==>
        indices[g] == if g < f && EventOf(keys, size, g) == r then base + Rank(keys, size, g) else old(indices[g])
    {
      var slotOrZero := if EventOf(keys, size, f) == r then base + Rank(keys, size, f) else 0;
      indices[f] := indices[f] + slotOrZero;
    }
  }
}
