/** Bucketed weight transfer: a sender packs tensors into one shared buffer, a receiver copies them out. */
module WeightTransfer {
  import opened Prelude

  type Byte = b: int | 0 <= b < 256

  /** An element type: its identity and the bytes one element takes. */
  datatype Dtype = Dtype(code: int, width: nat)

  datatype Tensor = Tensor(name: string, shape: seq<nat>, dtype: Dtype, data: seq<Byte>)

  function Numel(shape: seq<nat>): nat { if shape == [] then 1 else shape[0] * Numel(shape[1..]) }

  function Bytes(shape: seq<nat>, dtype: Dtype): nat { dtype.width * Numel(shape) }

  predicate WellFormed(t: Tensor) { t.dtype.width > 0 && |t.data| == Bytes(t.shape, t.dtype) }

  datatype Chunk = Chunk(idx: nat, count: nat, start: nat, size: nat)

  datatype Meta = Meta(name: string, shape: seq<nat>, dtype: Dtype, offset: nat, chunk: Option<Chunk>)

  /** A tensor that is still arriving. */
  datatype Partial = Partial(shape: seq<nat>, dtype: Dtype, data: seq<Byte>, received: set<int>)

  function MetaOf(t: Tensor, offset: nat): Meta { Meta(t.name, t.shape, t.dtype, offset, None) }

  /** Assignment to a dictionary: a key that is there keeps its place. */
  function Put(metas: seq<Meta>, m: Meta): seq<Meta>
  {
    if metas == [] then [m]
    else if metas[0].name == m.name then [m] + metas[1..]
    else [metas[0]] + Put(metas[1..], m)
  }

  lemma {:induction false} PutNew(metas: seq<Meta>, m: Meta)
    requires NewName(m.name, metas)
    ensures Put(metas, m) == metas + [m]
  {
    if metas == [] {
    } else {
      assert metas[0].name != m.name;
      PutNew(metas[1..], m);
      assert metas == [metas[0]] + metas[1..];
    }
  }

  /** Reinterpreting bytes from `offset` on as elements of `width` bytes raises unless this holds. */
  predicate Viewable(offset: nat, width: nat) { width > 0 && offset % width == 0 }

  /** Where the sender puts its next tensor when `offset` bytes of the bucket are in use; a tensor larger
      than the bucket is sent alone, in chunks. */
  datatype Layout = Packed(at: nat) | Chunked

  function Place(offset: nat, size: nat, cap: nat): Layout
  {
    if size <= cap && offset + size <= cap then Packed(offset)
    else if size <= cap then Packed(0)
    else Chunked
  }

  function Used(offset: nat, size: nat, cap: nat): nat
  {
    match Place(offset, size, cap)
    case Packed(at) => at + size
    case Chunked => 0
  }

  predicate UniqueNames(ts: seq<Tensor>) { forall i, j :: 0 <= i < j < |ts| ==> ts[i].name != ts[j].name }

  predicate NewName(name: string, metas: seq<Meta>) { forall i :: 0 <= i < |metas| ==> metas[i].name != name }

  /** What a caller can check beforehand: with this bucket size every packed tensor starts at a multiple
      of its element size. */
  predicate AllAligned(ts: seq<Tensor>, cap: nat, offset: nat)
  {
    ts == [] ||
    (var size := |ts[0].data|;
     (Place(offset, size, cap).Packed? ==> Viewable(Place(offset, size, cap).at, ts[0].dtype.width))
     && AllAligned(ts[1..], cap, Used(offset, size, cap)))
  }

  /** The bytes in use in the bucket when tensor `i` comes; behind a chunked tensor the bucket is empty. */
  function InUse(ts: seq<Tensor>, cap: nat, offset: nat, at: seq<nat>, i: nat): nat
    requires i < |ts| == |at|
  {
    if i == 0 then offset else if |ts[i - 1].data| > cap then 0 else at[i - 1] + |ts[i - 1].data|
  }

  /** Where tensors lie: each right behind the one before it while it still fits, else at the start of a bucket. */
  predicate IsPacking(ts: seq<Tensor>, cap: nat, offset: nat, at: seq<nat>)
  {
    && |at| == |ts|
    && forall i :: 0 <= i < |ts| ==>
         at[i] == if InUse(ts, cap, offset, at, i) + |ts[i].data| <= cap then InUse(ts, cap, offset, at, i) else 0
  }

  lemma {:induction false} RestIsPacking(ts: seq<Tensor>, cap: nat, offset: nat, at: seq<nat>)
    requires ts != [] && IsPacking(ts, cap, offset, at)
    ensures IsPacking(ts[1..], cap, Used(offset, |ts[0].data|, cap), at[1..])
  {
    var rest, used := ts[1..], Used(offset, |ts[0].data|, cap);
    forall i | 0 <= i < |rest|
      ensures InUse(rest, cap, used, at[1..], i) == InUse(ts, cap, offset, at, i + 1)
      ensures at[1..][i] == if InUse(rest, cap, used, at[1..], i) + |rest[i].data| <= cap
                            then InUse(rest, cap, used, at[1..], i) else 0
    {
      assert at[i + 1] == at[1..][i] && rest[i] == ts[i + 1];
    }
  }

  /** The condition, said of those places. */
  lemma {:induction false} AlignedPlaces(ts: seq<Tensor>, cap: nat, offset: nat, at: seq<nat>)
    requires IsPacking(ts, cap, offset, at)
    ensures AllAligned(ts, cap, offset) <==>
              forall i :: 0 <= i < |ts| && |ts[i].data| <= cap ==> Viewable(at[i], ts[i].dtype.width)
  {
    hide IsPacking, Viewable;
    assert |at| == |ts| by { PackingLength(ts, cap, offset, at); }
    if ts != [] {
      var used := Used(offset, |ts[0].data|, cap);
      RestIsPacking(ts, cap, offset, at);
      var rest, places := ts[1..], at[1..];
      AlignedPlaces(rest, cap, used, places);
      FirstPlace(ts, cap, offset, at);
      assert forall i :: 1 <= i < |ts| ==> rest[i - 1] == ts[i] && places[i - 1] == at[i];
      assert (forall i :: 0 <= i < |rest| && |rest[i].data| <= cap ==> Viewable(places[i], rest[i].dtype.width)) <==>
        forall i :: 1 <= i < |ts| && |ts[i].data| <= cap ==> Viewable(at[i], ts[i].dtype.width);
    }
  }

  lemma {:induction false} PackingLength(ts: seq<Tensor>, cap: nat, offset: nat, at: seq<nat>)
    requires IsPacking(ts, cap, offset, at)
    ensures |at| == |ts|
  {
  }

  lemma {:induction false} FirstPlace(ts: seq<Tensor>, cap: nat, offset: nat, at: seq<nat>)
    requires ts != [] && |at| == |ts| && IsPacking(ts, cap, offset, at)
    ensures |ts[0].data| <= cap ==> Place(offset, |ts[0].data|, cap) == Packed(at[0])
    ensures |ts[0].data| > cap ==> Place(offset, |ts[0].data|, cap).Chunked?
  {
    assert InUse(ts, cap, offset, at, 0) == offset;
  }

  /** Tensors whose sizes are multiples of a common unit that every element size divides, for instance
      tensors of one element type, always meet it. */
  lemma {:induction false} CommonUnitAligns(ts: seq<Tensor>, cap: nat, offset: nat, unit: nat)
    requires unit > 0 && offset % unit == 0
    requires forall i :: 0 <= i < |ts| ==>
      ts[i].dtype.width > 0 && unit % ts[i].dtype.width == 0 && |ts[i].data| % unit == 0
    ensures AllAligned(ts, cap, offset)
  {
    if ts == [] {
    } else {
      var size, width := |ts[0].data|, ts[0].dtype.width;
      MultipleOfMultiple(offset, unit, width);
      MultipleOfMultiple(0, unit, width);
      SumOfMultiples(offset, size, unit);
      SumOfMultiples(0, size, unit);
      CommonUnitAligns(ts[1..], cap, Used(offset, size, cap), unit);
    }
  }

  lemma {:induction false} MultipleOfMultiple(x: nat, unit: nat, width: nat)
    requires unit > 0 && width > 0 && x % unit == 0 && unit % width == 0
    ensures x % width == 0
  {
    var q, k := x / unit, unit / width;
    assert x == (q * k) * width;
    DivModUnique(x / width, x % width, q * k, 0, width);
  }

  lemma {:induction false} SumOfMultiples(x: nat, y: nat, unit: nat)
    requires unit > 0 && x % unit == 0 && y % unit == 0
    ensures (x + y) % unit == 0
  {
    assert x + y == (x / unit + y / unit) * unit;
    DivModUnique((x + y) / unit, (x + y) % unit, x / unit + y / unit, 0, unit);
  }

  /** One odd byte in front of a four-byte element is enough to make the receiver fail. */
  lemma {:induction false} MixedElementSizesFail(cap: nat)
    requires cap >= 5
    ensures var ts := [Tensor("mask", [1], Dtype(0, 1), [7]), Tensor("scale", [1], Dtype(1, 4), [1, 2, 3, 4])];
            (forall t :: t in ts ==> WellFormed(t)) && !AllAligned(ts, cap, 0)
  {
    var a, b := Tensor("mask", [1], Dtype(0, 1), [7]), Tensor("scale", [1], Dtype(1, 4), [1, 2, 3, 4]);
    assert Numel([1]) == 1 * Numel([]);
    assert [a, b][1..] == [b] && Used(0, 1, cap) == 1;
    assert !AllAligned([b], cap, 1);
  }

  /** The tensors that a bucket's entries describe. */
  predicate Describes(metas: seq<Meta>, buf: seq<Byte>, ts: seq<Tensor>)
  {
    && |metas| == |ts|
    && forall i :: 0 <= i < |ts| ==>
         metas[i] == MetaOf(ts[i], metas[i].offset) && WellFormed(ts[i]) && LiesAt(buf, metas[i].offset, ts[i].data)
  }

  predicate LiesAt(buf: seq<Byte>, offset: nat, data: seq<Byte>)
  {
    offset + |data| <= |buf| && buf[offset..offset + |data|] == data
  }

  predicate EntriesViewable(metas: seq<Meta>)
  {
    forall i :: 0 <= i < |metas| ==> Viewable(metas[i].offset, metas[i].dtype.width)
  }

  /** Exactly the last of the messages said that it was the last. */
  predicate OneLast(lasts: seq<bool>)
  {
    lasts != [] && forall i :: 0 <= i < |lasts| ==> (lasts[i] <==> i == |lasts| - 1)
  }

  predicate Unmarked(lasts: seq<bool>) { forall i :: 0 <= i < |lasts| ==> !lasts[i] }

  /** The `idx`-th chunk of a tensor that does not fit the buffer. */
  function ChunkOf(t: Tensor, cap: nat, idx: nat): Chunk
    requires cap > 0 && idx < CeilDiv(|t.data|, cap)
  {
    MulLe(idx, CeilDiv(|t.data|, cap) - 1, cap);
    Chunk(idx, CeilDiv(|t.data|, cap), idx * cap, Min(idx * cap + cap, |t.data|) - idx * cap)
  }

  /** An entry for `t` in which the first `idx` chunks have landed. */
  predicate Landed(pending: map<string, Partial>, t: Tensor, cap: nat, idx: nat)
  {
    && t.name in pending
    && var p := pending[t.name];
       && p.shape == t.shape && p.dtype == t.dtype && p.received == Universe(idx) && |p.data| == |t.data|
       && idx * cap <= |t.data| && p.data[..idx * cap] == t.data[..idx * cap]
  }

  /** The receiver after `k` chunks of `t`: nothing before the first and after the last, in between the
      bytes of the first `k` chunks. */
  predicate Holds(pending: map<string, Partial>, t: Tensor, cap: nat, k: nat)
    requires cap > 0
  {
    if k == 0 || k == CeilDiv(|t.data|, cap) then t.name !in pending else Landed(pending, t, cap, k)
  }

  lemma {:induction false} ChunkLands(t: Tensor, cap: nat, idx: nat, before: map<string, Partial>, buf: seq<Byte>,
                                      after: map<string, Partial>)
    requires cap > 0 && idx < CeilDiv(|t.data|, cap) && |buf| == cap && Landed(before, t, cap, idx)
    requires var (p, c) := (before[t.name], ChunkOf(t, cap, idx));
             && LiesAt(buf, 0, t.data[c.start..c.start + c.size])
             && after == before[t.name := p.(data := p.data[..c.start] + buf[..c.size] + p.data[c.start + c.size..],
                                             received := p.received + {c.idx})]
    ensures after[t.name].received == Universe(idx + 1)
    ensures idx + 1 < CeilDiv(|t.data|, cap) ==> Holds(after, t, cap, idx + 1)
    ensures idx + 1 == CeilDiv(|t.data|, cap) ==>
              after[t.name] == Partial(t.shape, t.dtype, t.data, Universe(idx + 1))
  {
    var c := ChunkOf(t, cap, idx);
    var n := CeilDiv(|t.data|, cap);
    var data := after[t.name].data;
    assert (idx + 1) * cap == idx * cap + cap;
    assert buf[..c.size] == t.data[c.start..c.start + c.size];
    assert data[..c.start + c.size] == t.data[..c.start + c.size];
    if idx + 1 < n {
      MulLe(idx + 1, n - 1, cap);
    } else {
      assert data == data[..c.start + c.size];
    }
  }

  lemma {:induction false} HoldsOutside(pending: map<string, Partial>, t: Tensor, cap: nat)
    requires cap > 0
    ensures Holds(pending, t, cap, 0) <==> t.name !in pending
    ensures Holds(pending, t, cap, CeilDiv(|t.data|, cap)) <==> t.name !in pending
  {
  }

  /** `(numel + bucket - 1) // bucket`. */
  function ChunkCount(size: nat, cap: nat): (count: nat)
    requires cap > 0 && size > cap
    ensures count == CeilDiv(size, cap) > 0
  {
    (size + cap - 1) / cap
  }

  /** Every chunk starts inside the tensor. */
  lemma {:induction false} ChunkInside(size: nat, cap: nat, idx: nat)
    requires cap > 0 && idx < CeilDiv(size, cap)
    ensures 0 <= idx * cap < size
  {
    MulLe(idx, CeilDiv(size, cap) - 1, cap);
    MulLe(0, idx, cap);
  }

  lemma {:induction false} Marking(lasts: seq<bool>)
    ensures Unmarked(lasts) ==> Unmarked(lasts + [false])
  {
  }

  /** `chunk_count` of an entry that has one. */
  function CountOf(m: Meta): int
    requires m.chunk.Some?
  {
    m.chunk.value.count
  }

  class Receiver {
    const buffer: array<Byte>
    var pending: map<string, Partial>
    var delivered: seq<Tensor>
    var lasts: seq<bool>

    constructor (buffer: array<Byte>)
      ensures this.buffer == buffer && pending == map[] && delivered == [] && lasts == []
    {
      this.buffer := buffer;
      pending, delivered, lasts := map[], [], [];
    }

    /** An entry without chunk information: a view of the buffer, then a copy. */
    method TakeRegular(m: Meta) returns (t: Option<Tensor>)
      requires m.offset + Bytes(m.shape, m.dtype) <= buffer.Length && m.dtype.width > 0
      ensures t.Some? <==> Viewable(m.offset, m.dtype.width)
      ensures t.Some? ==> MetaOf(t.value, m.offset).(chunk := m.chunk) == m && WellFormed(t.value)
                          && LiesAt(buffer[..], m.offset, t.value.data)
    {
      var size := m.dtype.width * Numel(m.shape);
      if m.offset % m.dtype.width != 0 {
        return None;
      }
      t := Some(Tensor(m.name, m.shape, m.dtype, buffer[m.offset..m.offset + size]));
    }

    /** The first chunk of a tensor makes room for all of it; the new room holds anything. */
    method Begin(m: Meta, ghost t: Tensor, ghost idx: nat)
      requires buffer.Length > 0 && WellFormed(t) && idx < CeilDiv(|t.data|, buffer.Length)
      requires m.name == t.name && m.shape == t.shape && m.dtype == t.dtype
      requires Holds(pending, t, buffer.Length, idx)
      modifies this`pending
      ensures Landed(pending, t, buffer.Length, idx)
      ensures pending - {t.name} == old(pending) - {t.name}
    {
      if m.name !in pending {
        var total := m.dtype.width * Numel(m.shape);
        assert |seq(total, _ => 0 as Byte)| == total;
        var data: seq<Byte> :| |data| == total;
        pending := pending[m.name := Partial(m.shape, m.dtype, data, {})];
      }
    }

    /** One chunk; the tensor is complete when as many different chunks arrived as it has. */
    method TakeChunk(m: Meta, ghost t: Tensor, ghost idx: nat) returns (full: Option<Tensor>)
      requires buffer.Length > 0 && WellFormed(t) && idx < CeilDiv(|t.data|, buffer.Length)
      requires |t.data| > buffer.Length
      requires m == MetaOf(t, 0).(chunk := Some(ChunkOf(t, buffer.Length, idx)))
      requires LiesAt(buffer[..], 0, t.data[m.chunk.value.start..m.chunk.value.start + m.chunk.value.size])
      requires Holds(pending, t, buffer.Length, idx)
      modifies this`pending
      ensures Holds(pending, t, buffer.Length, idx + 1)
      ensures pending - {t.name} == old(pending) - {t.name}
      ensures full == if idx + 1 == CeilDiv(|t.data|, buffer.Length) then Some(t) else None
    {
      hide Holds, LiesAt, Universe, ChunkOf;
      Begin(m, t, idx);
      Land(m, t, idx);
      HoldsOutside(pending - {t.name}, t, buffer.Length);
      if |pending[m.name].received| == CountOf(m) {
        full := Some(Tensor(m.name, pending[m.name].shape, pending[m.name].dtype, pending[m.name].data));
        pending := pending - {m.name};
      } else {
        full := None;
      }
    }

    /** The bytes of a chunk go to their place in the tensor. */
    method Land(m: Meta, ghost t: Tensor, ghost idx: nat)
      requires buffer.Length > 0 && WellFormed(t) && idx < CeilDiv(|t.data|, buffer.Length)
      requires |t.data| > buffer.Length
      requires m == MetaOf(t, 0).(chunk := Some(ChunkOf(t, buffer.Length, idx)))
      requires LiesAt(buffer[..], 0, t.data[m.chunk.value.start..m.chunk.value.start + m.chunk.value.size])
      requires Landed(pending, t, buffer.Length, idx)
      modifies this`pending
      ensures pending - {t.name} == old(pending) - {t.name} && t.name in pending
      ensures |pending[t.name].received| == idx + 1 && CountOf(m) == CeilDiv(|t.data|, buffer.Length)
      ensures idx + 1 < CeilDiv(|t.data|, buffer.Length) ==> Holds(pending, t, buffer.Length, idx + 1)
      ensures idx + 1 == CeilDiv(|t.data|, buffer.Length) ==>
                pending[t.name] == Partial(t.shape, t.dtype, t.data, Universe(idx + 1))
    {
      var c := m.chunk.value;
      ghost var before := pending;
      var p := pending[m.name];
      var data := p.data[..c.start] + buffer[..c.size] + p.data[c.start + c.size..];
      pending := pending[m.name := p.(data := data, received := p.received + {c.idx})];
      ChunkLands(t, buffer.Length, idx, before, buffer[..], pending);
      assert |Universe(idx + 1)| == idx + 1;
    }

    /** One round of the receive loop on a bucket; the acknowledgement is the return of this method. */
    method ReceiveBucket(metas: seq<Meta>, isLast: bool, ghost ts: seq<Tensor>) returns (ok: bool)
      requires Describes(metas, buffer[..], ts)
      modifies this`delivered, this`lasts
      ensures ok <==> EntriesViewable(metas)
      ensures delivered == if ok then old(delivered) + ts else old(delivered)
      ensures lasts == if ok then old(lasts) + [isLast] else old(lasts)
    {
      var weights := [];
      for i := 0 to |metas|
        invariant EntriesViewable(metas[..i])
        invariant weights == ts[..i]
        invariant delivered == old(delivered) && lasts == old(lasts)
      {
        assert metas[i] == MetaOf(ts[i], metas[i].offset);
        assert LiesAt(buffer[..], metas[i].offset, ts[i].data);
        var t := TakeRegular(metas[i]);
        if t.None? {
          return false;
        }
        assert t.value == ts[i];
        weights := weights + [t.value];
        assert metas[..i + 1] == metas[..i] + [metas[i]];
      }
      assert metas[..|metas|] == metas;
      lasts := lasts + [isLast];
      delivered := delivered + weights;
      ok := true;
    }

    /** One round of the receive loop on a message with one chunk. */
    method ReceiveChunk(m: Meta, ghost t: Tensor, ghost idx: nat)
      requires buffer.Length > 0 && WellFormed(t) && idx < CeilDiv(|t.data|, buffer.Length)
      requires |t.data| > buffer.Length
      requires m == MetaOf(t, 0).(chunk := Some(ChunkOf(t, buffer.Length, idx)))
      requires LiesAt(buffer[..], 0, t.data[m.chunk.value.start..m.chunk.value.start + m.chunk.value.size])
      requires Holds(pending, t, buffer.Length, idx)
      modifies this
      ensures Holds(pending, t, buffer.Length, idx + 1)
      ensures pending - {t.name} == old(pending) - {t.name}
      ensures delivered == old(delivered) + if idx + 1 == CeilDiv(|t.data|, buffer.Length) then [t] else []
      ensures lasts == old(lasts) + [false]
    {
      var full := TakeChunk(m, t, idx);
      lasts := lasts + [false];
      if full.Some? {
        delivered := delivered + [full.value];
      }
    }
  }

  class Sender {
    const buffer: array<Byte>
    const receiver: Receiver
    /** True between a request and its reply: the receiver may be reading the buffer. */
    var waiting: bool

    predicate Valid() reads this { receiver.buffer == buffer && buffer.Length > 0 && !waiting }

    constructor (bucketSize: nat)
      requires bucketSize > 0
      ensures Valid() && buffer.Length == bucketSize && fresh(buffer) && fresh(receiver)
      ensures receiver.pending == map[] && receiver.delivered == [] && receiver.lasts == []
    {
      var b := new Byte[bucketSize];
      buffer := b;
      receiver := new Receiver(b);
      waiting := false;
    }

    /** The only writes to the buffer: inside it, to the given place, and while no request is open. */
    method Write(offset: nat, bytes: seq<Byte>)
      requires !waiting && offset + |bytes| <= buffer.Length
      modifies buffer
      ensures LiesAt(buffer[..], offset, bytes)
      ensures buffer[..offset] == old(buffer[..offset])
      ensures buffer[offset + |bytes|..] == old(buffer[offset + |bytes|..])
    {
      for i := 0 to |bytes|
        invariant buffer[offset..offset + i] == bytes[..i]
        invariant buffer[..offset] == old(buffer[..offset])
        invariant buffer[offset + |bytes|..] == old(buffer[offset + |bytes|..])
      {
        buffer[offset + i] := bytes[i];
        assert buffer[offset..offset + i + 1] == buffer[offset..offset + i] + [bytes[i]];
      }
      assert bytes[..|bytes|] == bytes;
    }

    method Pack(t: Tensor, metas: seq<Meta>, offset: nat, ghost ts: seq<Tensor>) returns (r: seq<Meta>)
      requires Valid() && WellFormed(t) && offset + |t.data| <= buffer.Length
      requires Describes(metas, buffer[..], ts) && Below(metas, ts, offset)
      requires NewName(t.name, metas)
      modifies buffer
      ensures r == metas + [MetaOf(t, offset)]
      ensures Describes(r, buffer[..], ts + [t]) && Below(r, ts + [t], offset + |t.data|)
    {
      r := Put(metas, MetaOf(t, offset));
      PutNew(metas, MetaOf(t, offset));
      Write(offset, t.data);
      forall i | 0 <= i < |ts| ensures LiesAt(buffer[..], metas[i].offset, ts[i].data) {
        assert LiesAt(old(buffer[..]), metas[i].offset, ts[i].data);
        StillLies(old(buffer[..]), buffer[..], metas[i].offset, ts[i].data, offset);
      }
    }

    method SendBucket(metas: seq<Meta>, isLast: bool, ghost ts: seq<Tensor>) returns (ok: bool)
      requires Valid() && Describes(metas, buffer[..], ts)
      modifies `waiting, receiver
      ensures ok ==> !waiting
      ensures ok <==> EntriesViewable(metas)
      ensures receiver.pending == old(receiver.pending)
      ensures receiver.delivered == if ok then old(receiver.delivered) + ts else old(receiver.delivered)
      ensures receiver.lasts == if ok then old(receiver.lasts) + [isLast] else old(receiver.lasts)
    {
      waiting := true;
      ok := receiver.ReceiveBucket(metas, isLast, ts);
      if ok {
        waiting := false;
      }
    }

    /** Nothing is sent for an empty bucket. */
    method Flush(metas: seq<Meta>, ghost ts: seq<Tensor>) returns (ok: bool)
      requires Valid() && |metas| == |ts| && Describes(metas, buffer[..], ts)
      modifies `waiting, receiver
      ensures ok ==> !waiting
      ensures ok <==> EntriesViewable(metas)
      ensures !ok ==> ts != []
      ensures receiver.pending == old(receiver.pending)
      ensures receiver.delivered == if ok then old(receiver.delivered) + ts else old(receiver.delivered)
      ensures Unmarked(old(receiver.lasts)) ==> Unmarked(receiver.lasts)
    {
      ok := true;
      if metas != [] {
        ok := SendBucket(metas, false, ts);
      }
    }

    method SendChunked(t: Tensor)
      requires Valid() && WellFormed(t) && |t.data| > buffer.Length && t.name !in receiver.pending
      modifies `waiting, buffer, receiver
      ensures Valid()
      ensures receiver.pending == old(receiver.pending)
      ensures receiver.delivered == old(receiver.delivered) + [t]
      ensures Unmarked(old(receiver.lasts)) ==> Unmarked(receiver.lasts)
    {
      hide Holds, Unmarked, CeilDiv, WellFormed;
      var cap := buffer.Length;
      var count := ChunkCount(|t.data|, cap);
      HoldsOutside(receiver.pending, t, cap);
      for idx := 0 to count
        invariant Valid() && Holds(receiver.pending, t, cap, idx)
        invariant receiver.pending - {t.name} == old(receiver.pending) - {t.name}
        invariant receiver.delivered == old(receiver.delivered) + if idx == count then [t] else []
        invariant Unmarked(old(receiver.lasts)) ==> Unmarked(receiver.lasts)
      {
        SendChunk(t, idx, count);
      }
      HoldsOutside(receiver.pending, t, cap);
      SameWithout(receiver.pending, old(receiver.pending), t.name);
    }

    /** One chunk: a slice of the tensor at the start of the buffer, and a request that says which. */
    method SendChunk(t: Tensor, idx: nat, count: nat)
      requires Valid() && WellFormed(t) && |t.data| > buffer.Length
      requires count == CeilDiv(|t.data|, buffer.Length) && idx < count
      requires Holds(receiver.pending, t, buffer.Length, idx)
      modifies `waiting, buffer, receiver
      ensures Valid() && Holds(receiver.pending, t, buffer.Length, idx + 1)
      ensures receiver.pending - {t.name} == old(receiver.pending) - {t.name}
      ensures receiver.delivered == old(receiver.delivered) + if idx + 1 == count then [t] else []
      ensures Unmarked(old(receiver.lasts)) ==> Unmarked(receiver.lasts)
    {
      hide Holds, Unmarked, CeilDiv, WellFormed;
      var cap := buffer.Length;
      ChunkInside(|t.data|, cap, idx);
      Marking(receiver.lasts);
      var start := idx * cap;
      var end := Min(start + cap, |t.data|);
      Write(0, t.data[start..end]);
      waiting := true;
      receiver.ReceiveChunk(Meta(t.name, t.shape, t.dtype, 0, Some(Chunk(idx, count, start, end - start))), t, idx);
      waiting := false;
    }

    /** Between two tensors: what is in the open bucket has not been sent, all before it has arrived. */
    ghost predicate Open(ts: seq<Tensor>, i: nat, metas: seq<Meta>, offset: nat, packed: seq<Tensor>)
      reads this, buffer, receiver
    {
      && Valid() && receiver.pending == map[] && offset <= buffer.Length && Unmarked(receiver.lasts)
      && |metas| == |packed| && Describes(metas, buffer[..], packed) && Below(metas, packed, offset)
      && Progress(ts, i, receiver.delivered, packed)
    }

    /** Case 1: the tensor fits the open bucket. */
    method AddHere(t: Tensor, metas: seq<Meta>, offset: nat, ghost ts: seq<Tensor>, ghost i: nat,
                   ghost packed: seq<Tensor>)
      returns (ok: bool, metas': seq<Meta>, offset': nat, ghost packed': seq<Tensor>)
      requires Open(ts, i, metas, offset, packed) && i < |ts| && t == ts[i] && WellFormed(t) && UniqueNames(ts)
      requires |t.data| <= buffer.Length && offset + |t.data| <= buffer.Length
      modifies `waiting, buffer, receiver
      ensures ok ==> Open(ts, i + 1, metas', offset', packed')
      ensures ok ==> (EntriesViewable(metas) && AllAligned(ts[i..], buffer.Length, offset) <==>
                      EntriesViewable(metas') && AllAligned(ts[i + 1..], buffer.Length, offset'))
      ensures !ok ==> !EntriesViewable(metas) && SomeBefore(receiver.delivered, ts)
    {
      hide UniqueNames, NewName, AllAligned, Describes, Below, EntriesViewable, WellFormed, Progress, Unmarked,
        OneLast, SomeBefore, LiesAt;
      OtherNames(ts, i, metas, buffer[..], packed, receiver.delivered);
      AlignedStep(ts, i, buffer.Length, offset);
      Nothing(buffer[..]);
      Flushed(ts, i, receiver.delivered, packed, receiver.lasts);
      ProgressPack(ts, i, receiver.delivered, packed);
      EntriesAppend(metas, MetaOf(t, offset));
      metas' := Pack(t, metas, offset, packed);
      ok, offset', packed' := true, offset + |t.data|, packed + [t];
    }

    /** Case 2: it fits a bucket, but not what is left of the open one. */
    method AddNext(t: Tensor, metas: seq<Meta>, offset: nat, ghost ts: seq<Tensor>, ghost i: nat,
                   ghost packed: seq<Tensor>)
      returns (ok: bool, metas': seq<Meta>, offset': nat, ghost packed': seq<Tensor>)
      requires Open(ts, i, metas, offset, packed) && i < |ts| && t == ts[i] && WellFormed(t) && UniqueNames(ts)
      requires |t.data| <= buffer.Length < offset + |t.data|
      modifies `waiting, buffer, receiver
      ensures ok ==> Open(ts, i + 1, metas', offset', packed')
      ensures ok ==> (EntriesViewable(metas) && AllAligned(ts[i..], buffer.Length, offset) <==>
                      EntriesViewable(metas') && AllAligned(ts[i + 1..], buffer.Length, offset'))
      ensures !ok ==> !EntriesViewable(metas) && SomeBefore(receiver.delivered, ts)
    {
      hide UniqueNames, NewName, AllAligned, Describes, Below, EntriesViewable, WellFormed, Progress, Unmarked,
        OneLast, SomeBefore, LiesAt;
      OtherNames(ts, i, metas, buffer[..], packed, receiver.delivered);
      AlignedStep(ts, i, buffer.Length, offset);
      Nothing(buffer[..]);
      Flushed(ts, i, receiver.delivered, packed, receiver.lasts);
      ok := Flush(metas, packed);
      metas', offset', packed' := [], 0, [];
      if ok {
        Nothing(buffer[..]);
        ProgressPack(ts, i, receiver.delivered, []);
        metas' := Pack(t, [], 0, []);
        assert metas' == [MetaOf(t, 0)];
        offset', packed' := |t.data|, [] + [t];
      }
    }

    /** Case 3: it is larger than any bucket. */
    method AddChunked(t: Tensor, metas: seq<Meta>, offset: nat, ghost ts: seq<Tensor>, ghost i: nat,
                      ghost packed: seq<Tensor>)
      returns (ok: bool, metas': seq<Meta>, offset': nat, ghost packed': seq<Tensor>)
      requires Open(ts, i, metas, offset, packed) && i < |ts| && t == ts[i] && WellFormed(t) && UniqueNames(ts)
      requires |t.data| > buffer.Length
      modifies `waiting, buffer, receiver
      ensures ok ==> Open(ts, i + 1, metas', offset', packed')
      ensures ok ==> (EntriesViewable(metas) && AllAligned(ts[i..], buffer.Length, offset) <==>
                      EntriesViewable(metas') && AllAligned(ts[i + 1..], buffer.Length, offset'))
      ensures !ok ==> !EntriesViewable(metas) && SomeBefore(receiver.delivered, ts)
    {
      hide UniqueNames, NewName, AllAligned, Describes, Below, EntriesViewable, WellFormed, Progress, Unmarked,
        OneLast, SomeBefore, LiesAt;
      OtherNames(ts, i, metas, buffer[..], packed, receiver.delivered);
      AlignedStep(ts, i, buffer.Length, offset);
      Nothing(buffer[..]);
      Flushed(ts, i, receiver.delivered, packed, receiver.lasts);
      ok := Flush(metas, packed);
      metas', offset', packed' := [], 0, [];
      if ok {
        ProgressPack(ts, i, receiver.delivered, []);
        ghost var delivered := receiver.delivered;
        SendChunked(t);
        Nothing(buffer[..]);
        ProgressChunked(ts, i, delivered);
      }
    }

    method Add(t: Tensor, metas: seq<Meta>, offset: nat, ghost ts: seq<Tensor>, ghost i: nat, ghost packed: seq<Tensor>)
      returns (ok: bool, metas': seq<Meta>, offset': nat, ghost packed': seq<Tensor>)
      requires Open(ts, i, metas, offset, packed) && i < |ts| && t == ts[i] && WellFormed(t) && UniqueNames(ts)
      modifies `waiting, buffer, receiver
      ensures ok ==> Open(ts, i + 1, metas', offset', packed')
      ensures ok ==> (EntriesViewable(metas) && AllAligned(ts[i..], buffer.Length, offset) <==>
                      EntriesViewable(metas') && AllAligned(ts[i + 1..], buffer.Length, offset'))
      ensures !ok ==> !EntriesViewable(metas) && SomeBefore(receiver.delivered, ts)
    {
      hide UniqueNames, AllAligned, EntriesViewable, WellFormed, SomeBefore, Open;
      if |t.data| <= buffer.Length && offset + |t.data| <= buffer.Length {
        ok, metas', offset', packed' := AddHere(t, metas, offset, ts, i, packed);
      } else if |t.data| <= buffer.Length {
        ok, metas', offset', packed' := AddNext(t, metas, offset, ts, i, packed);
      } else {
        ok, metas', offset', packed' := AddChunked(t, metas, offset, ts, i, packed);
      }
    }

    /** The round trip. It succeeds if and only if every packed tensor is aligned, and then the callbacks
        got exactly the tensors that were sent, once each and in order, and exactly one message, the
        final one, was marked last. */
    method SendWeights(ts: seq<Tensor>) returns (ok: bool)
      requires Valid() && receiver.pending == map[] && receiver.delivered == [] && receiver.lasts == []
      requires forall i :: 0 <= i < |ts| ==> WellFormed(ts[i])
      requires UniqueNames(ts)
      modifies `waiting, buffer, receiver
      ensures ok <==> AllAligned(ts, buffer.Length, 0)
      ensures ok ==> receiver.delivered == ts && OneLast(receiver.lasts) && receiver.pending == map[]
      ensures !ok ==> SomeBefore(receiver.delivered, ts)
    {
      hide UniqueNames, NewName, AllAligned, Describes, Below, EntriesViewable, WellFormed, Progress, OneLast,
        SomeBefore;
      var cap := buffer.Length;
      var offset: nat, metas := 0, [];
      ghost var packed: seq<Tensor> := [];
      assert ts[0..] == ts;
      Nothing(buffer[..]);
      ProgressStart(ts);
      assert forall i :: 0 <= i < |ts| ==> WellFormed(ts[i]);
      assert Unmarked(receiver.lasts);
      for i := 0 to |ts|
        invariant Open(ts, i, metas, offset, packed)
        invariant AllAligned(ts, cap, 0) <==> EntriesViewable(metas) && AllAligned(ts[i..], cap, offset)
      {
        ok, metas, offset, packed := Add(ts[i], metas, offset, ts, i, packed);
        if !ok {
          return;
        }
      }
      Flushed(ts, |ts|, receiver.delivered, packed, receiver.lasts);
      AllSent(ts, cap, offset, receiver.delivered, packed);
      ok := SendBucket(metas, true, packed);
    }
  }

  /** After `i` tensors: all but those in the open bucket have been delivered. */
  predicate Progress(ts: seq<Tensor>, i: nat, delivered: seq<Tensor>, packed: seq<Tensor>)
  {
    |packed| <= i <= |ts| && delivered == ts[..i - |packed|] && packed == ts[i - |packed|..i]
  }

  /** Some but not all of the tensors, from the front. */
  predicate SomeBefore(delivered: seq<Tensor>, ts: seq<Tensor>)
  {
    delivered < ts
  }

  lemma {:induction false} ProgressStart(ts: seq<Tensor>)
    ensures Progress(ts, 0, [], [])
  {
  }

  lemma {:induction false} ProgressPack(ts: seq<Tensor>, i: nat, delivered: seq<Tensor>, packed: seq<Tensor>)
    requires i < |ts| && Progress(ts, i, delivered, packed)
    ensures Progress(ts, i + 1, delivered, packed + [ts[i]])
  {
  }

  lemma {:induction false} ProgressChunked(ts: seq<Tensor>, i: nat, delivered: seq<Tensor>)
    requires i < |ts| && Progress(ts, i + 1, delivered, [ts[i]])
    ensures Progress(ts, i + 1, delivered + [ts[i]], [])
  {
    assert ts[..i + 1] == ts[..i] + [ts[i]];
  }

  lemma {:induction false} Flushed(ts: seq<Tensor>, i: nat, delivered: seq<Tensor>, packed: seq<Tensor>,
                                   lasts: seq<bool>)
    requires Progress(ts, i, delivered, packed)
    ensures Progress(ts, i, delivered + packed, [])
    ensures packed != [] ==> SomeBefore(delivered, ts)
    ensures Unmarked(lasts) ==> Unmarked(lasts + [false]) && OneLast(lasts + [true])
  {
    assert ts[..i] == ts[..i - |packed|] + ts[i - |packed|..i];
  }

  lemma {:induction false} AllSent(ts: seq<Tensor>, cap: nat, offset: nat, delivered: seq<Tensor>, packed: seq<Tensor>)
    requires Progress(ts, |ts|, delivered, packed)
    ensures delivered + packed == ts && AllAligned(ts[|ts|..], cap, offset)
  {
    assert ts == ts[..|ts| - |packed|] + ts[|ts| - |packed|..|ts|];
  }

  lemma {:induction false} Nothing(buf: seq<Byte>)
    ensures Describes([], buf, []) && Below([], [], 0) && EntriesViewable([])
  {
  }

  lemma {:induction false} OtherNames(ts: seq<Tensor>, i: nat, metas: seq<Meta>, buf: seq<Byte>, packed: seq<Tensor>,
                                      delivered: seq<Tensor>)
    requires i < |ts| && Describes(metas, buf, packed) && Progress(ts, i, delivered, packed)
    requires UniqueNames(ts)
    ensures NewName(ts[i].name, metas) && NewName(ts[i].name, [])
  {
    forall j | 0 <= j < |metas| ensures metas[j].name != ts[i].name {
      assert packed[j] == ts[i - |packed| + j];
    }
  }

  lemma {:induction false} AlignedStep(ts: seq<Tensor>, i: nat, cap: nat, offset: nat)
    requires i < |ts|
    ensures var size := |ts[i].data|;
            var rest := ts[i + 1..];
            AllAligned(ts[i..], cap, offset) <==>
              if size <= cap && offset + size <= cap then
                EntriesViewable([MetaOf(ts[i], offset)]) && AllAligned(rest, cap, offset + size)
              else if size <= cap then EntriesViewable([MetaOf(ts[i], 0)]) && AllAligned(rest, cap, size)
              else AllAligned(rest, cap, 0)
  {
    assert ts[i..][1..] == ts[i + 1..] && ts[i..][0] == ts[i];
    EntryAlone(MetaOf(ts[i], offset));
    EntryAlone(MetaOf(ts[i], 0));
  }

  lemma {:induction false} EntryAlone(m: Meta)
    ensures EntriesViewable([m]) <==> Viewable(m.offset, m.dtype.width)
  {
    assert [m][0] == m;
  }

  lemma {:induction false} EntriesAppend(metas: seq<Meta>, m: Meta)
    ensures EntriesViewable(metas + [m]) <==> EntriesViewable(metas) && EntriesViewable([m])
  {
    if EntriesViewable(metas + [m]) {
      assert (metas + [m])[|metas|] == [m][0];
      forall i | 0 <= i < |metas| ensures Viewable(metas[i].offset, metas[i].dtype.width) {
        assert (metas + [m])[i] == metas[i];
      }
    }
  }

  /** The bucket's regions end at or before `offset`. */
  predicate Below(metas: seq<Meta>, ts: seq<Tensor>, offset: nat)
    requires |metas| == |ts|
  {
    forall i :: 0 <= i < |metas| ==> metas[i].offset + |ts[i].data| <= offset
  }

  lemma {:induction false} StillLies(was: seq<Byte>, buf: seq<Byte>, at: nat, data: seq<Byte>, offset: nat)
    requires LiesAt(was, at, data) && at + |data| <= offset <= |was| == |buf| && buf[..offset] == was[..offset]
    ensures LiesAt(buf, at, data)
  {
    assert buf[at..at + |data|] == buf[..offset][at..at + |data|] == was[at..at + |data|];
  }

  lemma {:induction false} SameWithout(a: map<string, Partial>, b: map<string, Partial>, name: string)
    requires name !in a && name !in b && a - {name} == b - {name}
    ensures a == b
  {
    assert a - {name} == a && b - {name} == b;
  }
}
