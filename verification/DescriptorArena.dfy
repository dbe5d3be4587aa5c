/** Sub-allocation of descriptor sets from a descriptor heap (the descriptor-buffer path): the
    LINEAR policy bumps a write pointer, the POOL policy keeps a free list of slots. Conditions that
    `VKAllocateSet` asserts are guards here. Heap offsets are 64-bit and far below 2^64. */
module DescriptorArena {
  import opened Common

  const ALIGNMENT: nat := 256

  /** Byte size of one descriptor assumed when a pool is laid out. */
  const DESCRIPTOR_BYTES: nat := 64

  // ---------------------------------------------------------------- layouts

  datatype Binding = Binding(slot: nat, count: nat)

  /** Bytes of a layout whose descriptors take `size` bytes; each product is a 32-bit one. */
  function Bytes(bindings: seq<Binding>, size: nat): nat {
    if bindings == [] then 0
    else Bytes(bindings[..|bindings| - 1], size) + bindings[|bindings| - 1].count * size % TWO_32
  }

  function Stride(bindings: seq<Binding>): nat {
    AlignUp(Bytes(bindings, DESCRIPTOR_BYTES), ALIGNMENT)
  }

  method ComputeStride(bindings: seq<Binding>) returns (stride: nat)
    ensures stride == Stride(bindings)
  {
    stride := 0;
    for i := 0 to |bindings|
      invariant stride == Bytes(bindings[..i], DESCRIPTOR_BYTES)
    {
      assert bindings[..i + 1][..i] == bindings[..i];
      stride := stride + bindings[i].count * 64 % TWO_32;
    }
    assert bindings[..|bindings|] == bindings;
    AlignUp256(stride);
    stride := (stride + 255) / 256 * 256;
  }

  function IndexOfSlot(bindings: seq<Binding>, slot: nat): (i: nat)
    ensures i <= |bindings|
    ensures i < |bindings| ==> bindings[i].slot == slot
    ensures forall j :: 0 <= j < i ==> bindings[j].slot != slot
  {
    if bindings == [] || bindings[0].slot == slot then 0 else 1 + IndexOfSlot(bindings[1..], slot)
  }

  function BindingOffset(bindings: seq<Binding>, slot: nat, size: nat): nat {
    Bytes(bindings[..IndexOfSlot(bindings, slot)], size)
  }

  /** The scan a write makes to find where in its set a slot lives. */
  method FindBindingOffset(bindings: seq<Binding>, slot: nat, size: nat) returns (offset: nat)
    ensures offset == BindingOffset(bindings, slot, size)
  {
    offset := 0;
    var b := 0;
    while b < |bindings|
      invariant b <= IndexOfSlot(bindings, slot)
      invariant offset == Bytes(bindings[..b], size)
    {
      if bindings[b].slot == slot {
        break;
      }
      assert bindings[..b + 1][..b] == bindings[..b];
      offset := offset + bindings[b].count * size % TWO_32;
      b := b + 1;
    }
  }

  predicate DistinctSlots(bindings: seq<Binding>) {
    forall i, j :: 0 <= i < j < |bindings| ==> bindings[i].slot != bindings[j].slot
  }

  predicate CountsFit(bindings: seq<Binding>) {
    forall i :: 0 <= i < |bindings| ==> bindings[i].count * DESCRIPTOR_BYTES < TWO_32
  }

  lemma {:induction false} BytesMonotone(bindings: seq<Binding>, m: nat, n: nat, size: nat)
    requires m <= n <= |bindings|
    ensures Bytes(bindings[..m], size) <= Bytes(bindings[..n], size)
  {
    if m < n {
      BytesMonotone(bindings, m, n - 1, size);
      assert bindings[..n][..n - 1] == bindings[..n - 1];
    }
  }

  lemma {:induction false} BytesScale(bindings: seq<Binding>, size: nat)
    requires CountsFit(bindings) && size <= DESCRIPTOR_BYTES
    ensures Bytes(bindings, size) <= Bytes(bindings, DESCRIPTOR_BYTES)
  {
    if bindings != [] {
      var n := |bindings| - 1;
      BytesScale(bindings[..n], size);
      CountScales(bindings[n].count, size);
    }
  }

  lemma {:induction false} ProductGrows(count: nat, m: nat, n: nat)
    requires m <= n
    ensures count * m <= count * n
  {
    if count > 0 {
      ProductGrows(count - 1, m, n);
      assert count * m == (count - 1) * m + m && count * n == (count - 1) * n + n;
    }
  }

  lemma CountScales(count: nat, size: nat)
    requires count * DESCRIPTOR_BYTES < TWO_32 && size <= DESCRIPTOR_BYTES
    ensures count * size % TWO_32 == count * size <= count * DESCRIPTOR_BYTES
    ensures count * DESCRIPTOR_BYTES % TWO_32 == count * DESCRIPTOR_BYTES
  {
    ProductGrows(count, size, DESCRIPTOR_BYTES);
    SmallMod(count * size, TWO_32);
    SmallMod(count * DESCRIPTOR_BYTES, TWO_32);
  }

  lemma BindingEnd(bindings: seq<Binding>, i: nat, size: nat)
    requires CountsFit(bindings) && size <= DESCRIPTOR_BYTES && i < |bindings|
    ensures Bytes(bindings[..i + 1], size) == Bytes(bindings[..i], size) + bindings[i].count * size
  {
    assert bindings[..i + 1][..i] == bindings[..i];
    CountScales(bindings[i].count, size);
  }

  /** All descriptors of a layout. */
  function Descriptors(bindings: seq<Binding>): nat {
    if bindings == [] then 0 else Descriptors(bindings[..|bindings| - 1]) + bindings[|bindings| - 1].count
  }

  lemma {:induction false} BytesAreDescriptors(bindings: seq<Binding>, size: nat)
    requires CountsFit(bindings) && size <= DESCRIPTOR_BYTES
    ensures Bytes(bindings, size) == Descriptors(bindings) * size
  {
    if bindings != [] {
      var n := |bindings| - 1;
      BytesAreDescriptors(bindings[..n], size);
      CountScales(bindings[n].count, size);
      Distribute(Descriptors(bindings[..n]), bindings[n].count, size);
    }
  }

  /** The stride is the least multiple of 256 that holds all descriptors of the layout at 64 bytes each. */
  lemma StrideExactly(bindings: seq<Binding>)
    requires CountsFit(bindings)
    ensures Stride(bindings) % 256 == 0
    ensures Descriptors(bindings) * 64 <= Stride(bindings) < Descriptors(bindings) * 64 + 256
  {
    BytesAreDescriptors(bindings, DESCRIPTOR_BYTES);
    AlignUpIsMultiple(Bytes(bindings, DESCRIPTOR_BYTES), ALIGNMENT);
  }

  /** A slot lies right behind the descriptors of the bindings before it. */
  lemma OffsetExactly(bindings: seq<Binding>, i: nat, size: nat)
    requires DistinctSlots(bindings) && CountsFit(bindings) && size <= DESCRIPTOR_BYTES && i < |bindings|
    ensures BindingOffset(bindings, bindings[i].slot, size) == Descriptors(bindings[..i]) * size
  {
    SlotStaysInside(bindings, i, size);
    BytesAreDescriptors(bindings[..i], size);
  }

  /** Each slot of the layout gets a byte range inside its set's stride, whatever the heap's descriptor
      size (64 or 32 bytes). */
  lemma SlotStaysInside(bindings: seq<Binding>, i: nat, size: nat)
    requires DistinctSlots(bindings) && CountsFit(bindings) && size <= DESCRIPTOR_BYTES
    requires i < |bindings|
    ensures BindingOffset(bindings, bindings[i].slot, size) == Bytes(bindings[..i], size)
    ensures BindingOffset(bindings, bindings[i].slot, size) + bindings[i].count * size <= Stride(bindings)
  {
    BindingEnd(bindings, i, size);
    BytesMonotone(bindings, i + 1, |bindings|, size);
    assert bindings[..|bindings|] == bindings;
    BytesScale(bindings, size);
  }

  /** ... and no two slots share a byte: the ranges follow each other in layout order. */
  lemma SlotsStayInsideTheSet(bindings: seq<Binding>, i: nat, j: nat, size: nat)
    requires DistinctSlots(bindings) && CountsFit(bindings) && size <= DESCRIPTOR_BYTES
    requires i < j < |bindings|
    ensures var a := BindingOffset(bindings, bindings[i].slot, size);
            var b := BindingOffset(bindings, bindings[j].slot, size);
            a + bindings[i].count * size <= b && b + bindings[j].count * size <= Stride(bindings)
  {
    SlotStaysInside(bindings, i, size);
    SlotStaysInside(bindings, j, size);
    BindingEnd(bindings, i, size);
    BytesMonotone(bindings, i + 1, j, size);
  }

  /** A slot that is not in the layout is given the offset just past the last binding. */
  lemma UnknownSlotIsPastTheEnd(bindings: seq<Binding>, slot: nat, size: nat)
    requires forall i :: 0 <= i < |bindings| ==> bindings[i].slot != slot
    ensures BindingOffset(bindings, slot, size) == Bytes(bindings, size)
  {
    assert bindings[..|bindings|] == bindings;
  }

  // ---------------------------------------------------------------- LINEAR

  datatype Linear = Linear(base: nat, stride: nat, capacity: nat, writePtr: nat)

  function NextOffset(a: Linear): nat {
    AlignUp(a.base + a.writePtr, ALIGNMENT)
  }

  /** What `VKAllocateSet` asserts for LINEAR: the arena is not full. */
  predicate HasRoom(a: Linear) {
    NextOffset(a) - a.base + a.stride <= a.capacity * a.stride
  }

  function Bump(a: Linear): Linear {
    a.(writePtr := NextOffset(a) - a.base + a.stride)
  }

  function Rewind(a: Linear): Linear {
    a.(writePtr := a.base)
  }

  // ---------------------------------------------------------------- POOL

  datatype Slots = Slots(base: nat, stride: nat, capacity: nat, freeSlots: seq<nat>)

  function InitialSlots(base: nat, stride: nat, capacity: nat): Slots {
    Slots(base, stride, capacity, seq(capacity, i => i))
  }

  function SlotOffset(p: Slots, slot: nat): nat {
    p.base + slot * p.stride
  }

  function Take(p: Slots): Slots
    requires p.freeSlots != []
  {
    p.(freeSlots := p.freeSlots[..|p.freeSlots| - 1])
  }

  function Taken(p: Slots): nat
    requires p.freeSlots != []
  {
    SlotOffset(p, p.freeSlots[|p.freeSlots| - 1])
  }

  /** The slot a byte offset belongs to, as `VKFreeSet` computes it. */
  function SlotAt(p: Slots, offset: nat): nat
    requires p.stride > 0 && offset >= p.base
  {
    (offset - p.base) / p.stride % TWO_32
  }

  function Return(p: Slots, offset: nat): Slots
    requires p.stride > 0 && offset >= p.base
  {
    p.(freeSlots := p.freeSlots + [SlotAt(p, offset)])
  }

  // ---------------------------------------------------------------- the pool object

  datatype Policy = LINEAR | POOL | MANUAL

  class VulkanDescriptorPool {
    const policy: Policy
    const heapBaseOffset: nat
    const stridePerSet: nat
    const capacity: nat
    var writePtr: nat
    var freeSlots: seq<nat>

    ghost function LinearView(): Linear
      reads this
    {
      Linear(heapBaseOffset, stridePerSet, capacity, writePtr)
    }

    ghost function SlotsView(): Slots
      reads this
    {
      Slots(heapBaseOffset, stridePerSet, capacity, freeSlots)
    }

    constructor (policy: Policy, heapOffset: nat, layout: seq<Binding>, capacity: nat)
      requires capacity < TWO_32
      ensures this.policy == policy
      ensures LinearView() == Linear(heapOffset, Stride(layout), capacity, 0)
      ensures policy.POOL? ==> SlotsView() == InitialSlots(heapOffset, Stride(layout), capacity)
    {
      this.policy := policy;
      this.heapBaseOffset := heapOffset;
      this.capacity := capacity;
      writePtr := 0;
      var stride := ComputeStride(layout);
      stridePerSet := stride;
      var slots: seq<nat> := [];
      if policy.POOL? {
        for i := 0 to capacity
          invariant slots == seq(i, k => k)
        {
          slots := slots + [i];
        }
      }
      freeSlots := slots;
    }

    /** The byte offset of the new set; a MANUAL set gets 0, to be placed by its user. */
    method AllocateSet() returns (byteOffset: nat)
      requires policy.LINEAR? ==> HasRoom(LinearView())
      requires policy.POOL? ==> freeSlots != []
      modifies this
      ensures policy.LINEAR? ==> byteOffset == NextOffset(old(LinearView())) && LinearView() == Bump(old(LinearView()))
      ensures policy.POOL? ==> byteOffset == Taken(old(SlotsView())) && SlotsView() == Take(old(SlotsView()))
      ensures policy.MANUAL? ==> byteOffset == 0
      ensures !policy.LINEAR? ==> writePtr == old(writePtr)
      ensures !policy.POOL? ==> freeSlots == old(freeSlots)
    {
      match policy
      case LINEAR =>
        AlignUp256(heapBaseOffset + writePtr);
        byteOffset := (heapBaseOffset + writePtr + 255) / 256 * 256;
        writePtr := byteOffset - heapBaseOffset + stridePerSet;
      case POOL =>
        var slot := freeSlots[|freeSlots| - 1];
        freeSlots := freeSlots[..|freeSlots| - 1];
        byteOffset := heapBaseOffset + slot * stridePerSet;
      case MANUAL =>
        byteOffset := 0;
    }

    method FreeSet(byteOffset: nat)
      requires policy.POOL? && stridePerSet > 0 && byteOffset >= heapBaseOffset
      modifies this`freeSlots
      ensures SlotsView() == Return(old(SlotsView()), byteOffset)
    {
      var slot := (byteOffset - heapBaseOffset) / stridePerSet % TWO_32;
      freeSlots := freeSlots + [slot];
    }

    method Reset()
      requires policy.LINEAR?
      modifies this`writePtr
      ensures LinearView() == Rewind(old(LinearView()))
    {
      writePtr := heapBaseOffset;
    }
  }

  // ---------------------------------------------------------------- exact capacity of LINEAR

  /** The arena after `n` allocations, and the offset the next one gets. */
  function Nth(a: Linear, n: nat): Linear {
    if n == 0 then a else Bump(Nth(a, n - 1))
  }

  function OffsetOf(a: Linear, n: nat): nat {
    NextOffset(Nth(a, n))
  }

  function FreshLinear(base: nat, stride: nat, capacity: nat): Linear {
    Linear(base, stride, capacity, 0)
  }

  lemma NextOffsetAligned(a: Linear)
    ensures NextOffset(a) % ALIGNMENT == 0
  {
    AlignUpIsMultiple(a.base + a.writePtr, ALIGNMENT);
  }

  lemma BumpIsAligned(a: Linear)
    requires a.stride % ALIGNMENT == 0
    ensures NextOffset(Bump(a)) == NextOffset(a) + a.stride
  {
    var offset := NextOffset(a);
    NextOffsetAligned(a);
    SumOfMultiples(offset, a.stride, ALIGNMENT);
    AlignUpMultiple(0, offset + a.stride, ALIGNMENT);
  }

  /** Sets are handed out back to back. */
  lemma {:induction false} SetsAreConsecutive(a: Linear, n: nat)
    requires a.stride % ALIGNMENT == 0
    ensures OffsetOf(a, n) == NextOffset(a) + n * a.stride
    ensures Nth(a, n).base == a.base && Nth(a, n).stride == a.stride && Nth(a, n).capacity == a.capacity
  {
    if n > 0 {
      SetsAreConsecutive(a, n - 1);
      BumpIsAligned(Nth(a, n - 1));
      Successor(n - 1, a.stride);
    }
  }

  lemma Successor(n: nat, stride: nat)
    ensures (n + 1) * stride == n * stride + stride
  {
  }

  lemma RoomMeans(a: Linear, n: nat)
    requires a.stride % ALIGNMENT == 0
    ensures HasRoom(Nth(a, n)) <==> NextOffset(a) - a.base + (n + 1) * a.stride <= a.capacity * a.stride
  {
    SetsAreConsecutive(a, n);
    Successor(n, a.stride);
  }

  /** The gap in front of the first set costs one set, unless the arena starts on a boundary. */
  lemma RoomExactly(gap: nat, sets: nat, capacity: nat, stride: nat)
    requires stride > 0 && gap <= stride
    ensures gap + sets * stride <= capacity * stride <==> sets + (if gap == 0 then 0 else 1) <= capacity
  {
    if sets + 1 <= capacity {
      Split(capacity, sets, stride);
    } else if sets > capacity {
      Split(sets, capacity, stride);
    } else {
      assert sets == capacity;
    }
  }

  lemma Split(m: nat, n: nat, stride: nat)
    requires m > n
    ensures m * stride >= n * stride + stride
  {
    MulAtLeast(m - n, stride);
    assert m * stride == n * stride + (m - n) * stride;
  }

  /** A LINEAR arena has room for exactly `capacity` sets when it starts on a 256-byte boundary, and
      for exactly one less when it does not. */
  lemma LinearExactCapacity(base: nat, stride: nat, capacity: nat, n: nat)
    requires stride > 0 && stride % ALIGNMENT == 0
    ensures HasRoom(Nth(FreshLinear(base, stride, capacity), n)) <==>
            n < if base % ALIGNMENT == 0 then capacity else capacity - 1
  {
    var a := FreshLinear(base, stride, capacity);
    RoomMeans(a, n);
    NextOffsetAligned(a);
    if base % ALIGNMENT == 0 {
      AlignUpMultiple(0, base, ALIGNMENT);
    }
    RoomExactly(NextOffset(a) - base, n + 1, capacity, stride);
  }

  /** Its sets are aligned, disjoint, in increasing order, and inside the arena. */
  lemma LinearSetsDisjoint(base: nat, stride: nat, capacity: nat, m: nat, n: nat)
    requires stride > 0 && stride % ALIGNMENT == 0 && m < n
    requires HasRoom(Nth(FreshLinear(base, stride, capacity), n))
    ensures var a := FreshLinear(base, stride, capacity);
            && OffsetOf(a, m) % ALIGNMENT == OffsetOf(a, n) % ALIGNMENT == 0
            && base <= OffsetOf(a, m) && OffsetOf(a, m) + stride <= OffsetOf(a, n)
            && OffsetOf(a, n) + stride <= base + capacity * stride
  {
    var a := FreshLinear(base, stride, capacity);
    NextOffsetAligned(Nth(a, m));
    NextOffsetAligned(Nth(a, n));
    SetsApart(a, m, n);
    SetsAreConsecutive(a, n);
  }

  lemma SetsApart(a: Linear, m: nat, n: nat)
    requires a.stride % ALIGNMENT == 0 && m < n
    ensures a.base + a.writePtr <= OffsetOf(a, m) && OffsetOf(a, m) + a.stride <= OffsetOf(a, n)
  {
    SetsAreConsecutive(a, m);
    SetsAreConsecutive(a, n);
    Split(n, m, a.stride);
  }

  /** Reset puts the write pointer at the base offset, to which it is relative, so it replays the
      same offsets exactly when the arena starts within the first 128 bytes of its heap. */
  lemma ResetReplaysExactly(a: Linear)
    requires a.stride % ALIGNMENT == 0
    ensures (forall n :: OffsetOf(Rewind(a), n) == OffsetOf(a.(writePtr := 0), n)) <==> a.base <= 128
  {
    var start := a.(writePtr := 0);
    forall n ensures OffsetOf(Rewind(a), n) - OffsetOf(start, n) == NextOffset(Rewind(a)) - NextOffset(start) {
      SetsAreConsecutive(Rewind(a), n);
      SetsAreConsecutive(start, n);
    }
    assert OffsetOf(Rewind(a), 0) == AlignUp(a.base + a.base, 256);
    assert OffsetOf(start, 0) == AlignUp(a.base, 256);
    if a.base == 0 {
    } else if a.base <= 128 {
      AlignUpUnique(a.base, 256, 256);
      AlignUpUnique(a.base + a.base, 256, 256);
    }
  }

  lemma CeilingFits(gap: nat, sets: nat, capacity: nat, stride: nat)
    requires stride > 0
    ensures gap + sets * stride <= capacity * stride <==> sets + (gap + stride - 1) / stride <= capacity
  {
    var q, r := (gap + stride - 1) / stride, (gap + stride - 1) % stride;
    assert gap + stride - 1 == q * stride + r;
    if sets + q <= capacity {
      Distribute(sets, q, stride);
    } else {
      Distribute(sets, q, stride);
      Distribute(capacity, 1, stride);
    }
  }

  lemma Distribute(m: nat, n: nat, stride: nat)
    ensures (m + n) * stride == m * stride + n * stride
  {
  }

  /** How many sets fit after a reset: the gap between the base and twice the base, rounded up, is lost. With a base
      that is a multiple of the stride that is as many sets as lie in front of the arena. */
  lemma CapacityAfterReset(a: Linear, n: nat)
    requires a.stride > 0 && a.stride % ALIGNMENT == 0
    ensures HasRoom(Nth(Rewind(a), n)) <==>
            n + (AlignUp(a.base + a.base, ALIGNMENT) - a.base + a.stride - 1) / a.stride < a.capacity
  {
    RoomMeans(Rewind(a), n);
    CeilingFits(AlignUp(a.base + a.base, ALIGNMENT) - a.base, n + 1, a.capacity, a.stride);
  }

  // ---------------------------------------------------------------- conservation in POOL

  /** A pool with the byte offsets of the sets not freed yet. */
  datatype PoolTrack = PoolTrack(pool: Slots, live: set<nat>)

  datatype PoolOp = AllocateOp | FreeOp(offset: nat)

  /** The pool is not full; a set is freed once, to the pool it came from. */
  predicate Clean(t: PoolTrack, op: PoolOp) {
    match op
    case AllocateOp => t.pool.freeSlots != []
    case FreeOp(offset) => offset in t.live
  }

  ghost predicate Inv(t: PoolTrack) {
    var p := t.pool;
    && p.stride > 0 && p.capacity < TWO_32
    && (forall k :: 0 <= k < |p.freeSlots| ==> p.freeSlots[k] < p.capacity)
    && (forall j, k :: 0 <= j < k < |p.freeSlots| ==> p.freeSlots[j] != p.freeSlots[k])
    && (forall s :: 0 <= s < p.capacity ==> (s in p.freeSlots <==> SlotOffset(p, s) !in t.live))
    && (forall o :: o in t.live ==> IsSlotOffset(p, o))
    && |p.freeSlots| + |t.live| == p.capacity
  }

  predicate IsSlotOffset(p: Slots, o: nat) {
    exists s :: 0 <= s < p.capacity && o == SlotOffset(p, s)
  }

  ghost function Do(t: PoolTrack, op: PoolOp): PoolTrack
    requires Inv(t) && Clean(t, op)
  {
    match op
    case AllocateOp => PoolTrack(Take(t.pool), t.live + {Taken(t.pool)})
    case FreeOp(offset) => PoolTrack(Return(t.pool, offset), t.live - {offset})
  }

  /** The division recovers the slot, so different slots have different offsets. */
  lemma SlotRecovered(p: Slots, s: nat)
    requires p.stride > 0 && s < p.capacity < TWO_32
    ensures SlotOffset(p, s) >= p.base && SlotAt(p, SlotOffset(p, s)) == s
  {
    DivModUnique(s * p.stride, p.stride, s, 0);
  }

  lemma OffsetsDiffer(p: Slots)
    requires p.stride > 0 && p.capacity < TWO_32
    ensures forall s, s' :: 0 <= s < p.capacity && 0 <= s' < p.capacity && SlotOffset(p, s) == SlotOffset(p, s')
              ==> s == s'
  {
    forall s, s' | 0 <= s < p.capacity && 0 <= s' < p.capacity && SlotOffset(p, s) == SlotOffset(p, s')
      ensures s == s'
    {
      SlotRecovered(p, s);
      SlotRecovered(p, s');
    }
  }

  lemma InitialInv(base: nat, stride: nat, capacity: nat)
    requires stride > 0 && capacity < TWO_32
    ensures Inv(PoolTrack(InitialSlots(base, stride, capacity), {}))
  {
    var p := InitialSlots(base, stride, capacity);
    forall s | 0 <= s < capacity ensures s in p.freeSlots {
      assert p.freeSlots[s] == s;
    }
  }

  lemma AllocateMovesOneSlot(t: PoolTrack, s: nat)
    requires Inv(t) && Clean(t, AllocateOp) && s < t.pool.capacity
    ensures s in Take(t.pool).freeSlots <==> SlotOffset(t.pool, s) !in t.live + {Taken(t.pool)}
  {
    var p := t.pool;
    SlotRecovered(p, s);
    SlotRecovered(p, p.freeSlots[|p.freeSlots| - 1]);
  }

  lemma AllocateKeepsInv(t: PoolTrack)
    requires Inv(t) && Clean(t, AllocateOp)
    ensures Inv(Do(t, AllocateOp))
  {
    var p := t.pool;
    var last := p.freeSlots[|p.freeSlots| - 1];
    var t' := Do(t, AllocateOp);
    forall s | 0 <= s < p.capacity ensures s in t'.pool.freeSlots <==> SlotOffset(t'.pool, s) !in t'.live {
      AllocateMovesOneSlot(t, s);
    }
    assert last in p.freeSlots;
    assert IsSlotOffset(p, SlotOffset(p, last));
    forall o | o in t'.live ensures IsSlotOffset(t'.pool, o) {
      SameSlots(p, t'.pool, o);
    }
  }

  lemma SameSlots(p: Slots, q: Slots, o: nat)
    requires IsSlotOffset(p, o) && p.(freeSlots := q.freeSlots) == q
    ensures IsSlotOffset(q, o)
  {
    var s :| 0 <= s < p.capacity && o == SlotOffset(p, s);
    assert o == SlotOffset(q, s);
  }

  lemma FreeKeepsInv(t: PoolTrack, offset: nat)
    requires Inv(t) && Clean(t, FreeOp(offset))
    ensures Inv(Do(t, FreeOp(offset)))
    ensures SlotOffset(t.pool, SlotAt(t.pool, offset)) == offset
  {
    var p := t.pool;
    assert IsSlotOffset(p, offset);
    var slot :| 0 <= slot < p.capacity && offset == SlotOffset(p, slot);
    SlotRecovered(p, slot);
    OffsetsDiffer(p);
    var t' := Do(t, FreeOp(offset));
    forall s | 0 <= s < p.capacity ensures s in t'.pool.freeSlots <==> SlotOffset(p, s) !in t'.live {
    }
    forall o | o in t'.live ensures IsSlotOffset(t'.pool, o) {
      SameSlots(p, t'.pool, o);
    }
  }

  ghost predicate CleanRun(t: PoolTrack, ops: seq<PoolOp>)
    requires Inv(t)
    decreases |ops|
  {
    ops == [] || (Clean(t, ops[0]) && (DoKeepsInv(t, ops[0]); CleanRun(Do(t, ops[0]), ops[1..])))
  }

  ghost function End(t: PoolTrack, ops: seq<PoolOp>): (e: PoolTrack)
    requires Inv(t) && CleanRun(t, ops)
    ensures Inv(e) && e.pool.(freeSlots := []) == t.pool.(freeSlots := [])
    decreases |ops|
  {
    if ops == [] then t else (DoKeepsInv(t, ops[0]); End(Do(t, ops[0]), ops[1..]))
  }

  lemma DoKeepsInv(t: PoolTrack, op: PoolOp)
    requires Inv(t) && Clean(t, op)
    ensures Inv(Do(t, op))
  {
    match op
    case AllocateOp => AllocateKeepsInv(t);
    case FreeOp(offset) => FreeKeepsInv(t, offset);
  }

  /** After any clean run of a POOL arena: free and live slots partition 0..capacity-1 with no slot
      free twice, live byte ranges are disjoint and inside the arena, and freeing any live set gives
      back exactly its slot. */
  lemma PoolConserves(base: nat, stride: nat, capacity: nat, ops: seq<PoolOp>)
    requires stride > 0 && capacity < TWO_32
    requires (InitialInv(base, stride, capacity); CleanRun(PoolTrack(InitialSlots(base, stride, capacity), {}), ops))
    ensures (InitialInv(base, stride, capacity);
             var t := End(PoolTrack(InitialSlots(base, stride, capacity), {}), ops);
             && |t.pool.freeSlots| + |t.live| == capacity
             && (forall j, k :: 0 <= j < k < |t.pool.freeSlots| ==> t.pool.freeSlots[j] != t.pool.freeSlots[k])
             && (forall s :: 0 <= s < capacity ==> (s in t.pool.freeSlots <==> SlotOffset(t.pool, s) !in t.live))
             && (forall o :: o in t.live ==> o >= base && o + stride <= base + capacity * stride)
             && (forall o, o' :: o in t.live && o' in t.live && o < o' ==> o + stride <= o')
             && (forall o :: o in t.live ==> o >= t.pool.base && SlotOffset(t.pool, SlotAt(t.pool, o)) == o))
  {
    InitialInv(base, stride, capacity);
    var t := End(PoolTrack(InitialSlots(base, stride, capacity), {}), ops);
    forall o | o in t.live
      ensures o >= base && o + stride <= base + capacity * stride && SlotOffset(t.pool, SlotAt(t.pool, o)) == o
    {
      LiveIsInside(t, o);
    }
    forall o, o' | o in t.live && o' in t.live && o < o' ensures o + stride <= o' {
      LiveApart(t, o, o');
    }
  }

  lemma LiveIsInside(t: PoolTrack, o: nat)
    requires Inv(t) && o in t.live
    ensures o >= t.pool.base && o + t.pool.stride <= t.pool.base + t.pool.capacity * t.pool.stride
    ensures SlotOffset(t.pool, SlotAt(t.pool, o)) == o
  {
    var p := t.pool;
    assert IsSlotOffset(p, o);
    var s :| 0 <= s < p.capacity && o == SlotOffset(p, s);
    SlotRecovered(p, s);
    Split(p.capacity, s, p.stride);
  }

  lemma LiveApart(t: PoolTrack, o: nat, o': nat)
    requires Inv(t) && o in t.live && o' in t.live && o < o'
    ensures o + t.pool.stride <= o'
  {
    var p := t.pool;
    assert IsSlotOffset(p, o) && IsSlotOffset(p, o');
    var s :| 0 <= s < p.capacity && o == SlotOffset(p, s);
    var s' :| 0 <= s' < p.capacity && o' == SlotOffset(p, s');
    if s' < s {
      Split(s, s', p.stride);
    } else if s < s' {
      Split(s', s, p.stride);
    }
  }

  // ---------------------------------------------------------------- the order of slots

  /** The set freed last is the first to be handed out again. */
  lemma FreedSetIsReusedFirst(t: PoolTrack, offset: nat)
    requires Inv(t) && Clean(t, FreeOp(offset))
    ensures offset >= t.pool.base && Taken(Return(t.pool, offset)) == offset
  {
    LiveIsInside(t, offset);
  }

  function TakeMany(p: Slots, n: nat): (q: Slots)
    requires n <= |p.freeSlots|
    ensures |q.freeSlots| == |p.freeSlots| - n
  {
    if n == 0 then p else Take(TakeMany(p, n - 1))
  }

  /** A new arena hands its slots out from the last to the first. */
  lemma {:induction false} NewArenaGoesDown(base: nat, stride: nat, capacity: nat, n: nat)
    requires n <= capacity
    ensures TakeMany(InitialSlots(base, stride, capacity), n) ==
            InitialSlots(base, stride, capacity - n).(capacity := capacity)
    ensures n < capacity ==>
              Taken(TakeMany(InitialSlots(base, stride, capacity), n)) == base + (capacity - 1 - n) * stride
  {
    if n > 0 {
      NewArenaGoesDown(base, stride, capacity, n - 1);
    }
  }
}
