/** Staging memory for uploads: buffers ("chunks") handed out by bumping an offset, parked while a
    submission uses them and recycled when it has completed.

    The aliasing of `VulkanStagingAllocator` is kept: the current chunk is an element of `all`, while the
    in-flight and free lists hold copies, so recycling resets a copy and never the element. */
module StagingAllocator {
  import opened Common
  import opened Words

  const NULL_BUFFER: nat := 0

  datatype Chunk = Chunk(buffer: nat, size: nat, currentOffset: nat, lastSubmissionID: nat)
  {
    /** Offsets are 32-bit, and ~(alignment - 1) is TWO_32 - alignment. */
    function AlignedOffset(alignment: nat): nat
      requires 0 < alignment < TWO_32
    {
      And((currentOffset + alignment - 1) % TWO_32, TWO_32 - alignment)
    }

    predicate CanAllocate(requestedSize: nat, alignment: nat)
      requires 0 < alignment < TWO_32
    {
      (AlignedOffset(alignment) + requestedSize) % TWO_32 <= size
    }

    function Suballocation(requestedSize: nat, alignment: nat): Allocation
      requires 0 < alignment < TWO_32
    {
      Allocation(buffer, AlignedOffset(alignment), requestedSize)
    }

    function Bumped(requestedSize: nat, alignment: nat): Chunk
      requires 0 < alignment < TWO_32
    {
      this.(currentOffset := (AlignedOffset(alignment) + requestedSize) % TWO_32)
    }

    function Reset(): Chunk {
      this.(currentOffset := 0, lastSubmissionID := 0)
    }

    predicate NoWrap(requestedSize: nat, alignment: nat)
      requires 0 < alignment < TWO_32
    {
      && currentOffset + alignment - 1 < TWO_32
      && AlignUp(currentOffset, alignment) + requestedSize < TWO_32
    }
  }

  datatype Allocation = Allocation(buffer: nat, offset: nat, size: nat)

  /** `current` is the index in `all` the current-chunk pointer points to. */
  datatype State = State(chunkSize: nat, all: seq<Chunk>, current: Option<nat>,
                         inFlight: seq<Chunk>, free: seq<Chunk>)

  predicate Wellformed(s: State) {
    s.current.Some? ==> s.current.value < |s.all|
  }

  datatype Outcome = Outcome(state: State, result: Option<Allocation>)

  // ---------------------------------------------------------------- what each call does

  function Find(chunks: seq<Chunk>, buffer: nat): (r: Option<nat>)
    ensures r.Some? ==> r.value < |chunks| && chunks[r.value].buffer == buffer
    ensures r.Some? ==> forall i :: 0 <= i < r.value ==> chunks[i].buffer != buffer
    ensures r.None? ==> forall i :: 0 <= i < |chunks| ==> chunks[i].buffer != buffer
  {
    if chunks == [] then None
    else if chunks[0].buffer == buffer then Some(0)
    else
      var r := Find(chunks[1..], buffer);
      if r.None? then None else Some(r.value + 1)
  }

  function Max(a: nat, b: nat): nat {
    if a >= b then a else b
  }

  predicate TakesFreeChunk(s: State, requiredSize: nat) {
    s.free != [] && s.free[|s.free| - 1].size >= requiredSize
  }

  /** `created` is the new buffer, or None when it cannot be created or mapped. */
  function CreateChunk(s: State, requiredSize: nat, created: Option<nat>): State {
    if created.None? then s.(current := None)
    else
      var chunk := Chunk(created.value, Max(s.chunkSize, requiredSize), 0, 0);
      s.(all := s.all + [chunk], current := Some(|s.all|))
  }

  function AfterGetOrCreate(s: State, requiredSize: nat, created: Option<nat>): State {
    if TakesFreeChunk(s, requiredSize) then
      var popped := s.(free := s.free[..|s.free| - 1]);
      var at := Find(s.all, s.free[|s.free| - 1].buffer);
      if at.Some? then popped.(current := at) else CreateChunk(popped, requiredSize, created)
    else CreateChunk(s, requiredSize, created)
  }

  function AllocateFromCurrent(s: State, size: nat, alignment: nat): Outcome
    requires 0 < alignment < TWO_32 && s.current.Some? && s.current.value < |s.all|
  {
    var c := s.all[s.current.value];
    Outcome(s.(all := s.all[s.current.value := c.Bumped(size, alignment)]), Some(c.Suballocation(size, alignment)))
  }

  predicate CurrentHasRoom(s: State, size: nat, alignment: nat)
    requires 0 < alignment < TWO_32
  {
    s.current.Some? && s.current.value < |s.all| && s.all[s.current.value].CanAllocate(size, alignment)
  }

  /** The state in which the sub-allocation itself is made. */
  function Prepared(s: State, size: nat, alignment: nat, created: Option<nat>): (p: State)
    requires 0 < alignment < TWO_32 && Wellformed(s)
    ensures Wellformed(p)
  {
    if CurrentHasRoom(s, size, alignment) then s else AfterGetOrCreate(s, size, created)
  }

  function AfterAllocate(s: State, size: nat, alignment: nat, created: Option<nat>): Outcome
    requires 0 < alignment < TWO_32 && Wellformed(s)
  {
    var p := Prepared(s, size, alignment, created);
    if p.current.None? then Outcome(p, None) else AllocateFromCurrent(p, size, alignment)
  }

  function AfterSubmit(s: State, id: nat): State
    requires Wellformed(s)
  {
    if s.current.None? then s
    else
      var c := s.all[s.current.value].(lastSubmissionID := id);
      s.(all := s.all[s.current.value := c], inFlight := s.inFlight + [c], current := None)
  }

  /** How many chunks at the front of the in-flight list have completed. */
  function Completed(inFlight: seq<Chunk>, completedID: nat): (k: nat)
    ensures k <= |inFlight|
    ensures forall i :: 0 <= i < k ==> inFlight[i].lastSubmissionID <= completedID
    ensures k < |inFlight| ==> inFlight[k].lastSubmissionID > completedID
  {
    if inFlight == [] || inFlight[0].lastSubmissionID > completedID then 0
    else 1 + Completed(inFlight[1..], completedID)
  }

  function ResetAll(chunks: seq<Chunk>): (r: seq<Chunk>)
    ensures |r| == |chunks| && forall i :: 0 <= i < |r| ==> r[i] == chunks[i].Reset()
  {
    seq(|chunks|, i requires 0 <= i < |chunks| => chunks[i].Reset())
  }

  lemma ResetNext(chunks: seq<Chunk>, k: nat)
    requires k < |chunks|
    ensures ResetAll(chunks[..k + 1]) == ResetAll(chunks[..k]) + [chunks[k].Reset()]
    ensures chunks[k..][1..] == chunks[k + 1..]
  {
  }

  function AfterRetire(s: State, completedID: nat): State {
    var k := Completed(s.inFlight, completedID);
    s.(inFlight := s.inFlight[k..], free := s.free + ResetAll(s.inFlight[..k]))
  }

  // ---------------------------------------------------------------- the allocator

  class VulkanStagingAllocator {
    const chunkSize: nat
    var currentChunk: Option<nat>
    var inFlightChunks: seq<Chunk>
    var freeChunks: seq<Chunk>
    var allChunks: seq<Chunk>

    ghost function View(): State
      reads this
    {
      State(chunkSize, allChunks, currentChunk, inFlightChunks, freeChunks)
    }

    ghost predicate Valid()
      reads this
    {
      Wellformed(View())
    }

    constructor (chunkSize: nat)
      ensures Valid() && View() == State(chunkSize, [], None, [], [])
    {
      this.chunkSize := chunkSize;
      currentChunk, inFlightChunks, freeChunks, allChunks := None, [], [], [];
    }

    method Allocate(size: nat, alignment: nat, created: Option<nat>) returns (result: Option<Allocation>)
      requires Valid() && 0 < alignment < TWO_32
      modifies this
      ensures Valid()
      ensures Outcome(View(), result) == AfterAllocate(old(View()), size, alignment, created)
    {
      if currentChunk.Some? && allChunks[currentChunk.value].CanAllocate(size, alignment) {
        result := AllocateFrom(currentChunk.value, size, alignment);
        return;
      }
      GetOrCreateChunk(size, created);
      if currentChunk.None? {
        return None;
      }
      result := AllocateFrom(currentChunk.value, size, alignment);
    }

    method AllocateFrom(i: nat, size: nat, alignment: nat) returns (result: Option<Allocation>)
      requires Valid() && 0 < alignment < TWO_32 && currentChunk == Some(i)
      modifies this`allChunks
      ensures Valid()
      ensures Outcome(View(), result) == AllocateFromCurrent(old(View()), size, alignment)
    {
      var c := allChunks[i];
      var alignedOffset := c.AlignedOffset(alignment);
      result := Some(Allocation(c.buffer, alignedOffset, size));
      allChunks := allChunks[i := c.(currentOffset := (alignedOffset + size) % TWO_32)];
    }

    method GetOrCreateChunk(requiredSize: nat, created: Option<nat>)
      requires Valid()
      modifies this
      ensures Valid()
      ensures View() == AfterGetOrCreate(old(View()), requiredSize, created)
    {
      if freeChunks != [] {
        var chunk := freeChunks[|freeChunks| - 1];
        freeChunks := freeChunks[..|freeChunks| - 1];
        if chunk.size >= requiredSize {
          var i := 0;
          while i < |allChunks|
            invariant 0 <= i <= |allChunks|
            invariant forall j :: 0 <= j < i ==> allChunks[j].buffer != chunk.buffer
          {
            if allChunks[i].buffer == chunk.buffer {
              currentChunk := Some(i);
              return;
            }
            i := i + 1;
          }
        } else {
          freeChunks := freeChunks + [chunk];
        }
      }
      if created.None? {
        currentChunk := None;
        return;
      }
      var size := if chunkSize >= requiredSize then chunkSize else requiredSize;
      allChunks := allChunks + [Chunk(created.value, size, 0, 0)];
      currentChunk := Some(|allChunks| - 1);
    }

    method Submit(submissionID: nat)
      requires Valid()
      modifies this
      ensures Valid() && View() == AfterSubmit(old(View()), submissionID)
    {
      if currentChunk.None? {
        return;
      }
      var i := currentChunk.value;
      allChunks := allChunks[i := allChunks[i].(lastSubmissionID := submissionID)];
      inFlightChunks := inFlightChunks + [allChunks[i]];
      currentChunk := None;
    }

    method Retire(completedSubmissionID: nat)
      requires Valid()
      modifies this`inFlightChunks, this`freeChunks
      ensures Valid() && View() == AfterRetire(old(View()), completedSubmissionID)
    {
      ghost var k := 0;
      while inFlightChunks != []
        invariant k <= Completed(old(inFlightChunks), completedSubmissionID)
        invariant inFlightChunks == old(inFlightChunks)[k..]
        invariant freeChunks == old(freeChunks) + ResetAll(old(inFlightChunks)[..k])
        decreases |inFlightChunks|
      {
        var chunk := inFlightChunks[0];
        if chunk.lastSubmissionID > completedSubmissionID {
          break;
        }
        ResetNext(old(inFlightChunks), k);
        freeChunks := freeChunks + [chunk.Reset()];
        inFlightChunks := inFlightChunks[1..];
        k := k + 1;
      }
    }
  }

  // ---------------------------------------------------------------- runs

  datatype Op =
    | AllocateOp(size: nat, alignment: nat, created: Option<nat>)
    | SubmitOp(id: nat)
    | RetireOp(completedID: nat)

  /** Alignments are powers of two, and a buffer that is created has a handle of its own. */
  predicate Callable(s: State, op: Op) {
    op.AllocateOp? ==>
      && op.size < TWO_32 && op.alignment < TWO_32 && PowerOfTwo(op.alignment)
      && (op.created.Some? ==> op.created.value != NULL_BUFFER && Find(s.all, op.created.value).None?)
  }

  function Do(s: State, op: Op): (o: Outcome)
    requires Wellformed(s) && Callable(s, op)
    ensures Wellformed(o.state)
  {
    match op
    case AllocateOp(size, alignment, created) => AfterAllocate(s, size, alignment, created)
    case SubmitOp(id) => Outcome(AfterSubmit(s, id), None)
    case RetireOp(completedID) => Outcome(AfterRetire(s, completedID), None)
  }

  // ---------------------------------------------------------------- who owns a chunk

  function Buffers(chunks: seq<Chunk>): (r: seq<nat>)
    ensures |r| == |chunks| && forall i :: 0 <= i < |r| ==> r[i] == chunks[i].buffer
  {
    seq(|chunks|, i requires 0 <= i < |chunks| => chunks[i].buffer)
  }

  predicate Distinct(xs: seq<nat>) {
    forall i, j :: 0 <= i < j < |xs| ==> xs[i] != xs[j]
  }

  function CurrentBuffer(s: State): seq<nat>
    requires Wellformed(s)
  {
    if s.current.None? then [] else [s.all[s.current.value].buffer]
  }

  /** Every chunk that is current, in flight or free, in this order. */
  function Owned(s: State): seq<nat>
    requires Wellformed(s)
  {
    CurrentBuffer(s) + Buffers(s.inFlight) + Buffers(s.free)
  }

  /** The copies in `chunks` are copies of elements of `all`. */
  predicate CopiesOf(chunks: seq<Chunk>, all: seq<Chunk>) {
    forall i :: 0 <= i < |chunks| ==> HasTwin(chunks[i], all)
  }

  predicate HasTwin(c: Chunk, all: seq<Chunk>) {
    exists j :: 0 <= j < |all| && all[j].buffer == c.buffer && all[j].size == c.size
  }

  /** Each buffer is in at most one of current, in-flight and free. */
  ghost predicate Inv(s: State) {
    && Wellformed(s)
    && Distinct(Buffers(s.all)) && NULL_BUFFER !in Buffers(s.all)
    && CopiesOf(s.inFlight, s.all) && CopiesOf(s.free, s.all)
    && Distinct(Owned(s))
  }

  lemma TwinsSurvive(chunks: seq<Chunk>, all: seq<Chunk>, all': seq<Chunk>)
    requires CopiesOf(chunks, all) && |all| <= |all'|
    requires forall j :: 0 <= j < |all| ==> all'[j].buffer == all[j].buffer && all'[j].size == all[j].size
    ensures CopiesOf(chunks, all')
  {
    forall i | 0 <= i < |chunks| ensures HasTwin(chunks[i], all') {
      assert HasTwin(chunks[i], all);
      var j :| 0 <= j < |all| && all[j].buffer == chunks[i].buffer && all[j].size == chunks[i].size;
      assert all'[j].buffer == chunks[i].buffer;
    }
  }

  lemma AllocateFromCurrentKeepsInv(s: State, size: nat, alignment: nat)
    requires Inv(s) && 0 < alignment < TWO_32 && s.current.Some?
    ensures Inv(AllocateFromCurrent(s, size, alignment).state)
  {
    var s' := AllocateFromCurrent(s, size, alignment).state;
    assert Buffers(s'.all) == Buffers(s.all);
    TwinsSurvive(s.inFlight, s.all, s'.all);
    TwinsSurvive(s.free, s.all, s'.all);
    assert Owned(s') == Owned(s);
  }

  lemma CreateChunkKeepsInv(s: State, requiredSize: nat, created: Option<nat>)
    requires Inv(s) && (created.Some? ==> created.value != NULL_BUFFER && Find(s.all, created.value).None?)
    ensures Inv(CreateChunk(s, requiredSize, created))
  {
    var s' := CreateChunk(s, requiredSize, created);
    var rest := Buffers(s.inFlight) + Buffers(s.free);
    assert Owned(s) == CurrentBuffer(s) + rest;
    assert Distinct(rest) by {
      assert forall i :: 0 <= i < |rest| ==> rest[i] == Owned(s)[|CurrentBuffer(s)| + i];
    }
    assert Owned(s') == CurrentBuffer(s') + rest;
    if created.Some? {
      TwinsSurvive(s.inFlight, s.all, s'.all);
      TwinsSurvive(s.free, s.all, s'.all);
      forall i | 0 <= i < |rest| ensures rest[i] != created.value {
        if i < |s.inFlight| {
          assert HasTwin(s.inFlight[i], s.all);
        } else {
          assert HasTwin(s.free[i - |s.inFlight|], s.all);
        }
      }
    }
  }

  lemma TakeFreeKeepsInv(s: State, requiredSize: nat, created: Option<nat>)
    requires Inv(s) && TakesFreeChunk(s, requiredSize)
    ensures Inv(AfterGetOrCreate(s, requiredSize, created))
    ensures Find(s.all, s.free[|s.free| - 1].buffer).Some?
  {
    var n := |s.free| - 1;
    assert HasTwin(s.free[n], s.all);
    var s' := AfterGetOrCreate(s, requiredSize, created);
    var rest := Buffers(s.inFlight) + Buffers(s.free[..n]);
    assert Buffers(s.free) == Buffers(s.free[..n]) + [s.free[n].buffer];
    assert Owned(s) == CurrentBuffer(s) + rest + [s.free[n].buffer];
    assert Owned(s') == [s.free[n].buffer] + rest;
    DistinctMoved(CurrentBuffer(s), rest, s.free[n].buffer);
  }

  lemma DistinctMoved(head: seq<nat>, rest: seq<nat>, b: nat)
    requires Distinct(head + rest + [b])
    ensures Distinct([b] + rest)
  {
    var xs := head + rest + [b];
    assert forall i :: 0 <= i < |rest| ==> rest[i] == xs[|head| + i];
    assert xs[|xs| - 1] == b;
  }

  lemma SubmitKeepsInv(s: State, id: nat)
    requires Inv(s)
    ensures Inv(AfterSubmit(s, id))
  {
    if s.current.Some? {
      var s' := AfterSubmit(s, id);
      assert Buffers(s'.all) == Buffers(s.all);
      TwinsSurvive(s.inFlight, s.all, s'.all);
      TwinsSurvive(s.free, s.all, s'.all);
      assert s'.all[s.current.value].buffer == s'.inFlight[|s.inFlight|].buffer;
      var b := s.all[s.current.value].buffer;
      assert Owned(s) == [b] + Buffers(s.inFlight) + Buffers(s.free);
      assert Owned(s') == Buffers(s.inFlight) + [b] + Buffers(s.free);
      DistinctRotated([b], Buffers(s.inFlight), Buffers(s.free));
    }
  }

  lemma DistinctRotated(a: seq<nat>, b: seq<nat>, c: seq<nat>)
    requires Distinct(a + b + c)
    ensures Distinct(b + a + c)
  {
    var xs, ys := a + b + c, b + a + c;
    forall i, j | 0 <= i < j < |ys| ensures ys[i] != ys[j] {
      var i' := if i < |b| then i + |a| else if i < |a| + |b| then i - |b| else i;
      var j' := if j < |b| then j + |a| else if j < |a| + |b| then j - |b| else j;
      assert ys[i] == xs[i'] && ys[j] == xs[j'];
    }
  }

  lemma RetireKeepsInv(s: State, completedID: nat)
    requires Inv(s)
    ensures Inv(AfterRetire(s, completedID))
  {
    RetireKeepsOwners(s, completedID);
  }

  lemma RetireKeepsOwners(s: State, completedID: nat)
    requires Wellformed(s) && Distinct(Owned(s))
    ensures Distinct(Owned(AfterRetire(s, completedID)))
  {
    var k := Completed(s.inFlight, completedID);
    OwnersAfterRetire(s, completedID);
    RetiredDistinct(CurrentBuffer(s), Buffers(s.inFlight[..k]), Buffers(s.inFlight[k..]), Buffers(s.free));
  }

  lemma OwnersAfterRetire(s: State, completedID: nat)
    requires Wellformed(s)
    ensures var k := Completed(s.inFlight, completedID);
            var done, left := Buffers(s.inFlight[..k]), Buffers(s.inFlight[k..]);
            && Owned(s) == CurrentBuffer(s) + (done + left) + Buffers(s.free)
            && Owned(AfterRetire(s, completedID)) == CurrentBuffer(s) + left + (Buffers(s.free) + done)
  {
    var k := Completed(s.inFlight, completedID);
    assert Buffers(s.inFlight) == Buffers(s.inFlight[..k]) + Buffers(s.inFlight[k..]);
    assert Buffers(AfterRetire(s, completedID).free) == Buffers(s.free) + Buffers(s.inFlight[..k]);
  }

  lemma RetiredDistinct(current: seq<nat>, done: seq<nat>, left: seq<nat>, free: seq<nat>)
    requires Distinct(current + (done + left) + free)
    ensures Distinct(current + left + (free + done))
  {
    assert current + (done + left) + free == current + done + (left + free);
    DistinctShuffled(current, done, left + free);
    assert current + left + (free + done) == current + (left + free) + done;
  }

  lemma DistinctShuffled(a: seq<nat>, b: seq<nat>, c: seq<nat>)
    requires Distinct(a + b + c)
    ensures Distinct(a + c + b)
  {
    var xs, ys := a + b + c, a + c + b;
    forall i, j | 0 <= i < j < |ys| ensures ys[i] != ys[j] {
      var i' := if i < |a| then i else if i < |a| + |c| then i + |b| else i - |c|;
      var j' := if j < |a| then j else if j < |a| + |c| then j + |b| else j - |c|;
      assert ys[i] == xs[i'] && ys[j] == xs[j'];
    }
  }

  lemma PreparedKeepsInv(s: State, size: nat, alignment: nat, created: Option<nat>)
    requires Inv(s) && Callable(s, AllocateOp(size, alignment, created))
    ensures Inv(Prepared(s, size, alignment, created))
  {
    if !CurrentHasRoom(s, size, alignment) {
      if TakesFreeChunk(s, size) {
        TakeFreeKeepsInv(s, size, created);
      } else {
        CreateChunkKeepsInv(s, size, created);
      }
    }
  }

  lemma DoKeepsInv(s: State, op: Op)
    requires Inv(s) && Callable(s, op)
    ensures Inv(Do(s, op).state)
  {
    match op
    case AllocateOp(size, alignment, created) =>
      PreparedKeepsInv(s, size, alignment, created);
      var p := Prepared(s, size, alignment, created);
      if p.current.Some? {
        AllocateFromCurrentKeepsInv(p, size, alignment);
      }
    case SubmitOp(id) => SubmitKeepsInv(s, id);
    case RetireOp(completedID) => RetireKeepsInv(s, completedID);
  }

  datatype Trace = Trace(state: State, issued: seq<Allocation>)

  function Record(t: Trace, op: Op): Trace
    requires Wellformed(t.state) && Callable(t.state, op)
  {
    var o := Do(t.state, op);
    Trace(o.state, if o.result.Some? then t.issued + [o.result.value] else t.issued)
  }

  /** The chunk the sub-allocation is made from, as it stands just before. */
  function ChunkUsed(s: State, op: Op): Option<Chunk>
    requires Wellformed(s) && Callable(s, op)
  {
    if op.AllocateOp? then
      var p := Prepared(s, op.size, op.alignment, op.created);
      if p.current.Some? then Some(p.all[p.current.value]) else None
    else None
  }

  predicate NoWrapStep(s: State, op: Op)
    requires Wellformed(s) && Callable(s, op)
  {
    ChunkUsed(s, op).Some? ==> ChunkUsed(s, op).value.NoWrap(op.size, op.alignment)
  }

  predicate Run(s: State, ops: seq<Op>)
    requires Wellformed(s)
    decreases |ops|
  {
    ops == [] || (Callable(s, ops[0]) && Run(Do(s, ops[0]).state, ops[1..]))
  }

  predicate NoWrapRun(s: State, ops: seq<Op>)
    requires Wellformed(s) && Run(s, ops)
    decreases |ops|
  {
    ops == [] || (NoWrapStep(s, ops[0]) && NoWrapRun(Do(s, ops[0]).state, ops[1..]))
  }

  function End(t: Trace, ops: seq<Op>): (e: Trace)
    requires Wellformed(t.state) && Run(t.state, ops)
    ensures Wellformed(e.state)
    decreases |ops|
  {
    if ops == [] then t else End(Record(t, ops[0]), ops[1..])
  }

  // ---------------------------------------------------------------- ranges never overlap

  predicate Behind(a: Allocation, all: seq<Chunk>) {
    exists j :: 0 <= j < |all| && all[j].buffer == a.buffer && a.offset + a.size <= all[j].currentOffset
  }

  predicate Disjoint(a: Allocation, b: Allocation) {
    a.buffer != b.buffer || a.offset + a.size <= b.offset || b.offset + b.size <= a.offset
  }

  /** Everything issued lies behind the offset of its chunk, so the next range starts after it. */
  ghost predicate Packed(t: Trace) {
    && (forall i :: 0 <= i < |t.issued| ==> Behind(t.issued[i], t.state.all))
    && (forall i, j :: 0 <= i < j < |t.issued| ==> Disjoint(t.issued[i], t.issued[j]))
  }

  /** No element of `all` ever loses its offset: recycling resets copies only. */
  lemma OffsetsOnlyGrow(s: State, op: Op)
    requires Inv(s) && Callable(s, op) && NoWrapStep(s, op)
    ensures var all' := Do(s, op).state.all;
            |s.all| <= |all'| && forall j :: 0 <= j < |s.all| ==>
              all'[j].buffer == s.all[j].buffer && s.all[j].currentOffset <= all'[j].currentOffset
  {
    if ChunkUsed(s, op).Some? {
      NewRangeIsAligned(ChunkUsed(s, op).value, op.size, op.alignment);
    }
  }

  lemma BehindSurvives(a: Allocation, all: seq<Chunk>, all': seq<Chunk>)
    requires Behind(a, all) && |all| <= |all'|
    requires forall j :: 0 <= j < |all| ==>
               all'[j].buffer == all[j].buffer && all[j].currentOffset <= all'[j].currentOffset
    ensures Behind(a, all')
  {
    var j :| 0 <= j < |all| && all[j].buffer == a.buffer && a.offset + a.size <= all[j].currentOffset;
    assert all'[j].buffer == a.buffer;
  }

  lemma NewRangeIsAligned(c: Chunk, size: nat, alignment: nat)
    requires PowerOfTwo(alignment) && alignment < TWO_32 && c.NoWrap(size, alignment)
    ensures c.AlignedOffset(alignment) == AlignUp(c.currentOffset, alignment)
    ensures c.Bumped(size, alignment).currentOffset == AlignUp(c.currentOffset, alignment) + size
  {
    MaskIsAlignUpNoWrap(c.currentOffset, alignment);
    SmallMod(AlignUp(c.currentOffset, alignment) + size, TWO_32);
  }

  lemma NewRangeInside(c: Chunk, size: nat, alignment: nat)
    requires PowerOfTwo(alignment) && alignment < TWO_32 && c.NoWrap(size, alignment)
    ensures c.AlignedOffset(alignment) % alignment == 0
    ensures c.AlignedOffset(alignment) + size <= c.size <==> c.CanAllocate(size, alignment)
    ensures c.currentOffset == 0 && size <= c.size ==> c.CanAllocate(size, alignment)
  {
    NewRangeIsAligned(c, size, alignment);
    AlignUpIsMultiple(c.currentOffset, alignment);
  }

  lemma RecordKeepsPacked(t: Trace, op: Op)
    requires Inv(t.state) && Packed(t) && Callable(t.state, op) && NoWrapStep(t.state, op)
    ensures Packed(Record(t, op))
  {
    var t' := Record(t, op);
    OffsetsOnlyGrow(t.state, op);
    forall i | 0 <= i < |t.issued| ensures Behind(t.issued[i], t'.state.all) {
      BehindSurvives(t.issued[i], t.state.all, t'.state.all);
    }
    if |t'.issued| > |t.issued| {
      NewRangeIsBeyond(t, op);
    }
  }

  lemma NewRangeIsBeyond(t: Trace, op: Op)
    requires Inv(t.state) && Packed(t) && Callable(t.state, op) && NoWrapStep(t.state, op)
    requires Do(t.state, op).result.Some?
    ensures Behind(Do(t.state, op).result.value, Do(t.state, op).state.all)
    ensures forall i :: 0 <= i < |t.issued| ==> Disjoint(t.issued[i], Do(t.state, op).result.value)
  {
    var p := Prepared(t.state, op.size, op.alignment, op.created);
    PreparedKeepsInv(t.state, op.size, op.alignment, op.created);
    var k := p.current.value;
    NewRangeIsAligned(p.all[k], op.size, op.alignment);
    var a := Do(t.state, op).result.value;
    assert Do(t.state, op).state.all[k].buffer == a.buffer;
    forall i | 0 <= i < |t.issued| ensures Disjoint(t.issued[i], a) {
      BehindSurvives(t.issued[i], t.state.all, p.all);
      BehindIsBefore(t.issued[i], p, k);
    }
  }

  lemma BehindIsBefore(a: Allocation, s: State, k: nat)
    requires Inv(s) && k < |s.all| && Behind(a, s.all)
    ensures a.buffer == s.all[k].buffer ==> a.offset + a.size <= s.all[k].currentOffset
  {
    var j :| 0 <= j < |s.all| && s.all[j].buffer == a.buffer && a.offset + a.size <= s.all[j].currentOffset;
    if a.buffer == s.all[k].buffer {
      assert Buffers(s.all)[j] == Buffers(s.all)[k];
    }
  }

  lemma {:induction false} EndKeepsPacked(t: Trace, ops: seq<Op>)
    requires Inv(t.state) && Packed(t) && Run(t.state, ops) && NoWrapRun(t.state, ops)
    ensures Packed(End(t, ops)) && Inv(End(t, ops).state)
    decreases |ops|
  {
    if ops != [] {
      DoKeepsInv(t.state, ops[0]);
      RecordKeepsPacked(t, ops[0]);
      EndKeepsPacked(Record(t, ops[0]), ops[1..]);
    }
  }

  function Fresh(chunkSize: nat): State {
    State(chunkSize, [], None, [], [])
  }

  /** Absent 32-bit wrap-around, no two ranges ever handed out overlap, across submission,
      retirement and reuse, and no buffer is in two places at once. */
  lemma RangesNeverOverlap(chunkSize: nat, ops: seq<Op>)
    requires Run(Fresh(chunkSize), ops) && NoWrapRun(Fresh(chunkSize), ops)
    ensures var t := End(Trace(Fresh(chunkSize), []), ops);
            && (forall i, j :: 0 <= i < j < |t.issued| ==> Disjoint(t.issued[i], t.issued[j]))
            && Distinct(Owned(t.state))
  {
    EndKeepsPacked(Trace(Fresh(chunkSize), []), ops);
  }

  /** Each range is aligned, and lies inside its chunk exactly when `CanAllocate` held for the chunk
      just before; that is so whenever the chunk was current already or is a new one. */
  lemma WhenInBounds(s: State, op: Op)
    requires Inv(s) && op.AllocateOp? && Callable(s, op) && Do(s, op).result.Some? && NoWrapStep(s, op)
    ensures var c := ChunkUsed(s, op).value;
            var a := Do(s, op).result.value;
            && a.buffer == c.buffer && a.size == op.size && a.offset % op.alignment == 0
            && (a.offset + a.size <= c.size <==> c.CanAllocate(op.size, op.alignment))
            && (CurrentHasRoom(s, op.size, op.alignment) || !TakesFreeChunk(s, op.size) ==>
                  c.CanAllocate(op.size, op.alignment))
  {
    NewRangeInside(ChunkUsed(s, op).value, op.size, op.alignment);
  }

  /** Recycling resets a copy, so a recycled chunk goes on where it stopped... */
  lemma RecycledChunkGoesOn(s: State, op: Op)
    requires Inv(s) && op.AllocateOp? && Callable(s, op)
    requires !CurrentHasRoom(s, op.size, op.alignment) && TakesFreeChunk(s, op.size)
    ensures ChunkUsed(s, op).Some? && ChunkUsed(s, op).value in s.all
    ensures ChunkUsed(s, op).value.buffer == s.free[|s.free| - 1].buffer
  {
    TakeFreeKeepsInv(s, op.size, op.created);
  }

  /** The current chunk, if there is one, does not run into 32-bit wrap-around. */
  predicate CurrentNoWrap(s: State, op: Op)
    requires op.AllocateOp? && Callable(s, op)
  {
    s.current.Some? && s.current.value < |s.all| ==> s.all[s.current.value].NoWrap(op.size, op.alignment)
  }

  /** The aligned range fits behind what chunk `c` has handed out. */
  predicate Room(c: Chunk, op: Op)
    requires op.AllocateOp? && op.alignment > 0
  {
    AlignUp(c.currentOffset, op.alignment) + op.size <= c.size
  }

  lemma RoomIsCanAllocate(c: Chunk, op: Op)
    requires op.AllocateOp? && PowerOfTwo(op.alignment) && op.alignment < TWO_32 && c.NoWrap(op.size, op.alignment)
    ensures c.CanAllocate(op.size, op.alignment) <==> Room(c, op)
  {
    NewRangeIsAligned(c, op.size, op.alignment);
  }

  /** While the current chunk has room the range comes from it, and nothing else changes. */
  lemma AllocatesFromCurrent(s: State, op: Op)
    requires Inv(s) && op.AllocateOp? && Callable(s, op) && CurrentNoWrap(s, op)
    requires s.current.Some? && Room(s.all[s.current.value], op)
    ensures var k := s.current.value;
            var offset := AlignUp(s.all[k].currentOffset, op.alignment);
            Do(s, op) == Outcome(s.(all := s.all[k := s.all[k].(currentOffset := offset + op.size)]),
                                 Some(Allocation(s.all[k].buffer, offset, op.size)))
  {
    RoomIsCanAllocate(s.all[s.current.value], op);
    NewRangeIsAligned(s.all[s.current.value], op.size, op.alignment);
  }

  predicate NoRoom(s: State, op: Op)
    requires Wellformed(s) && op.AllocateOp? && Callable(s, op)
  {
    s.current.Some? ==> !Room(s.all[s.current.value], op)
  }

  /** Without room, the last free chunk is taken if it is large enough: its element of `all` goes on behind its offset,
      and no chunk is added. */
  lemma TakesLastFree(s: State, op: Op) returns (k: nat)
    requires Inv(s) && op.AllocateOp? && Callable(s, op) && CurrentNoWrap(s, op) && NoRoom(s, op) && NoWrapStep(s, op)
    requires s.free != [] && s.free[|s.free| - 1].size >= op.size
    ensures k < |s.all| && s.all[k].buffer == s.free[|s.free| - 1].buffer && s.all[k].size == s.free[|s.free| - 1].size
    ensures var offset := AlignUp(s.all[k].currentOffset, op.alignment);
            Do(s, op) == Outcome(s.(all := s.all[k := s.all[k].(currentOffset := offset + op.size)],
                                    current := Some(k), free := s.free[..|s.free| - 1]),
                                 Some(Allocation(s.all[k].buffer, offset, op.size)))
  {
    NoRoomMeans(s, op);
    TakeFreeKeepsInv(s, op.size, op.created);
    k := Find(s.all, s.free[|s.free| - 1].buffer).value;
    TwinSize(s, |s.free| - 1, k);
    NewRangeIsAligned(s.all[k], op.size, op.alignment);
  }

  lemma NoRoomMeans(s: State, op: Op)
    requires Inv(s) && op.AllocateOp? && Callable(s, op) && CurrentNoWrap(s, op) && NoRoom(s, op)
    ensures !CurrentHasRoom(s, op.size, op.alignment)
  {
    if s.current.Some? {
      RoomIsCanAllocate(s.all[s.current.value], op);
    }
  }

  /** A free copy and its element have the same size. */
  lemma TwinSize(s: State, i: nat, k: nat)
    requires Inv(s) && i < |s.free| && k < |s.all| && s.all[k].buffer == s.free[i].buffer
    ensures s.all[k].size == s.free[i].size
  {
    assert HasTwin(s.free[i], s.all);
    var j :| 0 <= j < |s.all| && s.all[j].buffer == s.free[i].buffer && s.all[j].size == s.free[i].size;
    assert Buffers(s.all)[j] == Buffers(s.all)[k];
  }

  /** Otherwise a chunk of exactly the larger of the chunk size and the request is made, the free list stays as it is,
      and the range is its first; when no buffer can be made there is no range and no current chunk. */
  lemma MakesChunk(s: State, op: Op)
    requires Inv(s) && op.AllocateOp? && Callable(s, op) && CurrentNoWrap(s, op) && NoRoom(s, op)
    requires s.free != [] ==> s.free[|s.free| - 1].size < op.size
    ensures op.created.None? ==> Do(s, op) == Outcome(s.(current := None), None)
    ensures op.created.Some? ==>
              var size := if op.size > s.chunkSize then op.size else s.chunkSize;
              Do(s, op) == Outcome(s.(all := s.all + [Chunk(op.created.value, size, op.size, 0)],
                                      current := Some(|s.all|)),
                                   Some(Allocation(op.created.value, 0, op.size)))
  {
    NoRoomMeans(s, op);
    if op.created.Some? {
      var c := Chunk(op.created.value, if op.size > s.chunkSize then op.size else s.chunkSize, 0, 0);
      assert AlignUp(0, op.alignment) == 0;
      EmptyChunk(c, op.size, op.alignment);
      assert Prepared(s, op.size, op.alignment, op.created) == s.(all := s.all + [c], current := Some(|s.all|));
    }
  }

  lemma EmptyChunk(c: Chunk, size: nat, alignment: nat)
    requires c.currentOffset == 0 && PowerOfTwo(alignment) && alignment < TWO_32 && size < TWO_32
    ensures c.AlignedOffset(alignment) == 0 && c.Bumped(size, alignment) == c.(currentOffset := size)
  {
    MaskIsAlignUpNoWrap(0, alignment);
    SmallMod(size, TWO_32);
  }

  /** A range is no larger than the chunk it is in. */
  predicate FitsChunk(a: Allocation, all: seq<Chunk>) {
    exists k :: 0 <= k < |all| && all[k].buffer == a.buffer && a.size <= all[k].size
  }

  lemma NewRangeFits(s: State, op: Op)
    requires Inv(s) && op.AllocateOp? && Callable(s, op) && CurrentNoWrap(s, op) && NoWrapStep(s, op)
    requires Do(s, op).result.Some?
    ensures FitsChunk(Do(s, op).result.value, Do(s, op).state.all)
  {
    var all := Do(s, op).state.all;
    if !NoRoom(s, op) {
      AllocatesFromCurrent(s, op);
      assert all[s.current.value].size >= op.size;
    } else if s.free != [] && s.free[|s.free| - 1].size >= op.size {
      var k := TakesLastFree(s, op);
      assert all[k].size >= op.size;
    } else {
      MakesChunk(s, op);
      assert all[|s.all|].size >= op.size;
    }
  }

  lemma PreparedElementStays(s: State, size: nat, alignment: nat, created: Option<nat>, k: nat)
    requires Wellformed(s) && 0 < alignment < TWO_32 && k < |s.all|
    ensures var all := Prepared(s, size, alignment, created).all; k < |all| && all[k] == s.all[k]
  {
  }

  /** No call changes the buffer or the size of a chunk. */
  lemma ElementStays(s: State, op: Op, k: nat)
    requires Wellformed(s) && Callable(s, op) && k < |s.all|
    ensures var all := Do(s, op).state.all;
            k < |all| && all[k].buffer == s.all[k].buffer && all[k].size == s.all[k].size
  {
    match op
    case AllocateOp(size, alignment, created) => PreparedElementStays(s, size, alignment, created, k);
    case SubmitOp(_) =>
    case RetireOp(_) =>
  }

  lemma SizesStay(s: State, op: Op, a: Allocation)
    requires Wellformed(s) && Callable(s, op) && FitsChunk(a, s.all)
    ensures FitsChunk(a, Do(s, op).state.all)
  {
    var k :| 0 <= k < |s.all| && s.all[k].buffer == a.buffer && a.size <= s.all[k].size;
    ElementStays(s, op, k);
  }

  ghost predicate CurrentNoWrapRun(s: State, ops: seq<Op>)
    requires Wellformed(s) && Run(s, ops)
    decreases |ops|
  {
    ops == [] || ((ops[0].AllocateOp? ==> CurrentNoWrap(s, ops[0])) && CurrentNoWrapRun(Do(s, ops[0]).state, ops[1..]))
  }

  ghost predicate AllFit(t: Trace) {
    forall i :: 0 <= i < |t.issued| ==> FitsChunk(t.issued[i], t.state.all)
  }

  /** Absent 32-bit wrap-around, every range ever handed out is at most as large as its chunk. */
  lemma {:induction false} RangesFitTheirChunks(t: Trace, ops: seq<Op>)
    requires Inv(t.state) && AllFit(t) && Run(t.state, ops) && NoWrapRun(t.state, ops) && CurrentNoWrapRun(t.state, ops)
    ensures AllFit(End(t, ops))
    decreases |ops|
  {
    if ops != [] {
      var t' := Record(t, ops[0]);
      DoKeepsInv(t.state, ops[0]);
      forall i | 0 <= i < |t'.issued| ensures FitsChunk(t'.issued[i], t'.state.all) {
        if i < |t.issued| {
          SizesStay(t.state, ops[0], t.issued[i]);
        } else {
          NewRangeFits(t.state, ops[0]);
        }
      }
      RangesFitTheirChunks(t', ops[1..]);
    }
  }

  lemma PowerOfTwo256()
    ensures PowerOfTwo(256)
  {
    assert PowerOfTwo(4) && PowerOfTwo(16) && PowerOfTwo(64);
  }

  lemma OnBoundary(c: Chunk)
    requires c.currentOffset == 0 || c.currentOffset == 256
    ensures c.AlignedOffset(256) == c.currentOffset
  {
    PowerOfTwo256();
    MaskIsAlignUpNoWrap(c.currentOffset, 256);
    AlignUp256(c.currentOffset);
  }

  /** ... and can be handed out with no room left: four calls with 256-byte chunks end outside the
      buffer. */
  lemma RecycledChunkCanOverrun()
    ensures var o1 := AfterAllocate(Fresh(256), 256, 256, Some(1));
            var s3 := AfterRetire(AfterSubmit(o1.state, 1), 1);
            var o4 := AfterAllocate(s3, 256, 256, None);
            && o1.result == Some(Allocation(1, 0, 256)) && o4.result == Some(Allocation(1, 256, 256))
            && o4.state.all[0].buffer == 1 && o4.state.all[0].size == 256
  {
    var c := Chunk(1, 256, 256, 0);
    var sent := c.(lastSubmissionID := 1);
    OnBoundary(Chunk(1, 256, 0, 0));
    OnBoundary(sent);
    assert AfterAllocate(Fresh(256), 256, 256, Some(1)).state == State(256, [c], Some(0), [], []);
    assert Completed([sent], 1) == 1;
    var s3 := AfterRetire(State(256, [sent], None, [sent], []), 1);
    assert s3 == State(256, [sent], None, [], [sent.Reset()]);
    assert Find(s3.all, 1) == Some(0);
    assert Prepared(s3, 256, 256, None) == State(256, [sent], Some(0), [], []);
  }

  // ---------------------------------------------------------------- the reuse gate

  predicate Parked(s: State, b: nat, id: nat) {
    exists i :: 0 <= i < |s.inFlight| && s.inFlight[i].buffer == b && s.inFlight[i].lastSubmissionID == id
  }

  predicate Releases(op: Op, id: nat) {
    op.RetireOp? && op.completedID >= id
  }

  /** A submitted chunk is parked under the id it was submitted with. */
  lemma SubmitParks(s: State, id: nat)
    requires Inv(s) && s.current.Some?
    ensures Parked(AfterSubmit(s, id), s.all[s.current.value].buffer, id)
  {
    var s' := AfterSubmit(s, id);
    assert s'.inFlight[|s.inFlight|].buffer == s.all[s.current.value].buffer;
  }

  lemma DoKeepsParked(s: State, op: Op, b: nat, id: nat)
    requires Inv(s) && Callable(s, op) && Parked(s, b, id) && !Releases(op, id)
    ensures Parked(Do(s, op).state, b, id)
    ensures Do(s, op).result.Some? ==> Do(s, op).result.value.buffer != b
  {
    match op
    case AllocateOp(_, _, _) => AllocateKeepsParked(s, op, b, id);
    case SubmitOp(_) =>
      var s' := Do(s, op).state;
      var i :| 0 <= i < |s.inFlight| && s.inFlight[i].buffer == b && s.inFlight[i].lastSubmissionID == id;
      assert s'.inFlight[i] == s.inFlight[i];
    case RetireOp(completedID) =>
      var s' := Do(s, op).state;
      var i :| 0 <= i < |s.inFlight| && s.inFlight[i].buffer == b && s.inFlight[i].lastSubmissionID == id;
      var k := Completed(s.inFlight, completedID);
      assert s'.inFlight[i - k] == s.inFlight[i];
  }

  lemma AllocateKeepsParked(s: State, op: Op, b: nat, id: nat)
    requires Inv(s) && op.AllocateOp? && Callable(s, op) && Parked(s, b, id)
    ensures Parked(Do(s, op).state, b, id)
    ensures Do(s, op).result.Some? ==> Do(s, op).result.value.buffer != b
  {
    PreparedKeepsInv(s, op.size, op.alignment, op.created);
    var p := Prepared(s, op.size, op.alignment, op.created);
    AllocateKeepsInFlight(s, op);
    var i :| 0 <= i < |s.inFlight| && s.inFlight[i].buffer == b && s.inFlight[i].lastSubmissionID == id;
    assert Do(s, op).state.inFlight[i] == s.inFlight[i];
    if p.current.Some? {
      CurrentNotInFlight(p, i);
    }
  }

  lemma AllocateKeepsInFlight(s: State, op: Op)
    requires Wellformed(s) && op.AllocateOp? && Callable(s, op)
    ensures Prepared(s, op.size, op.alignment, op.created).inFlight == s.inFlight
    ensures Do(s, op).state.inFlight == s.inFlight
  {
  }

  lemma CurrentNotInFlight(s: State, i: nat)
    requires Wellformed(s) && Distinct(Owned(s)) && s.current.Some? && i < |s.inFlight|
    ensures s.all[s.current.value].buffer != s.inFlight[i].buffer
  {
    assert Owned(s)[0] != Owned(s)[1 + i];
  }

  predicate NeverReleases(ops: seq<Op>, id: nat) {
    forall i :: 0 <= i < |ops| ==> !Releases(ops[i], id)
  }

  /** After `submit(id)`, no `allocate` returns memory of that chunk before some `retire(c)` with
      `c >= id`. */
  lemma {:induction false} ReuseGate(t: Trace, ops: seq<Op>, b: nat, id: nat)
    requires Inv(t.state) && Run(t.state, ops) && Parked(t.state, b, id) && NeverReleases(ops, id)
    ensures t.issued <= End(t, ops).issued
    ensures forall i :: |t.issued| <= i < |End(t, ops).issued| ==> End(t, ops).issued[i].buffer != b
    ensures Parked(End(t, ops).state, b, id)
    decreases |ops|
  {
    if ops != [] {
      DoKeepsInv(t.state, ops[0]);
      DoKeepsParked(t.state, ops[0], b, id);
      ReuseGate(Record(t, ops[0]), ops[1..], b, id);
    }
  }

  /** Submission ids in flight never decrease and do not exceed `last`. */
  predicate Sorted(inFlight: seq<Chunk>, last: nat) {
    && (forall i, j :: 0 <= i < j < |inFlight| ==> inFlight[i].lastSubmissionID <= inFlight[j].lastSubmissionID)
    && (forall i :: 0 <= i < |inFlight| ==> inFlight[i].lastSubmissionID <= last)
  }

  function LastId(op: Op, last: nat): nat {
    if op.SubmitOp? then op.id else last
  }

  predicate NonDecreasing(ops: seq<Op>, last: nat)
    decreases |ops|
  {
    ops == [] || (last <= LastId(ops[0], last) && NonDecreasing(ops[1..], LastId(ops[0], last)))
  }

  function FinalId(ops: seq<Op>, last: nat): nat
    decreases |ops|
  {
    if ops == [] then last else FinalId(ops[1..], LastId(ops[0], last))
  }

  lemma DoKeepsSorted(s: State, op: Op, last: nat)
    requires Wellformed(s) && Callable(s, op) && Sorted(s.inFlight, last) && last <= LastId(op, last)
    ensures Sorted(Do(s, op).state.inFlight, LastId(op, last))
  {
  }

  lemma {:induction false} EndKeepsSorted(t: Trace, ops: seq<Op>, last: nat)
    requires Wellformed(t.state) && Run(t.state, ops) && Sorted(t.state.inFlight, last) && NonDecreasing(ops, last)
    ensures Sorted(End(t, ops).state.inFlight, FinalId(ops, last))
    decreases |ops|
  {
    if ops != [] {
      DoKeepsSorted(t.state, ops[0], last);
      EndKeepsSorted(Record(t, ops[0]), ops[1..], LastId(ops[0], last));
    }
  }

  /** When ids are submitted in non-decreasing order, `retire(c)` frees exactly the in-flight chunks
      with an id up to `c`, in order, and keeps the others. */
  lemma RetireIsExact(chunkSize: nat, ops: seq<Op>, c: nat)
    requires Run(Fresh(chunkSize), ops) && NonDecreasing(ops, 0)
    ensures FreesExactly(End(Trace(Fresh(chunkSize), []), ops).state, c)
  {
    EndKeepsSorted(Trace(Fresh(chunkSize), []), ops, 0);
    SortedFreesExactly(End(Trace(Fresh(chunkSize), []), ops).state, c, FinalId(ops, 0));
  }

  ghost predicate FreesExactly(s: State, c: nat) {
    exists k :: 0 <= k <= |s.inFlight| && FreesFirst(s, c, k)
  }

  /** `retire(c)` moves the first `k` in-flight chunks, which are the ones with an id up to `c`. */
  ghost predicate FreesFirst(s: State, c: nat, k: nat)
    requires k <= |s.inFlight|
  {
    && (forall i :: 0 <= i < |s.inFlight| ==> (s.inFlight[i].lastSubmissionID <= c <==> i < k))
    && (var t := AfterRetire(s, c);
        && t == s.(inFlight := s.inFlight[k..], free := t.free) && |t.free| == |s.free| + k && s.free <= t.free
        && forall i :: 0 <= i < k ==>
             t.free[|s.free| + i] == s.inFlight[i].(currentOffset := 0, lastSubmissionID := 0))
  }

  lemma SortedFreesExactly(s: State, c: nat, last: nat)
    requires Sorted(s.inFlight, last)
    ensures FreesExactly(s, c)
  {
    assert FreesFirst(s, c, Completed(s.inFlight, c));
  }

  // ---------------------------------------------------------------- chunks that never come back

  /** In no list and not current, although the allocator still has it. */
  predicate Lost(s: State, b: nat)
    requires Wellformed(s)
  {
    b in Buffers(s.all) && b !in Owned(s)
  }

  lemma TakeFreeOwners(s: State, requiredSize: nat, created: Option<nat>)
    requires Inv(s) && TakesFreeChunk(s, requiredSize)
    ensures forall b :: b in Owned(AfterGetOrCreate(s, requiredSize, created)) ==>
              b in Buffers(s.inFlight) + Buffers(s.free)
  {
    TakeFreeKeepsInv(s, requiredSize, created);
    var n := |s.free| - 1;
    assert Buffers(s.free) == Buffers(s.free[..n]) + [s.free[n].buffer];
  }

  /** The chunk an allocation comes from was current, or free, or is new. */
  lemma PreparedOwners(s: State, op: Op)
    requires Inv(s) && op.AllocateOp? && Callable(s, op)
    ensures var p := Prepared(s, op.size, op.alignment, op.created);
            && (forall b :: b in Owned(p) ==> b in Owned(s) || op.created == Some(b))
            && (!CurrentHasRoom(s, op.size, op.alignment) ==>
                  forall b :: b in Owned(p) ==> b in Buffers(s.inFlight) + Buffers(s.free) || op.created == Some(b))
  {
    if !CurrentHasRoom(s, op.size, op.alignment) && TakesFreeChunk(s, op.size) {
      TakeFreeOwners(s, op.size, op.created);
    }
  }

  lemma AllocateOwners(s: State, op: Op)
    requires Inv(s) && op.AllocateOp? && Callable(s, op)
    ensures Owned(Do(s, op).state) == Owned(Prepared(s, op.size, op.alignment, op.created))
    ensures Buffers(s.all) <= Buffers(Do(s, op).state.all)
    ensures Do(s, op).result.Some? ==> Do(s, op).result.value.buffer in Owned(Do(s, op).state)
  {
    var p := Prepared(s, op.size, op.alignment, op.created);
    assert Buffers(Do(s, op).state.all) == Buffers(p.all);
    if p.current.Some? {
      assert Do(s, op).result.value.buffer == Owned(Do(s, op).state)[0];
    }
  }

  lemma DoKeepsLost(s: State, op: Op, b: nat)
    requires Inv(s) && Callable(s, op) && Lost(s, b)
    ensures Lost(Do(s, op).state, b)
    ensures Do(s, op).result.Some? ==> Do(s, op).result.value.buffer != b
  {
    match op
    case AllocateOp(_, _, _) =>
      AllocateOwners(s, op);
      PreparedOwners(s, op);
    case SubmitOp(id) =>
      assert Buffers(AfterSubmit(s, id).all) == Buffers(s.all);
      SubmitOwners(s, id);
    case RetireOp(completedID) => OwnersAfterRetire(s, completedID);
  }

  lemma SubmitOwners(s: State, id: nat)
    requires Wellformed(s)
    ensures forall b :: b in Owned(AfterSubmit(s, id)) ==> b in Owned(s)
  {
    if s.current.Some? {
      var s' := AfterSubmit(s, id);
      assert Buffers(s'.inFlight) == Buffers(s.inFlight) + CurrentBuffer(s);
    }
  }

  /** The step replaces the current chunk, whose buffer is `b`, for want of room and before any submission. */
  predicate Replaces(s: State, op: Op, b: nat)
    requires Wellformed(s) && Callable(s, op)
  {
    && op.AllocateOp? && s.current.Some? && !CurrentHasRoom(s, op.size, op.alignment)
    && b == s.all[s.current.value].buffer
  }

  lemma ReplacedChunkIsLost(s: State, op: Op)
    requires Inv(s) && op.AllocateOp? && Callable(s, op)
    requires s.current.Some? && !CurrentHasRoom(s, op.size, op.alignment)
    ensures Lost(Do(s, op).state, s.all[s.current.value].buffer)
  {
    var b := s.all[s.current.value].buffer;
    AllocateOwners(s, op);
    PreparedOwners(s, op);
    CurrentNotElsewhere(s);
    assert Buffers(s.all)[s.current.value] == b;
  }

  lemma CurrentNotElsewhere(s: State)
    requires Inv(s) && s.current.Some?
    ensures s.all[s.current.value].buffer !in Buffers(s.inFlight) + Buffers(s.free)
  {
    var rest := Buffers(s.inFlight) + Buffers(s.free);
    assert Owned(s) == CurrentBuffer(s) + rest;
    forall i | 0 <= i < |rest| ensures rest[i] != s.all[s.current.value].buffer {
      assert Owned(s)[1 + i] == rest[i] && Owned(s)[0] == s.all[s.current.value].buffer;
    }
  }

  /** Nothing but the current chunk can drop out of the allocator's hands ... */
  lemma PreparedKeepsOwners(s: State, op: Op)
    requires Inv(s) && op.AllocateOp? && Callable(s, op)
    ensures forall b :: b in Owned(s) && !Replaces(s, op, b) ==>
              b in Owned(Prepared(s, op.size, op.alignment, op.created))
  {
    if !CurrentHasRoom(s, op.size, op.alignment) && TakesFreeChunk(s, op.size) {
      TakeFreeKeepsInv(s, op.size, op.created);
      var n := |s.free| - 1;
      assert Buffers(s.free) == Buffers(s.free[..n]) + [s.free[n].buffer];
    }
  }

  /** ... and a chunk that was not there before is current. */
  lemma PreparedAddsCurrent(s: State, op: Op)
    requires Inv(s) && op.AllocateOp? && Callable(s, op)
    ensures var p := Prepared(s, op.size, op.alignment, op.created);
            forall b :: b in Buffers(p.all) && b !in Buffers(s.all) ==> b in Owned(p)
  {
    var p := Prepared(s, op.size, op.alignment, op.created);
    if p.all != s.all {
      assert Buffers(p.all) == Buffers(s.all) + [op.created.value];
      assert CurrentBuffer(p) == [op.created.value];
    }
  }

  lemma AllocateKeepsOwners(s: State, op: Op)
    requires Inv(s) && op.AllocateOp? && Callable(s, op)
    ensures forall b :: b in Owned(s) && !Replaces(s, op, b) ==> b in Owned(Do(s, op).state)
    ensures forall b :: b in Buffers(Do(s, op).state.all) && b !in Buffers(s.all) ==> b in Owned(Do(s, op).state)
  {
    AllocateOwners(s, op);
    PreparedKeepsOwners(s, op);
    PreparedAddsCurrent(s, op);
    assert Buffers(Do(s, op).state.all) == Buffers(Prepared(s, op.size, op.alignment, op.created).all);
  }

  lemma SubmitKeepsOwners(s: State, id: nat)
    requires Wellformed(s)
    ensures forall b :: b in Owned(s) ==> b in Owned(AfterSubmit(s, id))
    ensures Buffers(AfterSubmit(s, id).all) == Buffers(s.all)
  {
    if s.current.Some? {
      var s' := AfterSubmit(s, id);
      assert Buffers(s'.inFlight) == Buffers(s.inFlight) + CurrentBuffer(s);
    }
  }

  /** A step loses exactly the chunk it replaces. */
  lemma LostExactly(s: State, op: Op, b: nat)
    requires Inv(s) && Callable(s, op)
    ensures Lost(Do(s, op).state, b) <==> Lost(s, b) || Replaces(s, op, b)
  {
    if Lost(s, b) {
      DoKeepsLost(s, op, b);
    } else if Replaces(s, op, b) {
      ReplacedChunkIsLost(s, op);
    } else {
      match op
      case AllocateOp(_, _, _) => AllocateKeepsOwners(s, op);
      case SubmitOp(id) => SubmitKeepsOwners(s, id);
      case RetireOp(completedID) => OwnersAfterRetire(s, completedID);
    }
  }

  /** Some step of the run replaces the chunk of buffer `b`. */
  predicate ReplacedIn(s: State, ops: seq<Op>, b: nat)
    requires Wellformed(s) && Run(s, ops)
    decreases |ops|
  {
    ops != [] && (Replaces(s, ops[0], b) || ReplacedIn(Do(s, ops[0]).state, ops[1..], b))
  }

  lemma {:induction false} LostInRunExactly(t: Trace, ops: seq<Op>, b: nat)
    requires Inv(t.state) && Run(t.state, ops)
    ensures Lost(End(t, ops).state, b) <==> Lost(t.state, b) || ReplacedIn(t.state, ops, b)
    decreases |ops|
  {
    if ops != [] {
      DoKeepsInv(t.state, ops[0]);
      LostExactly(t.state, ops[0], b);
      LostInRunExactly(Record(t, ops[0]), ops[1..], b);
    }
  }

  /** Over any run of a new allocator, a chunk is lost exactly when some allocation replaced it while it was
      current and without room. */
  lemma LostMeansReplaced(chunkSize: nat, ops: seq<Op>, b: nat)
    requires Run(Fresh(chunkSize), ops)
    ensures Lost(End(Trace(Fresh(chunkSize), []), ops).state, b) <==> ReplacedIn(Fresh(chunkSize), ops, b)
  {
    LostInRunExactly(Trace(Fresh(chunkSize), []), ops, b);
  }

  /** Two allocations are enough: with 256-byte chunks the second replaces the chunk of the first. */
  lemma TwoAllocationsLoseAChunk()
    ensures var ops := [AllocateOp(256, 256, Some(1)), AllocateOp(256, 256, Some(2))];
            Run(Fresh(256), ops) && Lost(End(Trace(Fresh(256), []), ops).state, 1)
  {
    var first, second := AllocateOp(256, 256, Some(1)), AllocateOp(256, 256, Some(2));
    PowerOfTwo256();
    var s1 := Do(Fresh(256), first).state;
    FirstAllocation();
    assert Callable(s1, second) && Replaces(s1, second, 1);
    var ops := [first, second];
    assert ops[1..] == [second] && [second][1..] == [];
    assert Run(s1, [second]) && ReplacedIn(s1, [second], 1);
    LostMeansReplaced(256, ops, 1);
  }

  lemma FirstAllocation()
    ensures AfterAllocate(Fresh(256), 256, 256, Some(1)).state == State(256, [Chunk(1, 256, 256, 0)], Some(0), [], [])
    ensures !Chunk(1, 256, 256, 0).CanAllocate(256, 256)
  {
    OnBoundary(Chunk(1, 256, 0, 0));
    OnBoundary(Chunk(1, 256, 256, 0));
  }

  /** The memory of a lost chunk is never handed out again. */
  lemma {:induction false} LostForever(t: Trace, ops: seq<Op>, b: nat)
    requires Inv(t.state) && Run(t.state, ops) && Lost(t.state, b)
    ensures t.issued <= End(t, ops).issued
    ensures forall i :: |t.issued| <= i < |End(t, ops).issued| ==> End(t, ops).issued[i].buffer != b
    ensures Lost(End(t, ops).state, b)
    decreases |ops|
  {
    if ops != [] {
      DoKeepsInv(t.state, ops[0]);
      DoKeepsLost(t.state, ops[0], b);
      LostForever(Record(t, ops[0]), ops[1..], b);
    }
  }
}
