/** The load-time uploader: uploads are packed into one byte array, and a single flush copies the
    array to a staging buffer and replays it as buffer copies, which the GPU may run in any order. */
module LoadUploader {
  import opened Common
  import opened Words

  newtype Byte = x: int | 0 <= x < 256

  const ALIGNMENT: nat := 256

  /** Device buffers by handle. */
  type Memory = map<nat, seq<Byte>>

  /** What a caller asked for: `data` at `offset` of buffer `dst`. */
  datatype Write = Write(dst: nat, offset: nat, data: seq<Byte>)
  {
    predicate InBounds(mem: Memory) {
      dst in mem && offset + |data| <= |mem[dst]|
    }

    predicate Covers(b: nat, a: nat) {
      b == dst && offset <= a < offset + |data|
    }
  }

  datatype BufferUpload = BufferUpload(dst: nat, stagingOffset: nat, dstOffset: nat, size: nat)

  /** What has been packed so far. */
  datatype Pack = Pack(cpuData: seq<Byte>, uploads: seq<BufferUpload>, totalSize: nat)

  const EMPTY: Pack := Pack([], [], 0)

  // ---------------------------------------------------------------- writing bytes

  function Splice(s: seq<Byte>, offset: nat, data: seq<Byte>): (r: seq<Byte>)
    requires offset + |data| <= |s|
    ensures |r| == |s|
    ensures forall i :: 0 <= i < |s| ==>
              r[i] == if offset <= i < offset + |data| then data[i - offset] else s[i]
  {
    s[..offset] + data + s[offset + |data|..]
  }

  function Resize(s: seq<Byte>, n: nat): (r: seq<Byte>)
    ensures |r| == n
    ensures forall i :: 0 <= i < n ==> r[i] == if i < |s| then s[i] else 0
  {
    if n <= |s| then s[..n] else s + seq(n - |s|, _ => 0)
  }

  function DoWrite(mem: Memory, w: Write): Memory
    requires w.InBounds(mem)
  {
    mem[w.dst := Splice(mem[w.dst], w.offset, w.data)]
  }

  predicate AllInBounds(mem: Memory, ws: seq<Write>) {
    forall i :: 0 <= i < |ws| ==> ws[i].InBounds(mem)
  }

  /** The writes, one after the other. */
  function DoWrites(mem: Memory, ws: seq<Write>): (r: Memory)
    requires AllInBounds(mem, ws)
    ensures r.Keys == mem.Keys && forall b :: b in mem ==> |r[b]| == |mem[b]|
    decreases |ws|
  {
    if ws == [] then mem else DoWrites(DoWrite(mem, ws[0]), ws[1..])
  }

  // ---------------------------------------------------------------- packing

  /** Offsets are 32-bit, also where the array is longer. */
  function PushOffset(cpuData: seq<Byte>): nat {
    AlignUp(|cpuData|, ALIGNMENT) % TWO_32
  }

  /** The copy into the array stays inside it. */
  predicate Pushable(p: Pack, w: Write) {
    PushOffset(p.cpuData) + |w.data| < TWO_32
  }

  function Push(p: Pack, w: Write): Pack
    requires Pushable(p, w)
  {
    var offset := PushOffset(p.cpuData);
    Pack(Splice(Resize(p.cpuData, offset + |w.data|), offset, w.data),
         p.uploads + [BufferUpload(w.dst, offset, w.offset, |w.data|)],
         (p.totalSize + |w.data|) % TWO_32)
  }

  /** The copy recorded for one upload. */
  function Copy(staging: seq<Byte>, up: BufferUpload): Write
    requires up.stagingOffset + up.size <= |staging|
  {
    Write(up.dst, up.dstOffset, staging[up.stagingOffset..up.stagingOffset + up.size])
  }

  predicate InsideStaging(p: Pack) {
    forall i :: 0 <= i < |p.uploads| ==> p.uploads[i].stagingOffset + p.uploads[i].size <= |p.cpuData|
  }

  function Copies(p: Pack): (r: seq<Write>)
    requires InsideStaging(p)
    ensures |r| == |p.uploads|
    ensures forall i :: 0 <= i < |r| ==> r[i] == Copy(p.cpuData, p.uploads[i])
  {
    seq(|p.uploads|, i requires 0 <= i < |p.uploads| => Copy(p.cpuData, p.uploads[i]))
  }

  // ---------------------------------------------------------------- order of execution

  predicate IsOrder(order: seq<nat>, n: nat) {
    && |order| == n
    && (forall i :: 0 <= i < n ==> order[i] < n)
    && (forall i, j :: 0 <= i < j < n ==> order[i] != order[j])
  }

  function Reordered(ws: seq<Write>, order: seq<nat>): (r: seq<Write>)
    requires forall i :: 0 <= i < |order| ==> order[i] < |ws|
    ensures |r| == |order| && forall i :: 0 <= i < |r| ==> r[i] == ws[order[i]]
  {
    seq(|order|, i requires 0 <= i < |order| => ws[order[i]])
  }

  // ---------------------------------------------------------------- the uploader

  class Device {
    var mem: Memory

    constructor (mem: Memory)
      ensures this.mem == mem
    {
      this.mem := mem;
    }

    /** Runs recorded copies in the order the GPU happens to choose. */
    method Execute(copies: seq<Write>, order: seq<nat>)
      requires AllInBounds(mem, copies) && IsOrder(order, |copies|)
      modifies this
      ensures mem == DoWrites(old(mem), Reordered(copies, order))
    {
      ghost var all := Reordered(copies, order);
      for i := 0 to |order|
        invariant AllInBounds(mem, copies)
        invariant DoWrites(mem, all[i..]) == DoWrites(old(mem), all)
      {
        assert all[i..][0] == copies[order[i]] && all[i..][1..] == all[i + 1..];
        mem := DoWrite(mem, copies[order[i]]);
      }
    }
  }

  class VulkanLoadTimeStagingUploader {
    var cpuData: seq<Byte>
    var bufferUploads: seq<BufferUpload>
    var totalSize: nat

    ghost function View(): Pack
      reads this
    {
      Pack(cpuData, bufferUploads, totalSize)
    }

    constructor ()
      ensures View() == EMPTY
    {
      cpuData, bufferUploads, totalSize := [], [], 0;
    }

    method PushData(data: seq<Byte>) returns (offset: nat)
      requires PushOffset(cpuData) + |data| < TWO_32
      modifies this`cpuData
      ensures offset == PushOffset(old(cpuData))
      ensures cpuData == Splice(Resize(old(cpuData), offset + |data|), offset, data)
    {
      assert PowerOfTwo(4) && PowerOfTwo(16) && PowerOfTwo(64);
      MaskIsAlignUp(|cpuData|, 256);
      offset := And(|cpuData| + 255, TWO_32 - 256);
      cpuData := Resize(cpuData, offset + |data|);
      cpuData := cpuData[..offset] + data + cpuData[offset + |data|..];
    }

    method UploadBuffer(w: Write)
      requires w.dst != 0 && w.data != [] && Pushable(View(), w)
      modifies this
      ensures View() == Push(old(View()), w)
    {
      var offset := PushData(w.data);
      bufferUploads := bufferUploads + [BufferUpload(w.dst, offset, w.offset, |w.data|)];
      totalSize := (totalSize + |w.data|) % TWO_32;
    }

    /** Flushing an empty queue does nothing. `order` is the GPU's choice. */
    method Flush(device: Device, order: seq<nat>)
      requires InsideStaging(View()) && AllInBounds(device.mem, Copies(View()))
      requires IsOrder(order, |bufferUploads|)
      modifies this, device
      ensures View() == if old(bufferUploads) == [] then old(View()) else EMPTY
      ensures device.mem == DoWrites(old(device.mem), Reordered(old(Copies(View())), order))
    {
      if bufferUploads == [] {
        assert Reordered(Copies(View()), order) == [];
        return;
      }
      var staging := cpuData;
      var commands: seq<Write> := [];
      for i := 0 to |bufferUploads|
        invariant commands == Copies(View())[..i]
      {
        commands := commands + [Copy(staging, bufferUploads[i])];
      }
      assert commands == Copies(View());
      device.Execute(commands, order);
      cpuData := [];
      bufferUploads := [];
      totalSize := 0;
    }
  }

  // ---------------------------------------------------------------- what packing keeps

  function Total(ws: seq<Write>): nat {
    if ws == [] then 0 else Total(ws[..|ws| - 1]) + |ws[|ws| - 1].data|
  }

  /** Uploads that the asserts of `uploadBuffer` let through. */
  predicate Valid(ws: seq<Write>) {
    forall i :: 0 <= i < |ws| ==> ws[i].dst != 0 && ws[i].data != []
  }

  /** Packing all of `ws` never reaches 2^32 bytes. */
  predicate Fits(ws: seq<Write>)
    decreases |ws|, 0
  {
    ws == [] ||
    (Fits(ws[..|ws| - 1]) &&
     AlignUp(|Packed(ws[..|ws| - 1]).cpuData|, ALIGNMENT) + |ws[|ws| - 1].data| < TWO_32)
  }

  function Packed(ws: seq<Write>): Pack
    requires Fits(ws)
    decreases |ws|, 1
  {
    if ws == [] then EMPTY
    else
      var n := |ws| - 1;
      PushPlace(Packed(ws[..n]), ws[n]);
      Push(Packed(ws[..n]), ws[n])
  }

  ghost predicate Found(p: Pack, ws: seq<Write>) {
    && |p.uploads| == |ws| && InsideStaging(p)
    && (forall i :: 0 <= i < |ws| ==> Copy(p.cpuData, p.uploads[i]) == ws[i])
  }

  ghost predicate Placed(p: Pack) {
    && InsideStaging(p)
    && (forall i :: 0 <= i < |p.uploads| ==> p.uploads[i].stagingOffset % 256 == 0)
    && (forall i, j :: 0 <= i < j < |p.uploads| ==>
          p.uploads[i].stagingOffset + p.uploads[i].size <= p.uploads[j].stagingOffset)
  }

  ghost predicate Sized(p: Pack, ws: seq<Write>) {
    && p.totalSize == Total(ws) % TWO_32
    && (if ws == [] then p.cpuData == [] else Total(ws) <= |p.cpuData| <= Total(ws) + 255 * (|ws| - 1))
  }

  /** Every upload is found unchanged at its own aligned offset, behind the one before. */
  ghost predicate Holds(p: Pack, ws: seq<Write>) {
    Found(p, ws) && Placed(p) && Sized(p, ws)
  }

  /** Where the next upload goes, and how long the array gets. */
  lemma PushPlace(p: Pack, w: Write)
    requires AlignUp(|p.cpuData|, ALIGNMENT) + |w.data| < TWO_32
    ensures Pushable(p, w) && PushOffset(p.cpuData) % 256 == 0
    ensures |p.cpuData| <= PushOffset(p.cpuData) <= |p.cpuData| + 255
    ensures p.cpuData == [] ==> PushOffset(p.cpuData) == 0
    ensures |Push(p, w).cpuData| == PushOffset(p.cpuData) + |w.data|
  {
    SmallMod(AlignUp(|p.cpuData|, ALIGNMENT), TWO_32);
    AlignUpIsMultiple(|p.cpuData|, ALIGNMENT);
  }

  lemma PushFound(p: Pack, ws: seq<Write>)
    requires ws != [] && Found(p, ws[..|ws| - 1]) && Pushable(p, ws[|ws| - 1])
    requires PushOffset(p.cpuData) >= |p.cpuData|
    ensures Found(Push(p, ws[|ws| - 1]), ws)
  {
    var n := |ws| - 1;
    var p' := Push(p, ws[n]);
    forall i | 0 <= i < n ensures Copy(p'.cpuData, p'.uploads[i]) == ws[i] {
      assert Copy(p'.cpuData, p'.uploads[i]).data == Copy(p.cpuData, p.uploads[i]).data;
      assert ws[..n][i] == ws[i];
    }
    assert Copy(p'.cpuData, p'.uploads[n]).data == ws[n].data;
  }

  lemma PushPlaced(p: Pack, ws: seq<Write>)
    requires ws != [] && Placed(p) && Pushable(p, ws[|ws| - 1])
    requires PushOffset(p.cpuData) >= |p.cpuData| && PushOffset(p.cpuData) % 256 == 0
    ensures Placed(Push(p, ws[|ws| - 1]))
  {
  }

  lemma PushCountsBytes(t: nat, total: nat, n: nat)
    requires t == total % TWO_32
    ensures (t + n) % TWO_32 == (total + n) % TWO_32
  {
  }

  lemma PushSized(p: Pack, ws: seq<Write>)
    requires ws != [] && Sized(p, ws[..|ws| - 1])
    requires AlignUp(|p.cpuData|, ALIGNMENT) + |ws[|ws| - 1].data| < TWO_32
    ensures Pushable(p, ws[|ws| - 1]) && Sized(Push(p, ws[|ws| - 1]), ws)
  {
    var n := |ws| - 1;
    PushPlace(p, ws[n]);
    PushCountsBytes(p.totalSize, Total(ws[..n]), |ws[n].data|);
  }

  lemma PackedNext(ws: seq<Write>)
    requires ws != [] && Fits(ws)
    ensures var n := |ws| - 1;
            && Fits(ws[..n]) && AlignUp(|Packed(ws[..n]).cpuData|, ALIGNMENT) + |ws[n].data| < TWO_32
            && Pushable(Packed(ws[..n]), ws[n]) && Packed(ws) == Push(Packed(ws[..n]), ws[n])
            && |Packed(ws[..n]).cpuData| <= PushOffset(Packed(ws[..n]).cpuData)
            && PushOffset(Packed(ws[..n]).cpuData) % 256 == 0
  {
    PushPlace(Packed(ws[..|ws| - 1]), ws[|ws| - 1]);
  }

  lemma {:induction false} PackedFound(ws: seq<Write>)
    requires Fits(ws)
    ensures Found(Packed(ws), ws)
    decreases |ws|
  {
    if ws != [] {
      PackedNext(ws);
      PackedFound(ws[..|ws| - 1]);
      PushFound(Packed(ws[..|ws| - 1]), ws);
    }
  }

  lemma {:induction false} PackedPlaced(ws: seq<Write>)
    requires Fits(ws)
    ensures Placed(Packed(ws))
    decreases |ws|
  {
    if ws != [] {
      PackedNext(ws);
      PackedPlaced(ws[..|ws| - 1]);
      PushPlaced(Packed(ws[..|ws| - 1]), ws);
    }
  }

  lemma {:induction false} PackedSized(ws: seq<Write>)
    requires Fits(ws)
    ensures Sized(Packed(ws), ws)
    decreases |ws|
  {
    if ws != [] {
      PackedNext(ws);
      PackedSized(ws[..|ws| - 1]);
      PushSized(Packed(ws[..|ws| - 1]), ws);
    }
  }

  lemma PackedHolds(ws: seq<Write>)
    requires Fits(ws)
    ensures Holds(Packed(ws), ws)
  {
    PackedFound(ws);
    PackedPlaced(ws);
    PackedSized(ws);
  }

  /** A check a caller can make beforehand: the bytes, and the most padding can add to them. */
  lemma {:induction false} FitsWhenSmall(ws: seq<Write>)
    requires Total(ws) + 255 * |ws| < TWO_32
    ensures Fits(ws)
    decreases |ws|
  {
    if ws != [] {
      var n := |ws| - 1;
      FitsWhenSmall(ws[..n]);
      PackedHolds(ws[..n]);
    }
  }

  // ---------------------------------------------------------------- when order does not matter

  predicate Apart(v: Write, w: Write) {
    v.dst != w.dst || v.offset + |v.data| <= w.offset || w.offset + |w.data| <= v.offset
  }

  predicate PairwiseApart(ws: seq<Write>) {
    forall i, j :: 0 <= i < j < |ws| ==> Apart(ws[i], ws[j])
  }

  /** Two writes agree on every byte both cover. */
  ghost predicate Agree(v: Write, w: Write) {
    forall b: nat, a: nat :: v.Covers(b, a) && w.Covers(b, a) ==> v.data[a - v.offset] == w.data[a - w.offset]
  }

  ghost predicate PairwiseAgree(ws: seq<Write>) {
    forall i, j :: 0 <= i < j < |ws| ==> Agree(ws[i], ws[j])
  }

  lemma AgreeAt(ws: seq<Write>, i: nat, j: nat, b: nat, a: nat)
    requires PairwiseAgree(ws) && i < |ws| && j < |ws| && ws[i].Covers(b, a) && ws[j].Covers(b, a)
    ensures ws[i].data[a - ws[i].offset] == ws[j].data[a - ws[j].offset]
  {
    if i < j {
      assert Agree(ws[i], ws[j]);
    } else if j < i {
      assert Agree(ws[j], ws[i]);
    }
  }

  lemma {:induction false} UncoveredByteStays(mem: Memory, ws: seq<Write>, b: nat, a: nat)
    requires AllInBounds(mem, ws) && b in mem && a < |mem[b]|
    requires forall i :: 0 <= i < |ws| ==> !ws[i].Covers(b, a)
    ensures DoWrites(mem, ws)[b][a] == mem[b][a]
    decreases |ws|
  {
    if ws != [] {
      assert !ws[0].Covers(b, a);
      UncoveredByteStays(DoWrite(mem, ws[0]), ws[1..], b, a);
    }
  }

  /** The last write that covers a byte decides it. */
  lemma {:induction false} LastCoverWins(mem: Memory, ws: seq<Write>, b: nat, a: nat) returns (i: nat)
    requires AllInBounds(mem, ws) && b in mem && a < |mem[b]|
    requires exists k :: 0 <= k < |ws| && ws[k].Covers(b, a)
    ensures i < |ws| && ws[i].Covers(b, a) && (forall k :: i < k < |ws| ==> !ws[k].Covers(b, a))
    ensures DoWrites(mem, ws)[b][a] == ws[i].data[a - ws[i].offset]
    decreases |ws|
  {
    var rest, first := ws[1..], DoWrite(mem, ws[0]);
    if k :| 0 <= k < |rest| && rest[k].Covers(b, a) {
      var j := LastCoverWins(first, rest, b, a);
      i := j + 1;
      forall k | i < k < |ws| ensures !ws[k].Covers(b, a) {
        assert !rest[k - 1].Covers(b, a);
      }
    } else {
      i := 0;
      forall k | 0 < k < |ws| ensures !ws[k].Covers(b, a) {
        assert !rest[k - 1].Covers(b, a);
      }
      UncoveredByteStays(first, rest, b, a);
    }
  }

  lemma CoveredByteIsWritten(mem: Memory, ws: seq<Write>, b: nat, a: nat, i: nat)
    requires AllInBounds(mem, ws) && PairwiseAgree(ws) && b in mem && a < |mem[b]|
    requires i < |ws| && ws[i].Covers(b, a)
    ensures DoWrites(mem, ws)[b][a] == ws[i].data[a - ws[i].offset]
  {
    var last := LastCoverWins(mem, ws, b, a);
    AgreeAt(ws, i, last, b, a);
  }

  /** An order visits every index. */
  lemma OrderReaches(order: seq<nat>, n: nat, i: nat) returns (p: nat)
    requires IsOrder(order, n) && i < n
    ensures p < n && order[p] == i
  {
    if i !in order {
      ImageSize(order);
      SubsetSize(Image(order), Range(n) - {i});
    }
    p :| 0 <= p < n && order[p] == i;
  }

  /** What memory holds after the copies ran in this order. */
  function Outcome(mem: Memory, ws: seq<Write>, order: seq<nat>): (r: Memory)
    requires AllInBounds(mem, ws) && IsOrder(order, |ws|)
    ensures r.Keys == mem.Keys && forall b :: b in mem ==> |r[b]| == |mem[b]|
  {
    DoWrites(mem, Reordered(ws, order))
  }

  lemma OutcomeUncovered(mem: Memory, ws: seq<Write>, order: seq<nat>, b: nat, a: nat)
    requires AllInBounds(mem, ws) && IsOrder(order, |ws|) && b in mem && a < |mem[b]|
    requires forall i :: 0 <= i < |ws| ==> !ws[i].Covers(b, a)
    ensures Outcome(mem, ws, order)[b][a] == mem[b][a]
  {
    UncoveredByteStays(mem, Reordered(ws, order), b, a);
  }

  lemma OutcomeCovered(mem: Memory, ws: seq<Write>, order: seq<nat>, b: nat, a: nat, i: nat)
    requires AllInBounds(mem, ws) && PairwiseAgree(ws) && IsOrder(order, |ws|) && b in mem && a < |mem[b]|
    requires i < |ws| && ws[i].Covers(b, a)
    ensures Outcome(mem, ws, order)[b][a] == ws[i].data[a - ws[i].offset]
  {
    var p := OrderReaches(order, |ws|, i);
    CoveredByteIsWritten(mem, Reordered(ws, order), b, a, p);
  }

  lemma OutcomeByte(mem: Memory, ws: seq<Write>, order: seq<nat>, b: nat, a: nat)
    requires AllInBounds(mem, ws) && PairwiseAgree(ws) && IsOrder(order, |ws|) && b in mem && a < |mem[b]|
    ensures Outcome(mem, ws, order)[b][a] == DoWrites(mem, ws)[b][a]
  {
    if i :| 0 <= i < |ws| && ws[i].Covers(b, a) {
      OutcomeCovered(mem, ws, order, b, a, i);
      CoveredByteIsWritten(mem, ws, b, a, i);
    } else {
      OutcomeUncovered(mem, ws, order, b, a);
      UncoveredByteStays(mem, ws, b, a);
    }
  }

  /** Writes that agree wherever they overlap have the same effect in every order. */
  lemma OrderDoesNotMatter(mem: Memory, ws: seq<Write>, order: seq<nat>)
    requires AllInBounds(mem, ws) && PairwiseAgree(ws) && IsOrder(order, |ws|)
    ensures Outcome(mem, ws, order) == DoWrites(mem, ws)
  {
    var x, y := Outcome(mem, ws, order), DoWrites(mem, ws);
    forall b | b in mem ensures x[b] == y[b] {
      forall a | 0 <= a < |mem[b]| ensures x[b][a] == y[b][a] {
        OutcomeByte(mem, ws, order, b, a);
      }
    }
  }

  // ---------------------------------------------------------------- and when it does

  /** 0, 1, ..., n-1 without `i` and `j`. */
  function Others(n: nat, i: nat, j: nat): (r: seq<nat>)
    requires i != j
    ensures forall k :: 0 <= k < |r| ==> r[k] < n && r[k] != i && r[k] != j
    ensures forall k, l :: 0 <= k < l < |r| ==> r[k] < r[l]
    ensures |r| == n - (if i < n then 1 else 0) - (if j < n then 1 else 0)
  {
    if n == 0 then [] else Others(n - 1, i, j) + if n - 1 == i || n - 1 == j then [] else [n - 1]
  }

  /** The order that keeps `i` and then `j` for the end. */
  function EndingWith(n: nat, i: nat, j: nat): (order: seq<nat>)
    requires i != j && i < n && j < n
    ensures IsOrder(order, n) && order[n - 1] == j
  {
    Others(n, i, j) + [i, j]
  }

  lemma LastWriteWins(mem: Memory, ws: seq<Write>, i: nat, j: nat, b: nat, a: nat)
    requires AllInBounds(mem, ws) && i != j && i < |ws| && j < |ws| && ws[j].Covers(b, a)
    ensures b in mem && a < |mem[b]|
    ensures Outcome(mem, ws, EndingWith(|ws|, i, j))[b][a] == ws[j].data[a - ws[j].offset]
  {
    var xs := Reordered(ws, EndingWith(|ws|, i, j));
    assert ws[j].InBounds(mem) && xs[|ws| - 1] == ws[j];
    var last := LastCoverWins(mem, xs, b, a);
    assert last == |ws| - 1;
  }

  /** The recorded copies leave the same memory in every order if and only if any two of them agree wherever they
      overlap; disjoint destinations are the plain case. */
  lemma OrderMattersExactly(mem: Memory, ws: seq<Write>)
    requires AllInBounds(mem, ws)
    ensures (forall order :: IsOrder(order, |ws|) ==> Outcome(mem, ws, order) == DoWrites(mem, ws)) <==> PairwiseAgree(ws)
  {
    if PairwiseAgree(ws) {
      forall order | IsOrder(order, |ws|) ensures Outcome(mem, ws, order) == DoWrites(mem, ws) {
        OrderDoesNotMatter(mem, ws, order);
      }
    } else {
      var i, j :| 0 <= i < j < |ws| && !Agree(ws[i], ws[j]);
      var b: nat, a: nat :| ws[i].Covers(b, a) && ws[j].Covers(b, a)
        && ws[i].data[a - ws[i].offset] != ws[j].data[a - ws[j].offset];
      LastWriteWins(mem, ws, i, j, b, a);
      LastWriteWins(mem, ws, j, i, b, a);
      assert Outcome(mem, ws, EndingWith(|ws|, i, j)) != Outcome(mem, ws, EndingWith(|ws|, j, i));
    }
  }

  /** A flush of everything packed leaves device memory as if each upload had been written directly, in whatever
      order the recorded copies run. */
  lemma FlushEqualsDirectWrites(mem: Memory, ws: seq<Write>, order: seq<nat>)
    requires Fits(ws) && Valid(ws) && AllInBounds(mem, ws) && PairwiseAgree(ws) && IsOrder(order, |ws|)
    ensures var p := Packed(ws);
            && InsideStaging(p) && Copies(p) == ws
            && Outcome(mem, Copies(p), order) == DoWrites(mem, ws)
            && (ws != [] ==> Total(ws) <= |p.cpuData| <= Total(ws) + 255 * (|ws| - 1))
  {
    PackedHolds(ws);
    assert Copies(Packed(ws)) == ws;
    OrderDoesNotMatter(mem, ws, order);
  }

  /** In particular for pairwise disjoint destinations. */
  lemma DisjointFlush(mem: Memory, ws: seq<Write>, order: seq<nat>)
    requires Fits(ws) && Valid(ws) && AllInBounds(mem, ws) && PairwiseApart(ws) && IsOrder(order, |ws|)
    ensures InsideStaging(Packed(ws)) && Copies(Packed(ws)) == ws
    ensures Outcome(mem, Copies(Packed(ws)), order) == DoWrites(mem, ws)
  {
    FlushEqualsDirectWrites(mem, ws, order);
  }
}
