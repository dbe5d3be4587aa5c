/** Descriptor writes on the descriptor-set path: `VKWriteSets` gathers the writes of many sets into
    flat arrays and makes one update call. It must leave every set as the one-write-at-a-time
    routine would. Pools are the maps of what their `get` finds. */
module DescriptorWrites {
  import opened Common

  const WHOLE_SIZE: nat := 0xFFFF_FFFF_FFFF_FFFF
  const NULL: nat := 0

  datatype ResourceType =
    | CONSTANT_BUFFER | STORAGE_BUFFER | RW_STORAGE_BUFFER | TEXTURE_SRV | TEXTURE_UAV
    | SAMPLER | COMBINED_TEXTURE_SAMPLER | ACCELERATION_STRUCTURE

  datatype VkType =
    | VkUniformBuffer | VkStorageBuffer | VkSampledImage | VkStorageImage
    | VkSampler | VkCombinedImageSampler | VkAccelerationStructure

  datatype ImageLayout = Undefined | ShaderReadOnly | General

  function ToVulkan(kind: ResourceType): VkType {
    match kind
    case CONSTANT_BUFFER => VkUniformBuffer
    case STORAGE_BUFFER => VkStorageBuffer
    case RW_STORAGE_BUFFER => VkStorageBuffer
    case TEXTURE_SRV => VkSampledImage
    case TEXTURE_UAV => VkStorageImage
    case SAMPLER => VkSampler
    case COMBINED_TEXTURE_SAMPLER => VkCombinedImageSampler
    case ACCELERATION_STRUCTURE => VkAccelerationStructure
  }

  datatype BufferView = BufferView(buffer: nat, offset: nat, range: nat)

  datatype DescriptorSet = DescriptorSet(vkSet: nat, usesDescriptorSets: bool)

  datatype World = World(bufferViews: map<nat, BufferView>, buffers: map<nat, nat>, textureViews: map<nat, nat>,
                         samplers: map<nat, nat>, sets: map<nat, DescriptorSet>)

  datatype Write = Write(slot: nat, kind: ResourceType, handle: nat)

  // ---------------------------------------------------------------- what the device stores

  datatype BufferInfo = BufferInfo(buffer: nat, offset: nat, range: nat)

  datatype ImageInfo = ImageInfo(sampler: nat, view: nat, layout: ImageLayout)

  datatype Content = OfBuffer(buffer: BufferInfo) | OfImage(image: ImageInfo)

  datatype Descriptor = Descriptor(kind: VkType, content: Content)

  /** Contents of binding `1` of Vulkan set `0`. */
  type Memory = map<(nat, nat), Descriptor>

  /** A write refers to its info by position in the array it was put in. */
  datatype Reference = ToBuffer(index: nat) | ToImage(index: nat)

  datatype VkWrite = VkWrite(dstSet: nat, dstBinding: nat, kind: VkType, info: Reference)

  datatype Flat = Flat(writes: seq<VkWrite>, buffers: seq<BufferInfo>, images: seq<ImageInfo>)

  predicate InRange(f: Flat, r: Reference) {
    match r
    case ToBuffer(i) => i < |f.buffers|
    case ToImage(i) => i < |f.images|
  }

  predicate PointsInside(f: Flat) {
    forall i :: 0 <= i < |f.writes| ==> InRange(f, f.writes[i].info)
  }

  function Deref(f: Flat, r: Reference): Content
    requires InRange(f, r)
  {
    match r
    case ToBuffer(i) => OfBuffer(f.buffers[i])
    case ToImage(i) => OfImage(f.images[i])
  }

  /** Updates take effect in array order (section 14.2 of the Vulkan 1.3 specification). */
  function Updated(m: Memory, f: Flat): Memory
    requires PointsInside(f)
    decreases |f.writes|
  {
    if f.writes == [] then m
    else
      var n := |f.writes| - 1;
      var w := f.writes[n];
      Updated(m, f.(writes := f.writes[..n]))[(w.dstSet, w.dstBinding) := Descriptor(w.kind, Deref(f, w.info))]
  }

  class Device {
    var memory: Memory

    method UpdateDescriptorSets(f: Flat)
      requires PointsInside(f)
      modifies this
      ensures memory == Updated(old(memory), f)
    {
      for i := 0 to |f.writes|
        invariant memory == Updated(old(memory), f.(writes := f.writes[..i]))
      {
        assert f.writes[..i + 1][..i] == f.writes[..i];
        var w := f.writes[i];
        memory := memory[(w.dstSet, w.dstBinding) := Descriptor(w.kind, Deref(f, w.info))];
      }
      assert f.writes[..|f.writes|] == f.writes;
    }
  }

  // ---------------------------------------------------------------- one write at a time

  /** The descriptor a handle denotes; none if the handle is dead or the kind is not supported. */
  function Denoted(world: World, kind: ResourceType, handle: nat): Option<Descriptor> {
    match kind
    case CONSTANT_BUFFER => DenotedBuffer(world, kind, handle)
    case STORAGE_BUFFER => DenotedBuffer(world, kind, handle)
    case RW_STORAGE_BUFFER => DenotedBuffer(world, kind, handle)
    case TEXTURE_SRV => DenotedImage(world, kind, handle, ShaderReadOnly)
    case TEXTURE_UAV => DenotedImage(world, kind, handle, General)
    case COMBINED_TEXTURE_SAMPLER => DenotedImage(world, kind, handle, ShaderReadOnly)
    case SAMPLER =>
      if handle in world.samplers
      then Some(Descriptor(ToVulkan(kind), OfImage(ImageInfo(world.samplers[handle], NULL, Undefined))))
      else None
    case ACCELERATION_STRUCTURE => None
  }

  function DenotedBuffer(world: World, kind: ResourceType, handle: nat): Option<Descriptor> {
    if handle in world.bufferViews && world.bufferViews[handle].buffer in world.buffers then
      var view := world.bufferViews[handle];
      var range := if view.range == 0 then WHOLE_SIZE else view.range;
      Some(Descriptor(ToVulkan(kind), OfBuffer(BufferInfo(world.buffers[view.buffer], view.offset, range))))
    else None
  }

  function DenotedImage(world: World, kind: ResourceType, handle: nat, layout: ImageLayout): Option<Descriptor> {
    if handle in world.textureViews
    then Some(Descriptor(ToVulkan(kind), OfImage(ImageInfo(NULL, world.textureViews[handle], layout))))
    else None
  }

  // ---------------------------------------------------------------- what a binding must hold

  /** The handle of the write is alive, with all that it refers to. */
  predicate Live(world: World, w: Write) {
    match w.kind
    case CONSTANT_BUFFER | STORAGE_BUFFER | RW_STORAGE_BUFFER =>
      w.handle in world.bufferViews && world.bufferViews[w.handle].buffer in world.buffers
    case TEXTURE_SRV | TEXTURE_UAV | COMBINED_TEXTURE_SAMPLER => w.handle in world.textureViews
    case SAMPLER => w.handle in world.samplers
    case ACCELERATION_STRUCTURE => false
  }

  /** Byte `a` of a buffer of `size` bytes is one the view shows: from its offset on, `range` bytes or all there are. */
  predicate Shows(view: BufferView, size: nat, a: nat) {
    view.offset <= a && (if view.range == 0 then a < size else a < view.offset + view.range)
  }

  /** What a shader sees through a buffer descriptor (section 14.2.4 of the Vulkan 1.3 specification). */
  predicate Sees(info: BufferInfo, size: nat, a: nat) {
    info.offset <= a && (if info.range == WHOLE_SIZE then a < size else a < info.offset + info.range)
  }

  /** The descriptor shows the buffer behind the view, and exactly the bytes of the view, whatever the buffer's size. */
  ghost predicate ShowsView(world: World, handle: nat, content: Content)
    requires handle in world.bufferViews && world.bufferViews[handle].buffer in world.buffers
  {
    && content.OfBuffer? && content.buffer.buffer == world.buffers[world.bufferViews[handle].buffer]
    && forall size: nat, a: nat :: Sees(content.buffer, size, a) <==> Shows(world.bufferViews[handle], size, a)
  }

  /** Sampled images are in the layout for reading in shaders, storage images in the general one. */
  predicate ShowsTexture(world: World, handle: nat, content: Content, layout: ImageLayout)
    requires handle in world.textureViews
  {
    content.OfImage? && content.image.view == world.textureViews[handle] && content.image.layout == layout
  }

  /** Descriptor `d` is what a write asks for. */
  ghost predicate AsAsked(world: World, w: Write, d: Descriptor)
    requires Live(world, w)
  {
    match w.kind
    case CONSTANT_BUFFER => d.kind == VkUniformBuffer && ShowsView(world, w.handle, d.content)
    case STORAGE_BUFFER => d.kind == VkStorageBuffer && ShowsView(world, w.handle, d.content)
    case RW_STORAGE_BUFFER => d.kind == VkStorageBuffer && ShowsView(world, w.handle, d.content)
    case TEXTURE_SRV => d.kind == VkSampledImage && ShowsTexture(world, w.handle, d.content, ShaderReadOnly)
    case TEXTURE_UAV => d.kind == VkStorageImage && ShowsTexture(world, w.handle, d.content, General)
    case COMBINED_TEXTURE_SAMPLER =>
      d.kind == VkCombinedImageSampler && ShowsTexture(world, w.handle, d.content, ShaderReadOnly)
    case SAMPLER => d.kind == VkSampler && d.content.OfImage? && d.content.image.sampler == world.samplers[w.handle]
  }

  /** Ranges of views are 32-bit. */
  predicate Ranges32(world: World) {
    forall h :: h in world.bufferViews ==> world.bufferViews[h].range < TWO_32
  }

  lemma DenotedIsAsAsked(world: World, w: Write)
    requires Ranges32(world)
    ensures Denoted(world, w.kind, w.handle).Some? <==> Live(world, w)
    ensures Live(world, w) ==> AsAsked(world, w, Denoted(world, w.kind, w.handle).value)
  {
  }

  /** The routine every batch must agree with; it asserts that the handle is live. */
  method WriteDescriptorSingle(world: World, device: Device, dstSet: nat, dstBinding: nat, kind: ResourceType,
                               handle: nat)
    requires Ranges32(world) && Live(world, Write(dstBinding, kind, handle))
    modifies device
    ensures Denoted(world, kind, handle).Some?
    ensures AsAsked(world, Write(dstBinding, kind, handle), Denoted(world, kind, handle).value)
    ensures device.memory == old(device.memory)[(dstSet, dstBinding) := Denoted(world, kind, handle).value]
  {
    DenotedIsAsAsked(world, Write(dstBinding, kind, handle));
    var buffers: seq<BufferInfo> := [];
    var images: seq<ImageInfo> := [];
    var info: Reference;
    match kind {
      case CONSTANT_BUFFER | STORAGE_BUFFER | RW_STORAGE_BUFFER =>
        var view := world.bufferViews[handle];
        buffers := [BufferInfo(world.buffers[view.buffer], view.offset,
                               if view.range == 0 then WHOLE_SIZE else view.range)];
        info := ToBuffer(0);
      case TEXTURE_SRV =>
        images := [ImageInfo(NULL, world.textureViews[handle], ShaderReadOnly)];
        info := ToImage(0);
      case TEXTURE_UAV =>
        images := [ImageInfo(NULL, world.textureViews[handle], General)];
        info := ToImage(0);
      case SAMPLER =>
        images := [ImageInfo(world.samplers[handle], NULL, Undefined)];
        info := ToImage(0);
      case COMBINED_TEXTURE_SAMPLER =>
        images := [ImageInfo(NULL, world.textureViews[handle], ShaderReadOnly)];
        info := ToImage(0);
    }
    var f := Flat([VkWrite(dstSet, dstBinding, ToVulkan(kind), info)], buffers, images);
    assert Updated(device.memory, f.(writes := f.writes[..0])) == device.memory;
    device.UpdateDescriptorSets(f);
  }

  datatype Job = Job(vkSet: nat, write: Write)

  /** Each write with a live handle, written on its own, in order. */
  function Singles(m: Memory, world: World, jobs: seq<Job>): Memory {
    if jobs == [] then m
    else
      var n := |jobs| - 1;
      var w := jobs[n].write;
      var before := Singles(m, world, jobs[..n]);
      match Denoted(world, w.kind, w.handle)
      case None => before
      case Some(d) => before[(jobs[n].vkSet, w.slot) := d]
  }

  // ---------------------------------------------------------------- the batch

  predicate Batched(kind: ResourceType) {
    kind in {CONSTANT_BUFFER, STORAGE_BUFFER, RW_STORAGE_BUFFER, TEXTURE_SRV, TEXTURE_UAV}
  }

  function WithBuffer(f: Flat, job: Job, info: BufferInfo): Flat {
    Flat(f.writes + [VkWrite(job.vkSet, job.write.slot, ToVulkan(job.write.kind), ToBuffer(|f.buffers|))],
         f.buffers + [info], f.images)
  }

  function WithImage(f: Flat, job: Job, info: ImageInfo): Flat {
    Flat(f.writes + [VkWrite(job.vkSet, job.write.slot, ToVulkan(job.write.kind), ToImage(|f.images|))],
         f.buffers, f.images + [info])
  }

  /** The arrays after one more write was considered. */
  function After(f: Flat, world: World, job: Job): Flat {
    if !Batched(job.write.kind) then f
    else match Denoted(world, job.write.kind, job.write.handle)
      case None => f
      case Some(d) =>
        match d.content
        case OfBuffer(info) => WithBuffer(f, job, info)
        case OfImage(info) => WithImage(f, job, info)
  }

  /** Every write owns the newest entry of the array it refers to: no entry is shared, overwritten or
      left over. */
  predicate Owned(f: Flat)
    decreases |f.writes|
  {
    if f.writes == [] then f.buffers == [] && f.images == []
    else
      var n := |f.writes| - 1;
      match f.writes[n].info
      case ToBuffer(i) =>
        i + 1 == |f.buffers| && Owned(Flat(f.writes[..n], f.buffers[..i], f.images))
      case ToImage(i) =>
        i + 1 == |f.images| && Owned(Flat(f.writes[..n], f.buffers, f.images[..i]))
  }

  lemma {:induction false} OwnedCounts(f: Flat)
    requires Owned(f)
    ensures |f.buffers| + |f.images| == |f.writes| && PointsInside(f)
    decreases |f.writes|
  {
    if f.writes != [] {
      var n := |f.writes| - 1;
      match f.writes[n].info
      case ToBuffer(i) => OwnedCounts(Flat(f.writes[..n], f.buffers[..i], f.images));
      case ToImage(i) => OwnedCounts(Flat(f.writes[..n], f.buffers, f.images[..i]));
    }
  }

  /** Two writes never refer to the same entry. */
  lemma {:induction false} NeverAliased(f: Flat, i: nat, j: nat)
    requires Owned(f) && i < j < |f.writes|
    ensures f.writes[i].info != f.writes[j].info
    decreases |f.writes|
  {
    var n := |f.writes| - 1;
    var before := match f.writes[n].info
      case ToBuffer(k) => Flat(f.writes[..n], f.buffers[..k], f.images)
      case ToImage(k) => Flat(f.writes[..n], f.buffers, f.images[..k]);
    if j < n {
      NeverAliased(before, i, j);
    } else {
      OwnedCounts(before);
      assert InRange(before, before.writes[i].info);
    }
  }

  lemma AfterOwned(f: Flat, world: World, job: Job)
    requires Owned(f)
    ensures Owned(After(f, world, job))
  {
    var g := After(f, world, job);
    if g != f {
      assert g.writes[..|f.writes|] == f.writes;
      assert g.buffers[..|f.buffers|] == f.buffers;
      assert g.images[..|f.images|] == f.images;
    }
  }

  /** New entries change nothing for the writes already gathered. */
  lemma {:induction false} UpdatedStable(m: Memory, f: Flat, g: Flat)
    requires PointsInside(f) && f.writes == g.writes && f.buffers <= g.buffers && f.images <= g.images
    ensures PointsInside(g) && Updated(m, f) == Updated(m, g)
    decreases |f.writes|
  {
    if f.writes != [] {
      var n := |f.writes| - 1;
      UpdatedStable(m, f.(writes := f.writes[..n]), g.(writes := g.writes[..n]));
      assert InRange(f, f.writes[n].info);
    }
  }

  lemma AppendMeans(m: Memory, f: Flat, g: Flat, w: VkWrite)
    requires PointsInside(f) && InRange(g, w.info)
    requires g.writes == f.writes + [w] && f.buffers <= g.buffers && f.images <= g.images
    ensures PointsInside(g)
    ensures Updated(m, g) == Updated(m, f)[(w.dstSet, w.dstBinding) := Descriptor(w.kind, Deref(g, w.info))]
  {
    var n := |f.writes|;
    assert g.writes[..n] == f.writes && g.writes[n] == w;
    UpdatedStable(m, f, g.(writes := f.writes));
    forall i | 0 <= i < |g.writes| ensures InRange(g, g.writes[i].info) {
      if i < n {
        assert InRange(g.(writes := f.writes), f.writes[i].info);
      }
    }
  }

  lemma AfterMeans(m: Memory, f: Flat, world: World, job: Job)
    requires PointsInside(f)
    ensures PointsInside(After(f, world, job))
    ensures var d := Denoted(world, job.write.kind, job.write.handle);
            Updated(m, After(f, world, job)) ==
              if Batched(job.write.kind) && d.Some? then Updated(m, f)[(job.vkSet, job.write.slot) := d.value]
              else Updated(m, f)
  {
    var g := After(f, world, job);
    if g != f {
      AppendMeans(m, f, g, g.writes[|f.writes|]);
    }
  }

  function Gathered(world: World, jobs: seq<Job>): Flat {
    if jobs == [] then Flat([], [], [])
    else After(Gathered(world, jobs[..|jobs| - 1]), world, jobs[|jobs| - 1])
  }

  /** The writes of the types the batch knows. */
  function Kept(jobs: seq<Job>): seq<Job> {
    if jobs == [] then []
    else Kept(jobs[..|jobs| - 1]) + if Batched(jobs[|jobs| - 1].write.kind) then [jobs[|jobs| - 1]] else []
  }

  /** One update call with the gathered arrays means the same as the single writes. */
  lemma {:induction false} BatchMeansSingles(m: Memory, world: World, jobs: seq<Job>)
    ensures Owned(Gathered(world, jobs))
    ensures (OwnedCounts(Gathered(world, jobs));
             Updated(m, Gathered(world, jobs)) == Singles(m, world, Kept(jobs)))
  {
    if jobs != [] {
      var n := |jobs| - 1;
      BatchMeansSingles(m, world, jobs[..n]);
      AfterOwned(Gathered(world, jobs[..n]), world, jobs[n]);
      OwnedCounts(Gathered(world, jobs[..n]));
      AfterMeans(m, Gathered(world, jobs[..n]), world, jobs[n]);
      assert Kept(jobs[..n]) + [] == Kept(jobs[..n]);
    }
  }

  lemma {:induction false} KeptAll(jobs: seq<Job>)
    requires forall i :: 0 <= i < |jobs| ==> Batched(jobs[i].write.kind)
    ensures Kept(jobs) == jobs
  {
    if jobs != [] {
      KeptAll(jobs[..|jobs| - 1]);
    }
  }

  // ---------------------------------------------------------------- the batch's arrays

  class Batch {
    const vkWrites: array<VkWrite>
    const bufInfos: array<BufferInfo>
    const imgInfos: array<ImageInfo>
    var writeIdx: nat
    var bufIdx: nat
    var imgIdx: nat

    ghost predicate Valid()
      reads this, vkWrites, bufInfos, imgInfos
    {
      && vkWrites.Length == bufInfos.Length == imgInfos.Length
      && bufIdx + imgIdx == writeIdx <= vkWrites.Length
    }

    ghost function View(): Flat
      requires Valid()
      reads this, vkWrites, bufInfos, imgInfos
    {
      Flat(vkWrites[..writeIdx], bufInfos[..bufIdx], imgInfos[..imgIdx])
    }

    constructor (total: nat)
      ensures Valid() && View() == Flat([], [], [])
      ensures vkWrites.Length == total && fresh(vkWrites) && fresh(bufInfos) && fresh(imgInfos)
    {
      vkWrites := new VkWrite[total](_ => VkWrite(NULL, 0, VkUniformBuffer, ToBuffer(0)));
      bufInfos := new BufferInfo[total](_ => BufferInfo(NULL, 0, 0));
      imgInfos := new ImageInfo[total](_ => ImageInfo(NULL, NULL, Undefined));
      writeIdx, bufIdx, imgIdx := 0, 0, 0;
    }

    /** Put the info in the next free place and let the pending header refer to it. */
    method AddBuffer(job: Job, info: BufferInfo)
      requires Valid() && writeIdx < vkWrites.Length
      requires vkWrites[writeIdx].(info := ToBuffer(0)) ==
                 VkWrite(job.vkSet, job.write.slot, ToVulkan(job.write.kind), ToBuffer(0))
      modifies this, vkWrites, bufInfos
      ensures Valid() && writeIdx == old(writeIdx) + 1
      ensures View() == WithBuffer(old(View()), job, info)
    {
      bufInfos[bufIdx] := info;
      vkWrites[writeIdx] := vkWrites[writeIdx].(info := ToBuffer(bufIdx));
      bufIdx := bufIdx + 1;
      writeIdx := writeIdx + 1;
    }

    method AddImage(job: Job, info: ImageInfo)
      requires Valid() && writeIdx < vkWrites.Length
      requires vkWrites[writeIdx].(info := ToBuffer(0)) ==
                 VkWrite(job.vkSet, job.write.slot, ToVulkan(job.write.kind), ToBuffer(0))
      modifies this, vkWrites, imgInfos
      ensures Valid() && writeIdx == old(writeIdx) + 1
      ensures View() == WithImage(old(View()), job, info)
    {
      imgInfos[imgIdx] := info;
      vkWrites[writeIdx] := vkWrites[writeIdx].(info := ToImage(imgIdx));
      imgIdx := imgIdx + 1;
      writeIdx := writeIdx + 1;
    }

    /** One round of the inner loop: a write that is skipped leaves its header behind, to be
        overwritten by the next. */
    method Consider(world: World, vkSet: nat, dw: Write)
      requires Valid() && writeIdx < vkWrites.Length
      modifies this, vkWrites, bufInfos, imgInfos
      ensures Valid() && writeIdx <= old(writeIdx) + 1
      ensures View() == After(old(View()), world, Job(vkSet, dw))
    {
      vkWrites[writeIdx] := VkWrite(vkSet, dw.slot, ToVulkan(dw.kind), ToBuffer(0));
      assert View() == old(View());
      match dw.kind {
        case CONSTANT_BUFFER | STORAGE_BUFFER | RW_STORAGE_BUFFER =>
          if dw.handle in world.bufferViews && world.bufferViews[dw.handle].buffer in world.buffers {
            var bv := world.bufferViews[dw.handle];
            AddBuffer(Job(vkSet, dw), BufferInfo(world.buffers[bv.buffer], bv.offset,
                                                 if bv.range != 0 then bv.range else WHOLE_SIZE));
          }
        case TEXTURE_SRV =>
          if dw.handle in world.textureViews {
            AddImage(Job(vkSet, dw), ImageInfo(NULL, world.textureViews[dw.handle], ShaderReadOnly));
          }
        case TEXTURE_UAV =>
          if dw.handle in world.textureViews {
            AddImage(Job(vkSet, dw), ImageInfo(NULL, world.textureViews[dw.handle], General));
          }
        case _ =>
      }
    }
  }

  // ---------------------------------------------------------------- the call

  function JobsOf(world: World, set_: nat, writes: seq<Write>): seq<Job> {
    if set_ in world.sets && world.sets[set_].usesDescriptorSets
    then seq(|writes|, i requires 0 <= i < |writes| => Job(world.sets[set_].vkSet, writes[i]))
    else []
  }

  function Jobs(world: World, sets: seq<nat>, writes: seq<seq<Write>>): seq<Job>
    requires |sets| == |writes|
  {
    if sets == [] then []
    else
      var n := |sets| - 1;
      Jobs(world, sets[..n], writes[..n]) + JobsOf(world, sets[n], writes[n])
  }

  function TotalWrites(writes: seq<seq<Write>>): nat {
    if writes == [] then 0 else TotalWrites(writes[..|writes| - 1]) + |writes[|writes| - 1]|
  }

  method CountWrites(writes: seq<seq<Write>>) returns (total: nat)
    ensures total == TotalWrites(writes)
  {
    total := 0;
    for i := 0 to |writes|
      invariant total == TotalWrites(writes[..i])
    {
      assert writes[..i + 1][..i] == writes[..i];
      total := total + |writes[i]|;
    }
    assert writes[..|writes|] == writes;
  }

  /** The inner loop over the writes of one set. */
  method ConsiderSet(batch: Batch, world: World, set_: nat, writes: seq<Write>, ghost done: seq<Job>)
    requires batch.Valid() && batch.View() == Gathered(world, done)
    requires batch.writeIdx + |writes| <= batch.vkWrites.Length
    modifies batch, batch.vkWrites, batch.bufInfos, batch.imgInfos
    ensures batch.Valid() && batch.View() == Gathered(world, done + JobsOf(world, set_, writes))
    ensures batch.writeIdx <= old(batch.writeIdx) + |writes|
  {
    ghost var jobs := JobsOf(world, set_, writes);
    assert done + [] == done;
    if set_ in world.sets && world.sets[set_].usesDescriptorSets {
      for w := 0 to |writes|
        invariant batch.Valid() && batch.writeIdx <= old(batch.writeIdx) + w
        invariant batch.View() == Gathered(world, done + jobs[..w])
      {
        assert done + jobs[..w + 1] == done + jobs[..w] + [jobs[w]];
        batch.Consider(world, world.sets[set_].vkSet, writes[w]);
      }
      assert jobs[..|writes|] == jobs;
    }
  }

  lemma JobsNext(world: World, sets: seq<nat>, writes: seq<seq<Write>>, s: nat)
    requires |sets| == |writes| && s < |sets|
    ensures Jobs(world, sets[..s + 1], writes[..s + 1]) ==
            Jobs(world, sets[..s], writes[..s]) + JobsOf(world, sets[s], writes[s])
    ensures TotalWrites(writes[..s + 1]) == TotalWrites(writes[..s]) + |writes[s]|
  {
    assert sets[..s + 1][..s] == sets[..s];
    assert writes[..s + 1][..s] == writes[..s];
  }

  lemma {:induction false} TotalGrows(writes: seq<seq<Write>>, s: nat)
    requires s <= |writes|
    ensures TotalWrites(writes[..s]) <= TotalWrites(writes)
  {
    if s < |writes| {
      assert writes[..|writes| - 1][..s] == writes[..s];
      TotalGrows(writes[..|writes| - 1], s);
    } else {
      assert writes[..s] == writes;
    }
  }

  method Gather(world: World, sets: seq<nat>, writes: seq<seq<Write>>, total: nat) returns (batch: Batch)
    requires |sets| == |writes| && total == TotalWrites(writes)
    ensures fresh(batch) && batch.Valid() && batch.View() == Gathered(world, Jobs(world, sets, writes))
    ensures batch.writeIdx <= total
  {
    batch := new Batch(total);
    for s := 0 to |sets|
      invariant batch.Valid() && batch.vkWrites.Length == total
      invariant fresh(batch) && fresh(batch.vkWrites) && fresh(batch.bufInfos) && fresh(batch.imgInfos)
      invariant batch.View() == Gathered(world, Jobs(world, sets[..s], writes[..s]))
      invariant batch.writeIdx <= TotalWrites(writes[..s])
    {
      JobsNext(world, sets, writes, s);
      TotalGrows(writes, s + 1);
      ConsiderSet(batch, world, sets[s], writes[s], Jobs(world, sets[..s], writes[..s]));
    }
    assert sets[..|sets|] == sets && writes[..|sets|] == writes;
  }

  /** Batched writes over any sets leave device memory as the single writes of the batched types
      would, in order; dead handles, and sets that are missing or not of this kind, are skipped. */
  method WriteSets(world: World, device: Device, sets: seq<nat>, writes: seq<seq<Write>>)
    requires |sets| == |writes| && TotalWrites(writes) < TWO_32 && Ranges32(world)
    modifies device
    ensures forall key :: BindingAsAsked(old(device.memory), device.memory, world, sets, writes, key)
    ensures device.memory == Singles(old(device.memory), world, Kept(Jobs(world, sets, writes)))
  {
    BatchMeansSingles(device.memory, world, Jobs(world, sets, writes));
    OwnedCounts(Gathered(world, Jobs(world, sets, writes)));
    ghost var after := Singles(device.memory, world, Kept(Jobs(world, sets, writes)));
    forall key ensures BindingAsAsked(device.memory, after, world, sets, writes, key) {
      SinglesAsAsked(device.memory, world, sets, writes, key);
    }
    var totalWrites := CountWrites(writes);
    if totalWrites == 0 {
      NoJobs(world, sets, writes);
      return;
    }
    var batch := Gather(world, sets, writes, totalWrites);
    if batch.writeIdx > 0 {
      device.UpdateDescriptorSets(Flat(batch.vkWrites[..batch.writeIdx], batch.bufInfos[..batch.bufIdx],
                                       batch.imgInfos[..batch.imgIdx]));
    }
  }

  lemma {:induction false} NoJobs(world: World, sets: seq<nat>, writes: seq<seq<Write>>)
    requires |sets| == |writes| && TotalWrites(writes) == 0
    ensures Jobs(world, sets, writes) == []
  {
    if sets != [] {
      NoJobs(world, sets[..|sets| - 1], writes[..|sets| - 1]);
    }
  }

  // ---------------------------------------------------------------- what the call leaves in each binding

  /** Write `w` of set `s` goes to this binding, has a live handle, and is of a type the batch knows. */
  predicate Hits(world: World, sets: seq<nat>, writes: seq<seq<Write>>, s: nat, w: nat, key: (nat, nat))
    requires |sets| == |writes|
  {
    && s < |sets| && w < |writes[s]| && sets[s] in world.sets && world.sets[sets[s]].usesDescriptorSets
    && HitsIn(world, world.sets[sets[s]].vkSet, writes[s], w, key)
  }

  predicate HitsIn(world: World, vkSet: nat, ws: seq<Write>, w: nat, key: (nat, nat)) {
    && w < |ws| && key == (vkSet, ws[w].slot) && Live(world, ws[w])
    && !ws[w].kind.SAMPLER? && !ws[w].kind.COMBINED_TEXTURE_SAMPLER?
  }

  /** ... and no later write does. */
  ghost predicate HitsLast(world: World, sets: seq<nat>, writes: seq<seq<Write>>, s: nat, w: nat, key: (nat, nat))
    requires |sets| == |writes|
  {
    && Hits(world, sets, writes, s, w, key)
    && (forall v: nat :: w < v ==> !Hits(world, sets, writes, s, v, key))
    && (forall r: nat, v: nat :: s < r ==> !Hits(world, sets, writes, r, v, key))
  }

  /** A binding holds what the last such write asked for, and what it held before if there is none. */
  ghost predicate BindingAsAsked(before: Memory, after: Memory, world: World, sets: seq<nat>, writes: seq<seq<Write>>,
                                 key: (nat, nat))
    requires |sets| == |writes|
  {
    && (forall s: nat, w: nat :: HitsLast(world, sets, writes, s, w, key) ==>
          key in after && AsAsked(world, writes[s][w], after[key]))
    && ((forall s: nat, w: nat :: !Hits(world, sets, writes, s, w, key)) ==> SameAt(before, after, key))
  }

  /** The last live job for a binding among two stretches of jobs. */
  lemma {:induction false} LastLiveOfTwo(world: World, a: seq<Job>, b: seq<Job>, key: (nat, nat))
    ensures LastLive(world, Kept(a + b), key) ==
            if LastLive(world, Kept(b), key).Some? then LastLive(world, Kept(b), key) else LastLive(world, Kept(a), key)
    decreases |b|
  {
    if b == [] {
      assert a + b == a;
    } else {
      var n := |b| - 1;
      assert (a + b)[..|a + b| - 1] == a + b[..n] && (a + b)[|a + b| - 1] == b[n];
      LastLiveOfTwo(world, a, b[..n], key);
      KeptNext(world, a + b[..n], b[n], key);
      KeptNext(world, b[..n], b[n], key);
      assert a + b == a + b[..n] + [b[n]] && b == b[..n] + [b[n]];
    }
  }

  lemma KeptNext(world: World, jobs: seq<Job>, j: Job, key: (nat, nat))
    ensures LastLive(world, Kept(jobs + [j]), key) ==
            if Batched(j.write.kind) && (j.vkSet, j.write.slot) == key && Denoted(world, j.write.kind, j.write.handle).Some?
            then Some(j) else LastLive(world, Kept(jobs), key)
  {
    assert (jobs + [j])[..|jobs|] == jobs;
    var kept := Kept(jobs);
    assert (kept + [j])[..|kept|] == kept && kept + [] == kept;
  }

  ghost predicate LastIn(world: World, vkSet: nat, ws: seq<Write>, w: nat, key: (nat, nat), j: Job) {
    HitsIn(world, vkSet, ws, w, key) && j == Job(vkSet, ws[w]) &&
    forall v: nat :: w < v ==> !HitsIn(world, vkSet, ws, v, key)
  }

  lemma LastInLonger(world: World, vkSet: nat, ws: seq<Write>, w: nat, key: (nat, nat), j: Job)
    requires ws != [] && LastIn(world, vkSet, ws[..|ws| - 1], w, key, j) && !HitsIn(world, vkSet, ws, |ws| - 1, key)
    ensures LastIn(world, vkSet, ws, w, key, j)
  {
    forall v: nat | w < v ensures !HitsIn(world, vkSet, ws, v, key) {
      if v < |ws| - 1 {
        assert !HitsIn(world, vkSet, ws[..|ws| - 1], v, key);
      }
    }
  }

  lemma {:induction false} LastInSet(world: World, vkSet: nat, ws: seq<Write>, key: (nat, nat))
    requires Ranges32(world)
    ensures var jobs := seq(|ws|, i requires 0 <= i < |ws| => Job(vkSet, ws[i]));
            match LastLive(world, Kept(jobs), key)
            case None => forall w: nat :: !HitsIn(world, vkSet, ws, w, key)
            case Some(j) => exists w: nat :: LastIn(world, vkSet, ws, w, key, j)
  {
    var jobs := seq(|ws|, i requires 0 <= i < |ws| => Job(vkSet, ws[i]));
    if ws != [] {
      var n := |ws| - 1;
      var before := seq(n, i requires 0 <= i < n => Job(vkSet, ws[..n][i]));
      assert jobs == before + [Job(vkSet, ws[n])];
      LastInSet(world, vkSet, ws[..n], key);
      KeptNext(world, before, jobs[n], key);
      DenotedIsAsAsked(world, ws[n]);
      forall w: nat | w < n ensures HitsIn(world, vkSet, ws, w, key) == HitsIn(world, vkSet, ws[..n], w, key) {
      }
      if HitsIn(world, vkSet, ws, n, key) {
        assert LastIn(world, vkSet, ws, n, key, jobs[n]);
      } else if LastLive(world, Kept(before), key).Some? {
        var w: nat :| LastIn(world, vkSet, ws[..n], w, key, LastLive(world, Kept(before), key).value);
        LastInLonger(world, vkSet, ws, w, key, LastLive(world, Kept(before), key).value);
      }
    }
  }

  ghost predicate SetMisses(world: World, sets: seq<nat>, writes: seq<seq<Write>>, s: nat, key: (nat, nat))
    requires |sets| == |writes|
  {
    forall w: nat :: !Hits(world, sets, writes, s, w, key)
  }

  lemma PrefixHits(world: World, sets: seq<nat>, writes: seq<seq<Write>>, s: nat, w: nat, key: (nat, nat))
    requires |sets| == |writes| && sets != [] && s < |sets| - 1
    ensures Hits(world, sets, writes, s, w, key) ==
            Hits(world, sets[..|sets| - 1], writes[..|sets| - 1], s, w, key)
  {
  }

  ghost predicate HitsLastWith(world: World, sets: seq<nat>, writes: seq<seq<Write>>, s: nat, w: nat, key: (nat, nat),
                               write: Write)
    requires |sets| == |writes|
  {
    HitsLast(world, sets, writes, s, w, key) && write == writes[s][w]
  }

  /** The job found for a binding is that of the last write that hits it. */
  ghost predicate FoundLast(world: World, sets: seq<nat>, writes: seq<seq<Write>>, key: (nat, nat), last: Option<Job>)
    requires |sets| == |writes|
  {
    match last
    case None => forall s: nat, w: nat :: !Hits(world, sets, writes, s, w, key)
    case Some(j) => exists s: nat, w: nat :: HitsLastWith(world, sets, writes, s, w, key, j.write)
  }

  /** The last set decides, if one of its writes hits. */
  lemma LastSetHits(world: World, sets: seq<nat>, writes: seq<seq<Write>>, key: (nat, nat), last: Option<Job>)
    requires |sets| == |writes| && sets != [] && Ranges32(world)
    requires last == LastLive(world, Kept(JobsOf(world, sets[|sets| - 1], writes[|sets| - 1])), key)
    ensures last.Some? ==> FoundLast(world, sets, writes, key, last)
    ensures last.None? ==> SetMisses(world, sets, writes, |sets| - 1, key)
  {
    var n := |sets| - 1;
    if sets[n] in world.sets && world.sets[sets[n]].usesDescriptorSets {
      var vkSet := world.sets[sets[n]].vkSet;
      LastInSet(world, vkSet, writes[n], key);
      forall w: nat ensures Hits(world, sets, writes, n, w, key) == HitsIn(world, vkSet, writes[n], w, key) {
      }
      if last.Some? {
        var w: nat :| LastIn(world, vkSet, writes[n], w, key, last.value);
        assert HitsLastWith(world, sets, writes, n, w, key, last.value.write);
      }
    }
  }

  lemma LaterSetsMiss(world: World, sets: seq<nat>, writes: seq<seq<Write>>, s: nat, w: nat, key: (nat, nat))
    requires |sets| == |writes| && sets != []
    requires HitsLast(world, sets[..|sets| - 1], writes[..|sets| - 1], s, w, key)
    requires SetMisses(world, sets, writes, |sets| - 1, key)
    ensures HitsLast(world, sets, writes, s, w, key)
  {
    var n := |sets| - 1;
    forall r: nat, v: nat | s < r || (s == r && w < v) ensures !Hits(world, sets, writes, r, v, key) {
      if r < n {
        assert !Hits(world, sets[..n], writes[..n], r, v, key);
      }
    }
  }

  lemma EarlierSetHits(world: World, sets: seq<nat>, writes: seq<seq<Write>>, key: (nat, nat), last: Option<Job>)
    requires |sets| == |writes| && sets != []
    requires FoundLast(world, sets[..|sets| - 1], writes[..|sets| - 1], key, last)
    requires SetMisses(world, sets, writes, |sets| - 1, key)
    ensures FoundLast(world, sets, writes, key, last)
  {
    var n := |sets| - 1;
    forall s: nat, w: nat | s < n
      ensures Hits(world, sets, writes, s, w, key) == Hits(world, sets[..n], writes[..n], s, w, key)
    {
      PrefixHits(world, sets, writes, s, w, key);
    }
    match last
    case None =>
      forall s: nat, w: nat ensures !Hits(world, sets, writes, s, w, key) {
        if s < n {
          assert !Hits(world, sets[..n], writes[..n], s, w, key);
        }
      }
    case Some(j) =>
      var s: nat, w: nat :| HitsLastWith(world, sets[..n], writes[..n], s, w, key, j.write);
      LaterSetsMiss(world, sets, writes, s, w, key);
      assert HitsLastWith(world, sets, writes, s, w, key, j.write);
  }

  lemma {:induction false} LastInSets(world: World, sets: seq<nat>, writes: seq<seq<Write>>, key: (nat, nat))
    requires |sets| == |writes| && Ranges32(world)
    ensures FoundLast(world, sets, writes, key, LastLive(world, Kept(Jobs(world, sets, writes)), key))
  {
    if sets != [] {
      var n := |sets| - 1;
      var last := LastLive(world, Kept(JobsOf(world, sets[n], writes[n])), key);
      LastLiveOfTwo(world, Jobs(world, sets[..n], writes[..n]), JobsOf(world, sets[n], writes[n]), key);
      LastSetHits(world, sets, writes, key, last);
      if last.None? {
        LastInSets(world, sets[..n], writes[..n], key);
        EarlierSetHits(world, sets, writes, key, LastLive(world, Kept(Jobs(world, sets[..n], writes[..n])), key));
      }
    }
  }

  lemma SinglesAsAsked(m: Memory, world: World, sets: seq<nat>, writes: seq<seq<Write>>, key: (nat, nat))
    requires |sets| == |writes| && Ranges32(world)
    ensures BindingAsAsked(m, Singles(m, world, Kept(Jobs(world, sets, writes))), world, sets, writes, key)
  {
    var jobs := Kept(Jobs(world, sets, writes));
    LastInSets(world, sets, writes, key);
    SinglesAt(m, world, jobs, key);
    var last := LastLive(world, jobs, key);
    if last.Some? {
      var s: nat, w: nat :| HitsLastWith(world, sets, writes, s, w, key, last.value.write);
      DenotedIsAsAsked(world, writes[s][w]);
      assert Hits(world, sets, writes, s, w, key);
      forall r: nat, v: nat | HitsLast(world, sets, writes, r, v, key) ensures r == s && v == w {
        assert Hits(world, sets, writes, r, v, key);
      }
    } else {
      forall s: nat, w: nat ensures !HitsLast(world, sets, writes, s, w, key) {
        assert !Hits(world, sets, writes, s, w, key);
      }
    }
  }

  // ---------------------------------------------------------------- when the batch agrees

  /** The last write with a live handle to a binding. */
  function LastLive(world: World, jobs: seq<Job>, key: (nat, nat)): Option<Job> {
    if jobs == [] then None
    else
      var last := jobs[|jobs| - 1];
      if (last.vkSet, last.write.slot) == key && Denoted(world, last.write.kind, last.write.handle).Some?
      then Some(last)
      else LastLive(world, jobs[..|jobs| - 1], key)
  }

  /** A binding holds what the last live write put there, and is untouched without one. */
  lemma {:induction false} SinglesAt(m: Memory, world: World, jobs: seq<Job>, key: (nat, nat))
    ensures var after, last := Singles(m, world, jobs), LastLive(world, jobs, key);
            match last
            case None => (key in after <==> key in m) && (key in m ==> after[key] == m[key])
            case Some(j) =>
              && key == (j.vkSet, j.write.slot) && key in after
              && Denoted(world, j.write.kind, j.write.handle) == Some(after[key])
  {
    if jobs != [] {
      SinglesAt(m, world, jobs[..|jobs| - 1], key);
    }
  }

  lemma {:induction false} LastLiveKept(world: World, jobs: seq<Job>, key: (nat, nat))
    ensures var last, kept := LastLive(world, jobs, key), LastLive(world, Kept(jobs), key);
            && (last.None? ==> kept.None?)
            && (last.Some? && Batched(last.value.write.kind) ==> kept == last)
            && (kept.Some? ==> Batched(kept.value.write.kind))
  {
    if jobs != [] {
      var n := |jobs| - 1;
      LastLiveKept(world, jobs[..n], key);
      if Batched(jobs[n].write.kind) {
        assert Kept(jobs)[..|Kept(jobs[..n])|] == Kept(jobs[..n]);
      } else {
        assert Kept(jobs) == Kept(jobs[..n]);
      }
    }
  }

  /** The batch ignores sampler writes, which the single routine performs: it agrees with the single
      writes on every memory exactly when no binding is last written by a live handle of a type the
      batch ignores. */
  lemma BatchAgreesExactly(world: World, jobs: seq<Job>)
    ensures (forall m: Memory :: Singles(m, world, Kept(jobs)) == Singles(m, world, jobs)) <==>
            (forall key: (nat, nat) :: LastLive(world, jobs, key).Some? ==>
               Batched(LastLive(world, jobs, key).value.write.kind))
  {
    if forall key: (nat, nat) :: LastLive(world, jobs, key).Some? ==>
         Batched(LastLive(world, jobs, key).value.write.kind) {
      forall m: Memory ensures Singles(m, world, Kept(jobs)) == Singles(m, world, jobs) {
        forall key: (nat, nat) ensures SameAt(Singles(m, world, Kept(jobs)), Singles(m, world, jobs), key) {
          SinglesAt(m, world, jobs, key);
          SinglesAt(m, world, Kept(jobs), key);
          LastLiveKept(world, jobs, key);
        }
        SameEverywhere(Singles(m, world, Kept(jobs)), Singles(m, world, jobs));
      }
    } else {
      var key: (nat, nat) :| LastLive(world, jobs, key).Some? &&
        !Batched(LastLive(world, jobs, key).value.write.kind);
      SinglesAt(map[], world, jobs, key);
      SinglesAt(map[], world, Kept(jobs), key);
      LastLiveKept(world, jobs, key);
      assert !SameAt(Singles(map[], world, Kept(jobs)), Singles(map[], world, jobs), key);
    }
  }

  predicate SameAt(m: Memory, n: Memory, key: (nat, nat)) {
    (key in m <==> key in n) && (key in m && key in n ==> m[key] == n[key])
  }

  lemma SameEverywhere(m: Memory, n: Memory)
    requires forall key: (nat, nat) :: SameAt(m, n, key)
    ensures m == n
  {
    forall key | key in m ensures key in n && m[key] == n[key] {
      assert SameAt(m, n, key);
    }
    forall key | key in n ensures key in m {
      assert SameAt(m, n, key);
    }
  }

  /** So for buffer, SRV and UAV writes the batch is the single writes, whatever the handles. */
  lemma BatchTypesAgree(m: Memory, world: World, jobs: seq<Job>)
    requires forall i :: 0 <= i < |jobs| ==> Batched(jobs[i].write.kind)
    ensures (BatchMeansSingles(m, world, jobs); OwnedCounts(Gathered(world, jobs));
             Updated(m, Gathered(world, jobs)) == Singles(m, world, jobs))
    ensures forall i, j :: 0 <= i < j < |Gathered(world, jobs).writes| ==>
              Gathered(world, jobs).writes[i].info != Gathered(world, jobs).writes[j].info
  {
    KeptAll(jobs);
    BatchMeansSingles(m, world, jobs);
    forall i, j | 0 <= i < j < |Gathered(world, jobs).writes|
      ensures Gathered(world, jobs).writes[i].info != Gathered(world, jobs).writes[j].info
    {
      NeverAliased(Gathered(world, jobs), i, j);
    }
  }
}
