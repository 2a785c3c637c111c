/** The slice of the Vulkan vocabulary the renderer's core touches: result
    codes, descriptor types and stages, symbolic struct sizes, descriptor
    writes, and the device calls the descriptor code issues. Every object is an
    opaque `Handle`; nothing is executed. */
module Vk {
  import opened Types

  /** The `VkResult` codes the core distinguishes. */
  datatype VkResult = Success | ErrorExtensionNotPresent | ErrorOther(code: int)

  datatype DescriptorType = UniformBuffer | CombinedImageSampler

  datatype ShaderStage = VertexStage | FragmentStage

  /** `sizeof` of the structs the core hands to the driver, kept symbolic:
      the byte layout depends on GLM's alignment settings. */
  datatype StructSize =
    | SizeofVertex
    | SizeofRendererVertex
    | SizeofBasicUbo
    | SizeofDirectionalLightStruct

  /** `VkDescriptorBufferInfo`. */
  datatype BufferInfo = BufferInfo(buffer: Handle, offset: nat, range: StructSize)

  /** `VkWriteDescriptorSet` for a buffer descriptor. */
  datatype DescriptorWrite = DescriptorWrite(
    dstSet: Handle,
    dstBinding: nat,
    dstArrayElement: nat,
    descriptorType: DescriptorType,
    descriptorCount: nat,
    bufferInfo: BufferInfo)

  /** One uniform-buffer write into array element 0 of `binding`. */
  function UniformWrite(dstSet: Handle, binding: nat, buffer: Handle, range: StructSize): DescriptorWrite
  {
    DescriptorWrite(dstSet, binding, 0, UniformBuffer, 1, BufferInfo(buffer, 0, range))
  }

  /** `VkDescriptorSetLayoutBinding` (no immutable samplers). */
  datatype LayoutBinding = LayoutBinding(binding: nat, descriptorType: DescriptorType, descriptorCount: nat, stage: ShaderStage)

  /** `VkDescriptorPoolSize`. */
  datatype PoolSize = PoolSize(descriptorType: DescriptorType, descriptorCount: U32)

  /** `VkDescriptorPoolCreateInfo`. */
  datatype PoolCreateInfo = PoolCreateInfo(poolSizes: seq<PoolSize>, maxSets: U32)

  /** Device calls issued by the descriptor code, in issue order. */
  datatype DeviceCall =
    | CreateDescriptorSetLayout(bindings: seq<LayoutBinding>)
    | CreateDescriptorPool(info: PoolCreateInfo)
    | AllocateDescriptorSets(pool: Handle, setLayouts: seq<Handle>)
    | UpdateDescriptorSets(writes: seq<DescriptorWrite>)

  /** `vkAllocateDescriptorSets` asking for one set per layout in `layouts`. */
  function AllocationRequest(pool: Handle, layout: Handle, count: nat): (c: DeviceCall)
    ensures c.AllocateDescriptorSets? && c.pool == pool && |c.setLayouts| == count
    ensures forall i :: 0 <= i < count ==> c.setLayouts[i] == layout
  {
    AllocateDescriptorSets(pool, seq(count, _ => layout))
  }

  /** What the driver answers to `vkAllocateDescriptorSets`. */
  datatype Allocation = AllocationFailed | Allocated(descriptorSet: Handle)

  /** What the driver answers to a `vkCreate*` call. */
  datatype Creation = CreationFailed | Created(handle: Handle)

  /** A call log together with the operation's outcome: the log holds the
      calls made before any exception was raised. */
  datatype Traced<+T> = Traced(calls: seq<DeviceCall>, result: Result<T>)

  /** Sets one call asks the driver to allocate. */
  function SetsIn(c: DeviceCall): nat
  {
    match c
    case AllocateDescriptorSets(_, layouts) => |layouts|
    case _ => 0
  }

  /** Number of descriptor sets the calls ask the driver to allocate. */
  function SetsRequested(calls: seq<DeviceCall>): nat
  {
    if |calls| == 0 then 0
    else SetsRequested(calls[..|calls| - 1]) + SetsIn(calls[|calls| - 1])
  }

  /** Descriptors of type `t` at `binding` that one write fills. */
  function WriteFills(w: DescriptorWrite, t: DescriptorType, binding: nat): nat
  {
    if w.descriptorType == t && w.dstBinding == binding then w.descriptorCount else 0
  }

  /** Number of descriptors of type `t` at `binding` that the writes fill. */
  function DescriptorsIn(writes: seq<DescriptorWrite>, t: DescriptorType, binding: nat): nat
  {
    if |writes| == 0 then 0
    else DescriptorsIn(writes[..|writes| - 1], t, binding) + WriteFills(writes[|writes| - 1], t, binding)
  }

  /** Descriptors of type `t` at `binding` that one call fills. */
  function CallFills(c: DeviceCall, t: DescriptorType, binding: nat): nat
  {
    match c
    case UpdateDescriptorSets(ws) => DescriptorsIn(ws, t, binding)
    case _ => 0
  }

  /** Number of descriptors of type `t` at `binding` that the calls fill. */
  function DescriptorsWritten(calls: seq<DeviceCall>, t: DescriptorType, binding: nat): nat
  {
    if |calls| == 0 then 0
    else DescriptorsWritten(calls[..|calls| - 1], t, binding) + CallFills(calls[|calls| - 1], t, binding)
  }

  /** The descriptors a two-write update fills are those of each write. */
  lemma DescriptorsInPair(w1: DescriptorWrite, w2: DescriptorWrite, t: DescriptorType, binding: nat)
    ensures DescriptorsIn([w1, w2], t, binding) == WriteFills(w1, t, binding) + WriteFills(w2, t, binding)
  {
    var ws := [w1, w2];
    assert ws[..1] == [w1];
    assert [w1][..0] == [];
    assert DescriptorsIn([w1], t, binding) == WriteFills(w1, t, binding);
  }

  lemma {:induction false} SetsRequestedAppend(a: seq<DeviceCall>, b: seq<DeviceCall>)
    ensures SetsRequested(a + b) == SetsRequested(a) + SetsRequested(b)
    decreases |b|
  {
    if |b| == 0 {
      assert a + b == a;
    } else {
      assert (a + b)[..|a + b| - 1] == a + b[..|b| - 1];
      SetsRequestedAppend(a, b[..|b| - 1]);
    }
  }

  lemma {:induction false} DescriptorsWrittenAppend(a: seq<DeviceCall>, b: seq<DeviceCall>, t: DescriptorType, binding: nat)
    ensures DescriptorsWritten(a + b, t, binding) == DescriptorsWritten(a, t, binding) + DescriptorsWritten(b, t, binding)
    decreases |b|
  {
    if |b| == 0 {
      assert a + b == a;
    } else {
      assert (a + b)[..|a + b| - 1] == a + b[..|b| - 1];
      DescriptorsWrittenAppend(a, b[..|b| - 1], t, binding);
    }
  }
}
