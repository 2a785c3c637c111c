/** The `Mesh` class (Renderer/src/Mesh.cpp, Renderer/include/Mesh.hpp) as
    an immutable record: geometry, model matrix, uniform block, and the opaque
    handles of its GPU resources. Buffer creation is a fresh-handle source;
    mapped host memory is a map from memory handle to the block last copied
    into it. */
module Meshes {
  import opened Types
  import opened Vk
  import opened Geometry
  import Obj

  datatype Mesh = Mesh(
    vertices: seq<Vertex>,
    indices: seq<U32>,
    descriptorSet: Option<Handle>,
    ubo: BasicUbo,
    model: Mat4,
    vertexBuffer: Option<Handle>,
    vertexBufferMemory: Option<Handle>,
    indexBuffer: Option<Handle>,
    indexBufferMemory: Option<Handle>,
    uniformBuffers: seq<Handle>,
    uniformBuffersMemory: seq<Handle>,
    texture: Option<Handle>)

  /** `glm::radians(90.f)`: the only angle `Mesh::rotate` uses. */
  const ROTATION_DEGREES: real := 90.0

  const DESCRIPTOR_ALLOCATION_FAILED: string := "Failed to allocate descriptor sets!"

  /** `Mesh::Mesh()`: no geometry, no resources, identity model. */
  function NewMesh(): (m: Mesh)
    ensures m.vertices == [] && m.indices == [] && m.model == Identity
    ensures m.uniformBuffers == [] && m.uniformBuffersMemory == []
    ensures m.descriptorSet.None? && m.texture.None?
  {
    Mesh([], [], None, UNSET_UBO, Identity, None, None, None, None, [], [], None)
  }

  /** `Mesh::Mesh(std::vector<Vertex>)`: the default mesh holding the given
      vertices, in order, and no indices. */
  function MeshFromVertices(verts: seq<Vertex>): (m: Mesh)
    ensures m.vertices == verts && m.indices == []
    ensures m == NewMesh().(vertices := verts)
  {
    NewMesh().(vertices := verts)
  }

  /** `Mesh::Mesh(std::string)`: a failed load raises the loader's warning
      and error text; otherwise the shapes are flattened onto a default
      mesh. */
  method MeshFromObj(load: Obj.ObjLoad) returns (r: Result<Mesh>)
    requires load.Loaded? ==> Obj.ShapesInBounds(load.attrib, load.shapes)
    ensures load.LoadFailed? ==> r == Err(load.warn + load.err)
    ensures load.Loaded? ==> r.Ok?
    ensures load.Loaded? ==> Obj.Flattened(load.attrib, load.shapes, r.value.vertices, r.value.indices)
    ensures load.Loaded? ==> r.value == NewMesh().(vertices := r.value.vertices, indices := r.value.indices)
  {
    if load.LoadFailed? {
      return Err(load.warn + load.err);
    }
    var vertices, indices := Obj.Flatten(load.attrib, load.shapes);
    return Ok(NewMesh().(vertices := vertices, indices := indices));
  }

  /** `Mesh::Mesh(const Mesh&)`: copies every member; the texture is shared,
      not duplicated. */
  function CopyMesh(other: Mesh): (m: Mesh)
    ensures m == other
  {
    Mesh(other.vertices, other.indices, other.descriptorSet, other.ubo, other.model,
      other.vertexBuffer, other.vertexBufferMemory, other.indexBuffer, other.indexBufferMemory,
      other.uniformBuffers, other.uniformBuffersMemory, other.texture)
  }

  // ---------------------------------------------------------------------
  // Transforms

  /** `model := model * op` with the uniform block's model kept equal to it;
      nothing else changes. */
  function WithModel(m: Mesh, op: TransformOp): (r: Mesh)
    ensures r.model == Compose(m.model, op) && r.ubo.model == r.model
    ensures r.(model := m.model, ubo := m.ubo) == m
    ensures r.ubo.view == m.ubo.view && r.ubo.proj == m.ubo.proj
  {
    var model := Compose(m.model, op);
    m.(model := model, ubo := m.ubo.(model := model))
  }

  /** `Mesh::translate`. */
  function Translate(m: Mesh, v: Vec3): (r: Mesh)
    ensures r.model == Compose(m.model, TranslateBy(v)) && r.ubo.model == r.model
  {
    WithModel(m, TranslateBy(v))
  }

  /** `Mesh::rotate`: always by 90 degrees about the given axis. */
  function Rotate(m: Mesh, axis: Vec3): (r: Mesh)
    ensures r.model == Compose(m.model, RotateBy(ROTATION_DEGREES, axis)) && r.ubo.model == r.model
  {
    WithModel(m, RotateBy(ROTATION_DEGREES, axis))
  }

  /** `Mesh::scale`. */
  function Scale(m: Mesh, v: Vec3): (r: Mesh)
    ensures r.model == Compose(m.model, ScaleBy(v)) && r.ubo.model == r.model
  {
    WithModel(m, ScaleBy(v))
  }

  /** A call of one of the three transform members. */
  datatype MeshTransform = Translation(offset: Vec3) | Rotation(axis: Vec3) | Scaling(factors: Vec3)

  function ApplyTransform(m: Mesh, t: MeshTransform): Mesh
  {
    match t
    case Translation(v) => Translate(m, v)
    case Rotation(axis) => Rotate(m, axis)
    case Scaling(v) => Scale(m, v)
  }

  /** The GLM step a transform call performs. */
  function OpOf(t: MeshTransform): TransformOp
  {
    match t
    case Translation(v) => TranslateBy(v)
    case Rotation(axis) => RotateBy(ROTATION_DEGREES, axis)
    case Scaling(v) => ScaleBy(v)
  }

  function OpsOf(ts: seq<MeshTransform>): (ops: seq<TransformOp>)
    ensures |ops| == |ts|
    ensures forall i :: 0 <= i < |ts| ==> ops[i] == OpOf(ts[i])
  {
    seq(|ts|, i requires 0 <= i < |ts| => OpOf(ts[i]))
  }

  /** Applies the calls in order. */
  function ApplyTransforms(m: Mesh, ts: seq<MeshTransform>): Mesh
    decreases |ts|
  {
    if |ts| == 0 then m else ApplyTransforms(ApplyTransform(m, ts[0]), ts[1..])
  }

  /** Any sequence of transform calls composes its GLM steps onto the model
      in call order, leaves the uniform block's model equal to the model once
      at least one call was made, and touches nothing but the two model
      members. */
  lemma {:induction false} TransformsKeepUboInSync(m: Mesh, ts: seq<MeshTransform>)
    ensures ApplyTransforms(m, ts).model == ComposeAll(m.model, OpsOf(ts))
    ensures |ts| > 0 ==> ApplyTransforms(m, ts).ubo.model == ApplyTransforms(m, ts).model
    ensures ApplyTransforms(m, ts).(model := m.model, ubo := m.ubo) == m
    ensures ApplyTransforms(m, ts).ubo.view == m.ubo.view && ApplyTransforms(m, ts).ubo.proj == m.ubo.proj
    decreases |ts|
  {
    if |ts| > 0 {
      var m1 := ApplyTransform(m, ts[0]);
      assert m1 == WithModel(m, OpOf(ts[0]));
      TransformsKeepUboInSync(m1, ts[1..]);
      assert OpsOf(ts)[1..] == OpsOf(ts[1..]);
    }
  }

  // ---------------------------------------------------------------------
  // Indices and texture

  /** `Mesh::setIndices`: appends to the existing indices. */
  function SetIndices(m: Mesh, xs: seq<U32>): (r: Mesh)
    ensures r.indices == m.indices + xs
    ensures r.(indices := m.indices) == m
  {
    m.(indices := m.indices + xs)
  }

  /** Two appends are one append of the concatenation. */
  lemma SetIndicesAccumulates(m: Mesh, xs: seq<U32>, ys: seq<U32>)
    ensures SetIndices(SetIndices(m, xs), ys) == SetIndices(m, xs + ys)
    ensures |SetIndices(m, xs).indices| == |m.indices| + |xs|
  {
    assert m.indices + xs + ys == m.indices + (xs + ys);
  }

  /** `Mesh::setTexture`: replaces the held texture. */
  function SetTexture(m: Mesh, tex: Handle): (r: Mesh)
    ensures r.texture == Some(tex)
    ensures r.(texture := m.texture) == m
  {
    m.(texture := Some(tex))
  }

  // ---------------------------------------------------------------------
  // Per-swap-image resources

  /** One `createBuffer` call (a helper not part of this model): a fresh
      buffer and a fresh memory handle. */
  function CreateBuffer(src: HandleSource): (r: (Handle, Handle, HandleSource))
    ensures src.next <= r.0 < r.1 < r.2.next
  {
    (src.next, src.next + 1, HandleSource(src.next + 2))
  }

  /** The resize-then-create loop shared by the uniform and light buffers:
      exactly one new buffer and one new memory per swap image, all distinct
      and none issued before. */
  method CreatePerImageBuffers(imageCount: nat, src: HandleSource)
    returns (buffers: seq<Handle>, memories: seq<Handle>, src': HandleSource)
    ensures |buffers| == imageCount && |memories| == imageCount
    ensures IssuedBetween(buffers, src.next, src'.next) && IssuedBetween(memories, src.next, src'.next)
    ensures Distinct(buffers) && Distinct(memories)
    ensures forall i, j :: 0 <= i < imageCount && 0 <= j < imageCount ==> buffers[i] != memories[j]
  {
    buffers := [];
    memories := [];
    src' := src;
    for i := 0 to imageCount
      invariant |buffers| == i && |memories| == i
      invariant src'.next == src.next + 2 * i
      invariant forall k :: 0 <= k < i ==> buffers[k] == src.next + 2 * k && memories[k] == src.next + 2 * k + 1
    {
      var (b, mem, next) := CreateBuffer(src');
      buffers := buffers + [b];
      memories := memories + [mem];
      src' := next;
    }
  }

  /** `Mesh::createUniformBuffers`: the uniform buffers and memories become
      one fresh pair per swap image; whatever they held before is
      replaced. */
  method CreateUniformBuffers(m: Mesh, imageCount: nat, src: HandleSource) returns (r: Mesh, src': HandleSource)
    ensures |r.uniformBuffers| == imageCount && |r.uniformBuffersMemory| == imageCount
    ensures IssuedBetween(r.uniformBuffers, src.next, src'.next) && IssuedBetween(r.uniformBuffersMemory, src.next, src'.next)
    ensures Distinct(r.uniformBuffers) && Distinct(r.uniformBuffersMemory)
    ensures r.(uniformBuffers := m.uniformBuffers, uniformBuffersMemory := m.uniformBuffersMemory) == m
  {
    var buffers, memories;
    buffers, memories, src' := CreatePerImageBuffers(imageCount, src);
    r := m.(uniformBuffers := buffers, uniformBuffersMemory := memories);
  }

  /** The swap extent the projection is built from. */
  datatype Extent = Extent(width: U32, height: U32)

  /** `Mesh::updateUniformBuffer`: refreshes the uniform block from the model,
      the camera's view and the extent's projection, and copies it into the
      memory of swap image `currentImage` only. */
  function UpdateUniformBuffer(m: Mesh, currentImage: nat, view: Mat4, extent: Extent, memory: map<Handle, BasicUbo>)
    : (r: (Mesh, map<Handle, BasicUbo>))
    requires currentImage < |m.uniformBuffersMemory|
    ensures r.0.ubo == BasicUbo(m.model, view, Projection(extent.width, extent.height))
    ensures r.0.(ubo := m.ubo) == m
    ensures r.1.Keys == memory.Keys + {m.uniformBuffersMemory[currentImage]}
    ensures r.1[m.uniformBuffersMemory[currentImage]] == r.0.ubo
    ensures forall h :: h in memory && h != m.uniformBuffersMemory[currentImage] ==> r.1[h] == memory[h]
  {
    var ubo := BasicUbo(m.model, view, Projection(extent.width, extent.height));
    (m.(ubo := ubo), memory[m.uniformBuffersMemory[currentImage] := ubo])
  }

  /** The single write `Mesh::createDescriptorSets` submits for image `i`. */
  function UboWrite(dset: Handle, uniformBuffers: seq<Handle>, i: nat): DescriptorWrite
    requires i < |uniformBuffers|
  {
    UniformWrite(dset, 0, uniformBuffers[i], SizeofBasicUbo)
  }

  /** The per-image update calls of `Mesh::createDescriptorSets`, one per
      swap image, each carrying one uniform-buffer descriptor at binding 0. */
  function UboWriteCalls(dset: Handle, uniformBuffers: seq<Handle>, n: nat): (calls: seq<DeviceCall>)
    requires n <= |uniformBuffers|
    ensures |calls| == n
    ensures forall i :: 0 <= i < n ==> calls[i] == UpdateDescriptorSets([UboWrite(dset, uniformBuffers, i)])
    ensures SetsRequested(calls) == 0
    ensures DescriptorsWritten(calls, UniformBuffer, 0) == n
    decreases n
  {
    if n == 0 then []
    else
      var w := UboWrite(dset, uniformBuffers, n - 1);
      var prev := UboWriteCalls(dset, uniformBuffers, n - 1);
      assert [w][..0] == [];
      assert DescriptorsIn([w], UniformBuffer, 0) == 1;
      assert (prev + [UpdateDescriptorSets([w])])[..n - 1] == prev;
      prev + [UpdateDescriptorSets([w])]
  }

  /** `Mesh::createDescriptorSets`: asks for one set per swap image, throws
      when the allocation fails, and otherwise writes uniform buffer i into
      binding 0 for every image i. Each iteration reads the texture's view
      and sampler (so a texture must be set once an image is written) but
      writes neither. */
  function CreateDescriptorSets(m: Mesh, imageCount: nat, layout: Handle, pool: Handle, alloc: Allocation)
    : (r: Traced<Mesh>)
    requires alloc.Allocated? ==> imageCount <= |m.uniformBuffers|
    requires alloc.Allocated? && imageCount > 0 ==> m.texture.Some?
    ensures |r.calls| > 0 && r.calls[0] == AllocationRequest(pool, layout, imageCount)
    ensures alloc.AllocationFailed? ==> r.result == Err(DESCRIPTOR_ALLOCATION_FAILED) && |r.calls| == 1
    ensures alloc.Allocated? ==>
      && r.result == Ok(m.(descriptorSet := Some(alloc.descriptorSet)))
      && |r.calls| == imageCount + 1
      && forall i :: 0 <= i < imageCount ==>
           r.calls[i + 1] == UpdateDescriptorSets([UniformWrite(alloc.descriptorSet, 0, m.uniformBuffers[i], SizeofBasicUbo)])
  {
    var request := AllocationRequest(pool, layout, imageCount);
    match alloc
    case AllocationFailed => Traced([request], Err(DESCRIPTOR_ALLOCATION_FAILED))
    case Allocated(dset) =>
      Traced([request] + UboWriteCalls(dset, m.uniformBuffers, imageCount), Ok(m.(descriptorSet := Some(dset))))
  }
}
