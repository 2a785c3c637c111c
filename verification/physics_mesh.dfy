/** `PhysicsMesh` (Renderer/src/PhysicsMesh.cpp,
    Renderer/include/PhysicsMesh.hpp): a `Mesh` that also carries a
    directional-light block and one light buffer per swap image. The inherited
    part is the `base` record; the inherited members (transforms,
    `setIndices`, `createUniformBuffers`, ...) are the `Meshes` functions
    applied to it. */
module PhysicsMeshes {
  import opened Types
  import opened Vk
  import opened Geometry
  import opened Meshes
  import Obj
  import Lights

  /** `DirectionalLightStruct`: the block copied into a light buffer. */
  datatype DirectionalLightStruct = DirectionalLightStruct(
    ambientIntensity: real,
    diffuseIntensity: real,
    color: Vec4,
    direction: Vec4)

  /** The block every non-copy constructor starts from: all members zero. */
  const ZERO_LIGHT: DirectionalLightStruct := DirectionalLightStruct(0.0, 0.0, Splat4(0.0), Splat4(0.0))

  datatype PhysicsMesh = PhysicsMesh(
    base: Mesh,
    lightData: DirectionalLightStruct,
    lightBuffers: seq<Handle>,
    lightBuffersMemory: seq<Handle>)

  /** `PhysicsMesh()`: the default mesh with a zeroed light block. */
  function NewPhysicsMesh(): (pm: PhysicsMesh)
    ensures pm.base == NewMesh()
    ensures pm.lightData.ambientIntensity == 0.0 && pm.lightData.diffuseIntensity == 0.0
    ensures pm.lightData.color == Vec4(0.0, 0.0, 0.0, 0.0) && pm.lightData.direction == Vec4(0.0, 0.0, 0.0, 0.0)
    ensures pm.lightBuffers == [] && pm.lightBuffersMemory == []
  {
    PhysicsMesh(NewMesh(), ZERO_LIGHT, [], [])
  }

  /** `PhysicsMesh(std::vector<Vertex>)`: the vector constructor of `Mesh`,
      then a zeroed light block. */
  function PhysicsMeshFromVertices(verts: seq<Vertex>): (pm: PhysicsMesh)
    ensures pm.base.vertices == verts && pm.base.indices == [] && pm.base.model == Identity
    ensures pm == NewPhysicsMesh().(base := NewMesh().(vertices := verts))
  {
    PhysicsMesh(MeshFromVertices(verts), ZERO_LIGHT, [], [])
  }

  /** `PhysicsMesh(std::string)`: the OBJ constructor of `Mesh` (which may
      throw), then a zeroed light block. */
  method PhysicsMeshFromObj(load: Obj.ObjLoad) returns (r: Result<PhysicsMesh>)
    requires load.Loaded? ==> Obj.ShapesInBounds(load.attrib, load.shapes)
    ensures load.LoadFailed? ==> r == Err(load.warn + load.err)
    ensures load.Loaded? ==> r.Ok? && r.value.lightData == ZERO_LIGHT
    ensures load.Loaded? ==> r.value.lightBuffers == [] && r.value.lightBuffersMemory == []
    ensures load.Loaded? ==> Obj.Flattened(load.attrib, load.shapes, r.value.base.vertices, r.value.base.indices)
    ensures load.Loaded? ==> r.value.base == NewMesh().(vertices := r.value.base.vertices, indices := r.value.base.indices)
  {
    var m := MeshFromObj(load);
    match m
    case Err(msg) => return Err(msg);
    case Ok(mesh) => return Ok(PhysicsMesh(mesh, ZERO_LIGHT, [], []));
  }

  /** `PhysicsMesh(const PhysicsMesh&)`: copies every `Mesh` member (sharing
      the texture) and the four light members one by one, but not the light
      buffers: a copy starts with none. */
  function CopyPhysicsMesh(other: PhysicsMesh): (pm: PhysicsMesh)
    ensures pm.base == other.base && pm.lightData == other.lightData
    ensures pm.lightBuffers == [] && pm.lightBuffersMemory == []
  {
    var d := other.lightData;
    PhysicsMesh(
      CopyMesh(other.base),
      DirectionalLightStruct(d.ambientIntensity, d.diffuseIntensity, d.color, d.direction),
      [], [])
  }

  /** Copying is idempotent, and a copy equals its original exactly when the
      original holds no light buffers. */
  lemma CopyDropsOnlyLightBuffers(pm: PhysicsMesh)
    ensures CopyPhysicsMesh(CopyPhysicsMesh(pm)) == CopyPhysicsMesh(pm)
    ensures CopyPhysicsMesh(pm) == pm <==> pm.lightBuffers == [] && pm.lightBuffersMemory == []
  {
  }

  /** `createLightingUBOBuffers`: one fresh light buffer and memory per swap
      image, replacing whatever was held; nothing else changes. */
  method CreateLightingUboBuffers(pm: PhysicsMesh, imageCount: nat, src: HandleSource)
    returns (r: PhysicsMesh, src': HandleSource)
    ensures |r.lightBuffers| == imageCount && |r.lightBuffersMemory| == imageCount
    ensures IssuedBetween(r.lightBuffers, src.next, src'.next) && IssuedBetween(r.lightBuffersMemory, src.next, src'.next)
    ensures Distinct(r.lightBuffers) && Distinct(r.lightBuffersMemory)
    ensures r.(lightBuffers := pm.lightBuffers, lightBuffersMemory := pm.lightBuffersMemory) == pm
  {
    var buffers, memories;
    buffers, memories, src' := CreatePerImageBuffers(imageCount, src);
    r := pm.(lightBuffers := buffers, lightBuffersMemory := memories);
  }

  /** The block built from a light: colour and direction extended with
      w = 1, intensities unchanged. */
  function LightBlock(light: Lights.DirectionalLight): (d: DirectionalLightStruct)
    ensures d.color == Vec4(light.color.x, light.color.y, light.color.z, 1.0)
    ensures d.direction == Vec4(light.direction.x, light.direction.y, light.direction.z, 1.0)
    ensures d.ambientIntensity == light.ambientIntensity && d.diffuseIntensity == light.diffuseIntensity
  {
    DirectionalLightStruct(light.ambientIntensity, light.diffuseIntensity, Extend(light.color, 1.0), Extend(light.direction, 1.0))
  }

  /** `setLightingUBOBuffers`: stores the light's block in the mesh and
      copies it into the light memory of swap image `currentImage` only. */
  function SetLightingUboBuffers(pm: PhysicsMesh, currentImage: nat, light: Lights.DirectionalLight,
                                 memory: map<Handle, DirectionalLightStruct>)
    : (r: (PhysicsMesh, map<Handle, DirectionalLightStruct>))
    requires currentImage < |pm.lightBuffersMemory|
    ensures r.0.lightData == LightBlock(light)
    ensures r.0.(lightData := pm.lightData) == pm
    ensures r.1.Keys == memory.Keys + {pm.lightBuffersMemory[currentImage]}
    ensures r.1[pm.lightBuffersMemory[currentImage]] == LightBlock(light)
    ensures forall h :: h in memory && h != pm.lightBuffersMemory[currentImage] ==> r.1[h] == memory[h]
  {
    var d := LightBlock(light);
    (pm.(lightData := d), memory[pm.lightBuffersMemory[currentImage] := d])
  }

  /** The default light, stored, is white with w = 1, direction (1, 1, 0, 1),
      ambient 0.4 and diffuse 0.6. */
  lemma DefaultLightBlock()
    ensures LightBlock(Lights.DefaultDirectionalLight()) == DirectionalLightStruct(0.4, 0.6, Splat4(1.0), Vec4(1.0, 1.0, 0.0, 1.0))
  {
  }

  /** The two writes `createDescriptorSets` submits together for image `i`:
      the uniform buffer at binding 0 and the light buffer at binding 1. */
  function LitWrites(dset: Handle, uniformBuffers: seq<Handle>, lightBuffers: seq<Handle>, i: nat): (ws: seq<DescriptorWrite>)
    requires i < |uniformBuffers| && i < |lightBuffers|
    ensures |ws| == 2
    ensures DescriptorsIn(ws, UniformBuffer, 0) == 1 && DescriptorsIn(ws, UniformBuffer, 1) == 1
  {
    var ws := [UniformWrite(dset, 0, uniformBuffers[i], SizeofBasicUbo),
               UniformWrite(dset, 1, lightBuffers[i], SizeofDirectionalLightStruct)];
    DescriptorsInPair(ws[0], ws[1], UniformBuffer, 0);
    DescriptorsInPair(ws[0], ws[1], UniformBuffer, 1);
    ws
  }

  /** One update call per swap image, in image order, each carrying that
      image's two writes. */
  function LitWriteCalls(dset: Handle, uniformBuffers: seq<Handle>, lightBuffers: seq<Handle>, n: nat)
    : (calls: seq<DeviceCall>)
    requires n <= |uniformBuffers| && n <= |lightBuffers|
    ensures |calls| == n
    ensures forall i :: 0 <= i < n ==> calls[i] == UpdateDescriptorSets(LitWrites(dset, uniformBuffers, lightBuffers, i))
    ensures SetsRequested(calls) == 0
    ensures DescriptorsWritten(calls, UniformBuffer, 0) == n && DescriptorsWritten(calls, UniformBuffer, 1) == n
    decreases n
  {
    if n == 0 then []
    else
      var prev := LitWriteCalls(dset, uniformBuffers, lightBuffers, n - 1);
      var c := UpdateDescriptorSets(LitWrites(dset, uniformBuffers, lightBuffers, n - 1));
      assert (prev + [c])[..n - 1] == prev;
      prev + [c]
  }

  /** `PhysicsMesh::createDescriptorSets`: asks for one set per swap image
      (each with the same layout), throws before any write when allocation
      fails, and otherwise submits, for each image i, the uniform buffer i at
      binding 0 and the light buffer i at binding 1. */
  function CreatePhysicsDescriptorSets(pm: PhysicsMesh, imageCount: nat, layout: Handle, pool: Handle, alloc: Allocation)
    : (r: Traced<PhysicsMesh>)
    requires alloc.Allocated? ==> imageCount <= |pm.base.uniformBuffers| && imageCount <= |pm.lightBuffers|
    ensures |r.calls| > 0 && r.calls[0] == AllocationRequest(pool, layout, imageCount)
    ensures alloc.AllocationFailed? ==> r.result == Err(DESCRIPTOR_ALLOCATION_FAILED) && |r.calls| == 1
    ensures alloc.Allocated? ==>
      && r.result == Ok(pm.(base := pm.base.(descriptorSet := Some(alloc.descriptorSet))))
      && |r.calls| == imageCount + 1
      && forall i :: 0 <= i < imageCount ==>
           r.calls[i + 1] == UpdateDescriptorSets([
             UniformWrite(alloc.descriptorSet, 0, pm.base.uniformBuffers[i], SizeofBasicUbo),
             UniformWrite(alloc.descriptorSet, 1, pm.lightBuffers[i], SizeofDirectionalLightStruct)])
  {
    var request := AllocationRequest(pool, layout, imageCount);
    match alloc
    case AllocationFailed => Traced([request], Err(DESCRIPTOR_ALLOCATION_FAILED))
    case Allocated(dset) =>
      assert imageCount <= |pm.base.uniformBuffers| && imageCount <= |pm.lightBuffers|;
      Traced([request] + LitWriteCalls(dset, pm.base.uniformBuffers, pm.lightBuffers, imageCount),
        Ok(pm.(base := pm.base.(descriptorSet := Some(dset)))))
  }

  /** A successful `createDescriptorSets` asks for `imageCount` sets and
      fills exactly `imageCount` uniform-buffer descriptors at each of the two
      bindings; nothing else. */
  lemma {:induction false} PhysicsDescriptorDemand(pm: PhysicsMesh, imageCount: nat, layout: Handle, pool: Handle, dset: Handle)
    requires imageCount <= |pm.base.uniformBuffers| && imageCount <= |pm.lightBuffers|
    ensures var calls := CreatePhysicsDescriptorSets(pm, imageCount, layout, pool, Allocated(dset)).calls;
      && SetsRequested(calls) == imageCount
      && DescriptorsWritten(calls, UniformBuffer, 0) == imageCount
      && DescriptorsWritten(calls, UniformBuffer, 1) == imageCount
      && DescriptorsWritten(calls, CombinedImageSampler, 0) == 0
  {
    var request := AllocationRequest(pool, layout, imageCount);
    var writes := LitWriteCalls(dset, pm.base.uniformBuffers, pm.lightBuffers, imageCount);
    assert [request][..0] == [];
    SetsRequestedAppend([request], writes);
    DescriptorsWrittenAppend([request], writes, UniformBuffer, 0);
    DescriptorsWrittenAppend([request], writes, UniformBuffer, 1);
    DescriptorsWrittenAppend([request], writes, CombinedImageSampler, 0);
    NoSamplerWrites(dset, pm.base.uniformBuffers, pm.lightBuffers, imageCount);
  }

  /** The light descriptor code never writes a combined image sampler (the
      texture lines are commented out in the source). */
  lemma {:induction false} NoSamplerWrites(dset: Handle, uniformBuffers: seq<Handle>, lightBuffers: seq<Handle>, n: nat)
    requires n <= |uniformBuffers| && n <= |lightBuffers|
    ensures forall b :: DescriptorsWritten(LitWriteCalls(dset, uniformBuffers, lightBuffers, n), CombinedImageSampler, b) == 0
    decreases n
  {
    if n > 0 {
      NoSamplerWrites(dset, uniformBuffers, lightBuffers, n - 1);
      var calls := LitWriteCalls(dset, uniformBuffers, lightBuffers, n);
      var ws := LitWrites(dset, uniformBuffers, lightBuffers, n - 1);
      assert calls[..n - 1] == LitWriteCalls(dset, uniformBuffers, lightBuffers, n - 1);
      forall b ensures DescriptorsIn(ws, CombinedImageSampler, b) == 0 {
        DescriptorsInPair(ws[0], ws[1], CombinedImageSampler, b);
      }
    }
  }
}
