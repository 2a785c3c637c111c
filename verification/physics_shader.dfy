/** `PhysicsShader` (Renderer/src/Shaders/PhysicsShader.cpp): the list of
    physics meshes it draws, the two-binding descriptor-set layout, the pool
    sized from the swap-chain length and the mesh count, and the loop that
    gives every mesh its descriptor sets. */
module PhysicsShaders {
  import opened Types
  import opened Vk
  import opened Meshes
  import opened PhysicsMeshes

  /** The two targets the source distinguishes with `#ifdef`. */
  datatype Platform = Linux | Windows

  datatype PhysicsShader = PhysicsShader(
    meshes: seq<PhysicsMesh>,
    vertexShaderPath: string,
    fragmentShaderPath: string,
    descriptorSetLayout: Option<Handle>,
    descriptorPool: Option<Handle>)

  const LAYOUT_CREATION_FAILED: string := "failed to create descriptor set layout!"
  const POOL_CREATION_FAILED: string := "failed to create descriptor pool!"

  function VertexShaderPath(p: Platform): string
  {
    match p
    case Linux => "./bin/resources/shaders/physics_vert.spv"
    case Windows => "bin/Debug/resources/shaders/physics_vert.spv"
  }

  function FragmentShaderPath(p: Platform): string
  {
    match p
    case Linux => "./bin/resources/shaders/physics_frag.spv"
    case Windows => "bin/Debug/resources/shaders/physics_frag.spv"
  }

  /** `PhysicsShader()`: no meshes, the physics SPIR-V paths of the
      platform, nothing created yet. */
  function NewPhysicsShader(p: Platform): (s: PhysicsShader)
    ensures s.meshes == [] && s.descriptorSetLayout.None? && s.descriptorPool.None?
    ensures s.vertexShaderPath == VertexShaderPath(p) && s.fragmentShaderPath == FragmentShaderPath(p)
  {
    PhysicsShader([], VertexShaderPath(p), FragmentShaderPath(p), None, None)
  }

  /** The two platforms use different paths, and on each the vertex and
      fragment stages load different files. */
  lemma ShaderPathsDistinct(p: Platform, q: Platform)
    ensures VertexShaderPath(p) != FragmentShaderPath(p)
    ensures p != q ==> VertexShaderPath(p) != VertexShaderPath(q) && FragmentShaderPath(p) != FragmentShaderPath(q)
  {
    if p == Linux {
      assert VertexShaderPath(p)[32] != FragmentShaderPath(p)[32];
    } else {
      assert VertexShaderPath(p)[36] != FragmentShaderPath(p)[36];
    }
    if p != q {
      assert |VertexShaderPath(Linux)| != |VertexShaderPath(Windows)|;
      assert |FragmentShaderPath(Linux)| != |FragmentShaderPath(Windows)|;
    }
  }

  /** `PhysicsShader(std::vector<PhysicsMesh*>)`: one copy of each given
      mesh, in the given order. */
  function PhysicsShaderFromMeshes(p: Platform, xs: seq<PhysicsMesh>): (s: PhysicsShader)
    ensures |s.meshes| == |xs|
    ensures forall i :: 0 <= i < |xs| ==> s.meshes[i] == CopyPhysicsMesh(xs[i])
    ensures s.(meshes := []) == NewPhysicsShader(p)
  {
    PhysicsShader(seq(|xs|, i requires 0 <= i < |xs| => CopyPhysicsMesh(xs[i])),
      VertexShaderPath(p), FragmentShaderPath(p), None, None)
  }

  /** `addMesh`: appends a copy of the mesh after the existing ones, which
      stay as they are. */
  function AddMesh(s: PhysicsShader, m: PhysicsMesh): (r: PhysicsShader)
    ensures |r.meshes| == |s.meshes| + 1
    ensures r.meshes[..|s.meshes|] == s.meshes && r.meshes[|s.meshes|] == CopyPhysicsMesh(m)
    ensures r.(meshes := s.meshes) == s
  {
    s.(meshes := s.meshes + [CopyPhysicsMesh(m)])
  }

  /** `addMesh` applied to each mesh in turn. */
  function AddMeshes(s: PhysicsShader, xs: seq<PhysicsMesh>): PhysicsShader
    decreases |xs|
  {
    if |xs| == 0 then s else AddMesh(AddMeshes(s, xs[..|xs| - 1]), xs[|xs| - 1])
  }

  /** The list constructor is the default constructor followed by one
      `addMesh` per mesh. */
  lemma {:induction false} ListConstructorIsRepeatedAdd(p: Platform, xs: seq<PhysicsMesh>)
    ensures PhysicsShaderFromMeshes(p, xs) == AddMeshes(NewPhysicsShader(p), xs)
    decreases |xs|
  {
    if |xs| > 0 {
      var init := xs[..|xs| - 1];
      ListConstructorIsRepeatedAdd(p, init);
      var a := PhysicsShaderFromMeshes(p, xs);
      var b := AddMeshes(NewPhysicsShader(p), xs);
      assert b == AddMesh(PhysicsShaderFromMeshes(p, init), xs[|xs| - 1]);
      assert a.meshes == b.meshes;
    }
  }

  /** The layout `createDescritorSetLayout` asks for: the uniform block at
      binding 0 for the vertex stage, the light block at binding 1 for the
      fragment stage, one uniform-buffer descriptor each. */
  const LAYOUT_BINDINGS: seq<LayoutBinding> := [
    LayoutBinding(0, UniformBuffer, 1, VertexStage),
    LayoutBinding(1, UniformBuffer, 1, FragmentStage)]

  /** `createDescritorSetLayout`: one create call; the layout is kept on
      success and the error is raised otherwise. */
  function CreateDescriptorSetLayout(s: PhysicsShader, driver: Creation): (r: Traced<PhysicsShader>)
    ensures r.calls == [DeviceCall.CreateDescriptorSetLayout(LAYOUT_BINDINGS)]
    ensures driver.CreationFailed? ==> r.result == Err(LAYOUT_CREATION_FAILED)
    ensures driver.Created? ==> r.result == Ok(s.(descriptorSetLayout := Some(driver.handle)))
  {
    var call := DeviceCall.CreateDescriptorSetLayout(LAYOUT_BINDINGS);
    match driver
    case CreationFailed => Traced([call], Err(LAYOUT_CREATION_FAILED))
    case Created(h) => Traced([call], Ok(s.(descriptorSetLayout := Some(h))))
  }

  /** The pool `createDescriptorPool` asks for: two uniform-buffer pool
      sizes and a set limit, each the swap-chain length times the mesh count
      cast to 32 bits (the `int` is widened to `size_t` first, which leaves
      the residue modulo 2^32 unchanged). */
  function DescriptorPoolInfo(s: PhysicsShader, swapChainSize: int): (info: PoolCreateInfo)
    ensures |info.poolSizes| == 2
    ensures forall i :: 0 <= i < 2 ==> info.poolSizes[i].descriptorType == UniformBuffer
    ensures forall i :: 0 <= i < 2 ==> info.poolSizes[i].descriptorCount == info.maxSets
    ensures 0 <= swapChainSize * |s.meshes| < TWO_POW_32 ==> info.maxSets == swapChainSize * |s.meshes|
    ensures (swapChainSize * |s.meshes| - info.maxSets) % TWO_POW_32 == 0
  {
    var count := ToU32(swapChainSize * |s.meshes|);
    PoolCreateInfo([PoolSize(UniformBuffer, count), PoolSize(UniformBuffer, count)], count)
  }

  /** `createDescriptorPool`. */
  function CreateDescriptorPool(s: PhysicsShader, swapChainSize: int, driver: Creation): (r: Traced<PhysicsShader>)
    ensures r.calls == [DeviceCall.CreateDescriptorPool(DescriptorPoolInfo(s, swapChainSize))]
    ensures driver.CreationFailed? ==> r.result == Err(POOL_CREATION_FAILED)
    ensures driver.Created? ==> r.result == Ok(s.(descriptorPool := Some(driver.handle)))
  {
    var call := DeviceCall.CreateDescriptorPool(DescriptorPoolInfo(s, swapChainSize));
    match driver
    case CreationFailed => Traced([call], Err(POOL_CREATION_FAILED))
    case Created(h) => Traced([call], Ok(s.(descriptorPool := Some(h))))
  }

  /** Every mesh whose allocation the driver grants has a uniform buffer
      and a light buffer for each of the `imageCount` swap images (the source
      indexes both vectors only after a granted allocation). */
  predicate BuffersReady(meshes: seq<PhysicsMesh>, allocs: seq<Allocation>, imageCount: nat)
  {
    forall i :: 0 <= i < |meshes| && i < |allocs| && allocs[i].Allocated? ==>
      imageCount <= |meshes[i].base.uniformBuffers| && imageCount <= |meshes[i].lightBuffers|
  }

  /** Mesh `m` once its sets were allocated as `dset`. */
  function WithSet(m: PhysicsMesh, dset: Handle): PhysicsMesh
  {
    m.(base := m.base.(descriptorSet := Some(dset)))
  }

  /** The driver granted each of the first `k` allocations. */
  predicate AllGranted(allocs: seq<Allocation>, k: nat)
    requires k <= |allocs|
  {
    forall i :: 0 <= i < k ==> allocs[i].Allocated?
  }

  /** Where the first `k` allocations stop: the index of the first refused
      one, or `k` when the driver granted them all. */
  function Granted(allocs: seq<Allocation>, k: nat): (g: nat)
    requires k <= |allocs|
    ensures g <= k && AllGranted(allocs, g)
    ensures g < k ==> allocs[g].AllocationFailed?
    decreases k
  {
    if k == 0 then 0
    else
      var g := Granted(allocs, k - 1);
      if g < k - 1 || allocs[k - 1].AllocationFailed? then g else k
  }

  /** Where the first `k` steps stop: the index of the first one that
      raised, or `k` when none did. */
  function FirstError(steps: seq<Traced<PhysicsMesh>>, k: nat): (g: nat)
    requires k <= |steps|
    ensures g <= k
    ensures forall i :: 0 <= i < g ==> steps[i].result.Ok?
    ensures g < k ==> steps[g].result.Err?
    decreases k
  {
    if k == 0 then 0
    else
      var g := FirstError(steps, k - 1);
      if g < k - 1 || steps[k - 1].result.Err? then g else k
  }

  /** What each mesh's `createDescriptorSets` does, in list order, given
      the driver's answer `allocs[i]` to its allocation. */
  function MeshSteps(meshes: seq<PhysicsMesh>, imageCount: nat, layout: Handle, pool: Handle,
                     allocs: seq<Allocation>): (steps: seq<Traced<PhysicsMesh>>)
    requires |allocs| == |meshes| && BuffersReady(meshes, allocs, imageCount)
    ensures |steps| == |meshes|
    ensures forall i :: 0 <= i < |meshes| ==>
      steps[i] == CreatePhysicsDescriptorSets(meshes[i], imageCount, layout, pool, allocs[i])
  {
    seq(|meshes|, i requires 0 <= i < |meshes| =>
      CreatePhysicsDescriptorSets(meshes[i], imageCount, layout, pool, allocs[i]))
  }

  /** A step raises exactly when the driver refused its allocation, so the
      loop stops at the first refusal, with the allocation error. */
  lemma StepsStopWhereRefused(meshes: seq<PhysicsMesh>, imageCount: nat, layout: Handle, pool: Handle,
                              allocs: seq<Allocation>, k: nat)
    requires |allocs| == |meshes| && BuffersReady(meshes, allocs, imageCount) && k <= |meshes|
    ensures var steps := MeshSteps(meshes, imageCount, layout, pool, allocs);
      var g := Granted(allocs, k);
      && FirstError(steps, k) == g
      && (g == k <==> AllGranted(allocs, k))
      && (g < k ==> steps[g].result == Err(DESCRIPTOR_ALLOCATION_FAILED))
  {
  }

  /** Reference for the call log: the calls of each of the first `n`
      steps, one after another. */
  function StepCalls(steps: seq<Traced<PhysicsMesh>>, n: nat): seq<DeviceCall>
    requires n <= |steps|
    decreases n
  {
    if n == 0 then [] else StepCalls(steps, n - 1) + steps[n - 1].calls
  }

  /** Where the loop of `createDescriptorSet` stands: the calls made, the
      meshes as they now are, and the exception that stopped it, if any. */
  datatype SetsRun = SetsRun(calls: seq<DeviceCall>, meshes: seq<PhysicsMesh>, failure: Option<string>)

  /** The first `k` iterations of `createDescriptorSet`, where `steps[i]` is
      what mesh `i`'s `createDescriptorSets` does: mesh after mesh, in list
      order, its calls are logged and the mesh is replaced by the result;
      the first step that raises ends the loop. `SetsForMeshesPrefix` and
      `SetsForMeshesCalls` state which meshes were replaced and which calls
      were made. */
  function CreateSetsForMeshes(meshes: seq<PhysicsMesh>, steps: seq<Traced<PhysicsMesh>>, k: nat): (r: SetsRun)
    requires |steps| == |meshes| && k <= |meshes|
    ensures |r.meshes| == |meshes|
    ensures r.failure.None? <==> FirstError(steps, k) == k
    ensures r.failure.Some? ==> r.failure == Some(steps[FirstError(steps, k)].result.msg)
    decreases k
  {
    if k == 0 then SetsRun([], meshes, None)
    else
      var prev := CreateSetsForMeshes(meshes, steps, k - 1);
      if prev.failure.Some? then prev
      else
        var step := steps[k - 1];
        match step.result
        case Err(msg) => SetsRun(prev.calls + step.calls, prev.meshes, Some(msg))
        case Ok(m) => SetsRun(prev.calls + step.calls, prev.meshes[k - 1 := m], None)
  }

  /** `after` is `meshes` with each of the first `g` meshes replaced by its
      step's result and the rest untouched. */
  predicate StepsApplied(meshes: seq<PhysicsMesh>, steps: seq<Traced<PhysicsMesh>>, after: seq<PhysicsMesh>, g: nat)
    requires |steps| == |meshes|
  {
    && |after| == |meshes| && g <= |meshes|
    && (forall i :: 0 <= i < g ==> steps[i].result.Ok? && after[i] == steps[i].result.value)
    && (forall i :: g <= i < |meshes| ==> after[i] == meshes[i])
  }

  /** After the first `k` iterations, the meshes before the first step that
      raised hold their results, and that mesh and every later one are as
      they were. */
  lemma {:induction false} SetsForMeshesPrefix(meshes: seq<PhysicsMesh>, steps: seq<Traced<PhysicsMesh>>, k: nat)
    requires |steps| == |meshes| && k <= |meshes|
    ensures StepsApplied(meshes, steps, CreateSetsForMeshes(meshes, steps, k).meshes, FirstError(steps, k))
    decreases k
  {
    if k > 0 {
      SetsForMeshesPrefix(meshes, steps, k - 1);
      var prev := CreateSetsForMeshes(meshes, steps, k - 1);
      if prev.failure.None? && steps[k - 1].result.Ok? {
        assert FirstError(steps, k) == k;
        ApplyNext(meshes, steps, prev.meshes, k);
      } else {
        assert FirstError(steps, k) == FirstError(steps, k - 1);
      }
    }
  }

  /** Replacing mesh `k - 1` by its step's result extends the applied
      prefix by one. */
  lemma ApplyNext(meshes: seq<PhysicsMesh>, steps: seq<Traced<PhysicsMesh>>, prevMeshes: seq<PhysicsMesh>, k: nat)
    requires 0 < k <= |meshes| && |steps| == |meshes| && steps[k - 1].result.Ok?
    requires StepsApplied(meshes, steps, prevMeshes, k - 1)
    ensures StepsApplied(meshes, steps, prevMeshes[k - 1 := steps[k - 1].result.value], k)
  {
  }

  /** After the first `k` iterations the log holds the calls of each step in
      list order, up to and including the first one that raised. */
  lemma {:induction false} SetsForMeshesCalls(meshes: seq<PhysicsMesh>, steps: seq<Traced<PhysicsMesh>>, k: nat)
    requires |steps| == |meshes| && k <= |meshes|
    ensures var g := FirstError(steps, k);
      CreateSetsForMeshes(meshes, steps, k).calls == StepCalls(steps, if g < k then g + 1 else k)
    decreases k
  {
    if k > 0 {
      SetsForMeshesCalls(meshes, steps, k - 1);
      if CreateSetsForMeshes(meshes, steps, k - 1).failure.None? {
        assert FirstError(steps, k - 1) == k - 1;
      } else {
        assert FirstError(steps, k) == FirstError(steps, k - 1);
      }
    }
  }

  /** A run over `n` meshes whose allocations were all granted asks for
      `n * imageCount` sets and fills `n * imageCount` uniform-buffer
      descriptors at each binding. */
  lemma MeshCallsDemand(meshes: seq<PhysicsMesh>, imageCount: nat, layout: Handle, pool: Handle,
                        allocs: seq<Allocation>, n: nat)
    requires n <= |meshes| && |allocs| == |meshes|
    requires BuffersReady(meshes, allocs, imageCount)
    requires AllGranted(allocs, n)
    ensures var calls := StepCalls(MeshSteps(meshes, imageCount, layout, pool, allocs), n);
      && SetsRequested(calls) == n * imageCount
      && DescriptorsWritten(calls, UniformBuffer, 0) == n * imageCount
      && DescriptorsWritten(calls, UniformBuffer, 1) == n * imageCount
  {
    var steps := MeshSteps(meshes, imageCount, layout, pool, allocs);
    forall i | 0 <= i < n
      ensures StepDemand(steps[i], imageCount)
    {
      assert steps[i] == CreatePhysicsDescriptorSets(meshes[i], imageCount, layout, pool,
                                                     Allocated(allocs[i].descriptorSet));
      PhysicsDescriptorDemand(meshes[i], imageCount, layout, pool, allocs[i].descriptorSet);
    }
    StepCallsDemand(steps, imageCount, n);
  }

  /** A step's calls ask for `imageCount` sets and fill `imageCount`
      uniform-buffer descriptors at each of the two bindings. */
  predicate StepDemand(step: Traced<PhysicsMesh>, imageCount: nat)
  {
    && SetsRequested(step.calls) == imageCount
    && DescriptorsWritten(step.calls, UniformBuffer, 0) == imageCount
    && DescriptorsWritten(step.calls, UniformBuffer, 1) == imageCount
  }

  /** `n` steps of `imageCount` each add up to `n * imageCount`. */
  lemma {:induction false} StepCallsDemand(steps: seq<Traced<PhysicsMesh>>, imageCount: nat, n: nat)
    requires n <= |steps|
    requires forall i :: 0 <= i < n ==> StepDemand(steps[i], imageCount)
    ensures var calls := StepCalls(steps, n);
      && SetsRequested(calls) == n * imageCount
      && DescriptorsWritten(calls, UniformBuffer, 0) == n * imageCount
      && DescriptorsWritten(calls, UniformBuffer, 1) == n * imageCount
    decreases n
  {
    if n > 0 {
      StepCallsDemand(steps, imageCount, n - 1);
      var before := StepCalls(steps, n - 1);
      assert StepDemand(steps[n - 1], imageCount);
      SetsRequestedAppend(before, steps[n - 1].calls);
      DescriptorsWrittenAppend(before, steps[n - 1].calls, UniformBuffer, 0);
      DescriptorsWrittenAppend(before, steps[n - 1].calls, UniformBuffer, 1);
      MulStep(n, imageCount);
    }
  }

  /** k groups of n are k - 1 groups plus one more. */
  lemma MulStep(k: nat, n: nat)
    requires k > 0
    ensures (k - 1) * n + n == k * n
  {
  }

  /** `createDescriptorSet`: the loop over the whole mesh list with the
      shader's own layout and pool. The meshes before the first refused
      allocation hold their new sets, that mesh and the later ones are
      untouched, and the log holds each mesh's calls in list order up to and
      including the refused one. */
  function CreateDescriptorSet(s: PhysicsShader, imageCount: nat, allocs: seq<Allocation>): (r: SetsRun)
    requires s.descriptorSetLayout.Some? && s.descriptorPool.Some?
    requires |allocs| == |s.meshes| && BuffersReady(s.meshes, allocs, imageCount)
    ensures |r.meshes| == |s.meshes|
    ensures r.failure.None? <==> AllGranted(allocs, |allocs|)
    ensures r.failure.Some? ==> r.failure == Some(DESCRIPTOR_ALLOCATION_FAILED)
    ensures var g := Granted(allocs, |allocs|);
      && (forall i :: 0 <= i < g ==> r.meshes[i] == WithSet(s.meshes[i], allocs[i].descriptorSet))
      && (forall i :: g <= i < |s.meshes| ==> r.meshes[i] == s.meshes[i])
      && r.calls == StepCalls(MeshSteps(s.meshes, imageCount, s.descriptorSetLayout.value, s.descriptorPool.value, allocs),
                              if g < |allocs| then g + 1 else |allocs|)
  {
    var layout, pool := s.descriptorSetLayout.value, s.descriptorPool.value;
    MeshLoopOutcome(s.meshes, imageCount, layout, pool, allocs);
    CreateSetsForMeshes(s.meshes, MeshSteps(s.meshes, imageCount, layout, pool, allocs), |s.meshes|)
  }

  /** The whole loop over `meshes`, in terms of the driver's answers. */
  lemma MeshLoopOutcome(meshes: seq<PhysicsMesh>, imageCount: nat, layout: Handle, pool: Handle, allocs: seq<Allocation>)
    requires |allocs| == |meshes| && BuffersReady(meshes, allocs, imageCount)
    ensures var r := CreateSetsForMeshes(meshes, MeshSteps(meshes, imageCount, layout, pool, allocs), |meshes|);
      var g := Granted(allocs, |allocs|);
      && (r.failure.None? <==> AllGranted(allocs, |allocs|))
      && (r.failure.Some? ==> r.failure == Some(DESCRIPTOR_ALLOCATION_FAILED))
      && (forall i :: 0 <= i < g ==> r.meshes[i] == WithSet(meshes[i], allocs[i].descriptorSet))
      && (forall i :: g <= i < |meshes| ==> r.meshes[i] == meshes[i])
      && r.calls == StepCalls(MeshSteps(meshes, imageCount, layout, pool, allocs), if g < |allocs| then g + 1 else |allocs|)
  {
    MeshLoopFailure(meshes, imageCount, layout, pool, allocs);
    MeshLoopMeshes(meshes, imageCount, layout, pool, allocs);
    MeshLoopCalls(meshes, imageCount, layout, pool, allocs);
  }

  /** The loop fails iff some allocation is refused, with the allocation
      error. */
  lemma MeshLoopFailure(meshes: seq<PhysicsMesh>, imageCount: nat, layout: Handle, pool: Handle, allocs: seq<Allocation>)
    requires |allocs| == |meshes| && BuffersReady(meshes, allocs, imageCount)
    ensures var r := CreateSetsForMeshes(meshes, MeshSteps(meshes, imageCount, layout, pool, allocs), |meshes|);
      && (r.failure.None? <==> AllGranted(allocs, |allocs|))
      && (r.failure.Some? ==> r.failure == Some(DESCRIPTOR_ALLOCATION_FAILED))
  {
    StepsStopWhereRefused(meshes, imageCount, layout, pool, allocs, |meshes|);
  }

  /** The meshes before the first refusal hold their sets; the rest are
      untouched. */
  lemma MeshLoopMeshes(meshes: seq<PhysicsMesh>, imageCount: nat, layout: Handle, pool: Handle, allocs: seq<Allocation>)
    requires |allocs| == |meshes| && BuffersReady(meshes, allocs, imageCount)
    ensures var r := CreateSetsForMeshes(meshes, MeshSteps(meshes, imageCount, layout, pool, allocs), |meshes|);
      var g := Granted(allocs, |allocs|);
      && (forall i :: 0 <= i < g ==> r.meshes[i] == WithSet(meshes[i], allocs[i].descriptorSet))
      && (forall i :: g <= i < |meshes| ==> r.meshes[i] == meshes[i])
  {
    var steps := MeshSteps(meshes, imageCount, layout, pool, allocs);
    SetsForMeshesPrefix(meshes, steps, |meshes|);
    StepsStopWhereRefused(meshes, imageCount, layout, pool, allocs, |meshes|);
    GrantedMeshesHoldSets(meshes, imageCount, layout, pool, allocs,
                          CreateSetsForMeshes(meshes, steps, |meshes|).meshes, Granted(allocs, |allocs|));
  }

  /** The log is each mesh's calls, up to and including the first refusal. */
  lemma MeshLoopCalls(meshes: seq<PhysicsMesh>, imageCount: nat, layout: Handle, pool: Handle, allocs: seq<Allocation>)
    requires |allocs| == |meshes| && BuffersReady(meshes, allocs, imageCount)
    ensures var steps := MeshSteps(meshes, imageCount, layout, pool, allocs);
      var g := Granted(allocs, |allocs|);
      CreateSetsForMeshes(meshes, steps, |meshes|).calls == StepCalls(steps, if g < |allocs| then g + 1 else |allocs|)
  {
    var steps := MeshSteps(meshes, imageCount, layout, pool, allocs);
    var g := Granted(allocs, |allocs|);
    SetsForMeshesCalls(meshes, steps, |meshes|);
    StepsStopWhereRefused(meshes, imageCount, layout, pool, allocs, |meshes|);
    var n := if g < |allocs| then g + 1 else |allocs|;
    assert n == (var e := FirstError(steps, |meshes|); if e < |meshes| then e + 1 else |meshes|);
    assert CreateSetsForMeshes(meshes, steps, |meshes|).calls == StepCalls(steps, n);
  }

  /** When the driver refuses allocations, no mesh needs buffers: the loop
      stops after the first mesh's one request with the allocation error,
      and every mesh is left as it was. */
  lemma RefusedFirstAllocationThrowsCleanly(s: PhysicsShader, imageCount: nat, allocs: seq<Allocation>)
    requires s.descriptorSetLayout.Some? && s.descriptorPool.Some?
    requires |allocs| == |s.meshes| > 0
    requires forall i :: 0 <= i < |allocs| ==> allocs[i].AllocationFailed?
    ensures BuffersReady(s.meshes, allocs, imageCount)
    ensures var r := CreateDescriptorSet(s, imageCount, allocs);
      && r.failure == Some(DESCRIPTOR_ALLOCATION_FAILED)
      && r.meshes == s.meshes
      && r.calls == [AllocationRequest(s.descriptorPool.value, s.descriptorSetLayout.value, imageCount)]
  {
    var steps := MeshSteps(s.meshes, imageCount, s.descriptorSetLayout.value, s.descriptorPool.value, allocs);
    assert allocs[0].AllocationFailed?;
    assert Granted(allocs, |allocs|) == 0;
    assert StepCalls(steps, 1) == steps[0].calls;
    var r := CreateDescriptorSet(s, imageCount, allocs);
    assert r.meshes == s.meshes;
  }

  /** A mesh whose allocation was granted holds the granted set. */
  lemma GrantedMeshesHoldSets(meshes: seq<PhysicsMesh>, imageCount: nat, layout: Handle, pool: Handle,
                              allocs: seq<Allocation>, after: seq<PhysicsMesh>, g: nat)
    requires |allocs| == |meshes| && BuffersReady(meshes, allocs, imageCount) && g <= |meshes|
    requires AllGranted(allocs, g)
    requires StepsApplied(meshes, MeshSteps(meshes, imageCount, layout, pool, allocs), after, g)
    ensures forall i :: 0 <= i < g ==> after[i] == WithSet(meshes[i], allocs[i].descriptorSet)
    ensures forall i :: g <= i < |meshes| ==> after[i] == meshes[i]
  {
    var steps := MeshSteps(meshes, imageCount, layout, pool, allocs);
    forall i | 0 <= i < g
      ensures after[i] == WithSet(meshes[i], allocs[i].descriptorSet)
    {
      assert steps[i] == CreatePhysicsDescriptorSets(meshes[i], imageCount, layout, pool, allocs[i]);
    }
  }

  /** Each image's two writes go to the layout's two bindings, with the
      binding's descriptor type and count. */
  lemma LitWritesMatchLayout(dset: Handle, uniformBuffers: seq<Handle>, lightBuffers: seq<Handle>, i: nat)
    requires i < |uniformBuffers| && i < |lightBuffers|
    ensures var ws := LitWrites(dset, uniformBuffers, lightBuffers, i);
      forall j :: 0 <= j < 2 ==>
        && ws[j].dstBinding == LAYOUT_BINDINGS[j].binding
        && ws[j].descriptorType == LAYOUT_BINDINGS[j].descriptorType
        && ws[j].descriptorCount == LAYOUT_BINDINGS[j].descriptorCount
  {
  }

  /** The pool exactly covers what the meshes use: when the pool was sized
      for the same number of swap images the sets are created for, and the
      product fits in 32 bits, a run in which every allocation succeeds asks
      for exactly `maxSets` sets, and fills exactly the pool's
      uniform-buffer capacity, one pool size per binding. */
  lemma PoolCoversDescriptorDemand(s: PhysicsShader, imageCount: nat, allocs: seq<Allocation>)
    requires s.descriptorSetLayout.Some? && s.descriptorPool.Some?
    requires |allocs| == |s.meshes| && BuffersReady(s.meshes, allocs, imageCount)
    requires AllGranted(allocs, |allocs|)
    requires imageCount * |s.meshes| < TWO_POW_32
    ensures var info := DescriptorPoolInfo(s, imageCount);
      var run := CreateDescriptorSet(s, imageCount, allocs);
      && run.failure.None?
      && SetsRequested(run.calls) == info.maxSets
      && DescriptorsWritten(run.calls, UniformBuffer, 0) == info.poolSizes[0].descriptorCount
      && DescriptorsWritten(run.calls, UniformBuffer, 1) == info.poolSizes[1].descriptorCount
  {
    MeshCallsDemand(s.meshes, imageCount, s.descriptorSetLayout.value, s.descriptorPool.value, allocs, |allocs|);
    assert |s.meshes| * imageCount == imageCount * |s.meshes|;
  }
}
