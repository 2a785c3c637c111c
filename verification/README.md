# VulkanEngine renderer core, modelled in Dafny

This project models the sequential decision logic of the VulkanEngine
renderer:

- **Instance setup** (`Renderer`): the validation-layer check, the
  required-extension list, the `VkInstanceCreateInfo` the renderer fills in,
  the debug-messenger helpers, queue-family completeness, the built-in quad
  geometry, the resize flag, and the order of `run`, `cleanup` and the
  destructor.
- **Mesh bookkeeping** (`Mesh`, `PhysicsMesh`): the constructors, including
  OBJ flattening; the model-matrix transforms and the uniform block kept in
  step with them; index appends; the vertex input tables; one uniform buffer
  and one light buffer per swap image; the per-image descriptor writes; and
  light data copied from a `DirectionalLight`.
- **Descriptor plumbing** (`PhysicsShader`): the shader's mesh list, its
  two-binding descriptor-set layout, the descriptor pool sized from the
  swap-chain length and the mesh count, and the loop that gives every mesh its
  descriptor sets.

How the model represents the world outside the code:

- Nothing talks to a GPU or a window system.
- The GLFW and Vulkan calls that create, enumerate, look up, poll, destroy
  or terminate something, and the descriptor-set calls, are appended to a
  call log. `Instance.Call` covers instance and window calls.
  `Vk.DeviceCall` covers descriptor calls. Calls that only read state or
  map memory are not logged (see Left out).
- What the driver or loader answers is a parameter (the one exception,
  window creation, is under Left out):
  - `Vk.Creation` for `vkCreate*`;
  - `Vk.Allocation` for `vkAllocateDescriptorSets`;
  - an entry-point table for `vkGetInstanceProcAddr`;
  - `Obj.ObjLoad` for `tinyobj::LoadObj`.
- Driver objects are opaque `Handle`s. A `HandleSource` issues them, and it
  never issues the same handle twice.
- Host-visible memory is a map from memory handle to the block last copied
  into it.
- Float members are `real` labels that are copied, never computed on.
- A GLM matrix is the symbolic term of the calls that built it (`Geometry.Mat4`).
- `sizeof` and `offsetof` are symbolic, because the byte layout depends on
  GLM's alignment settings.
- The build switch `enableVailidationLayers` (on unless `NDEBUG`) is the
  parameter `validation`.
- `static_cast<uint32_t>` is `Types.ToU32`, which reduces modulo 2^32.

Modules, one per source component:

| module | file | source |
|---|---|---|
| `Types` | types.dfy | options, results, handles, the 32-bit cast |
| `Vk` | vk.dfy | descriptor vocabulary and the counting of sets and descriptors in a call log |
| `Geometry` | geometry.dfy | vectors, `Vertex`, matrices, `BasicUBO` |
| `VertexLayout` | vertex_layout.dfy | the vertex binding and attribute tables of Mesh.hpp and Renderer.hpp |
| `Instance` | instance.dfy | instance setup and the small helpers of Renderer.hpp |
| `Lifecycle` | lifecycle.dfy | `run`, `initVulkan`, `mainLoop`, `cleanup`, the destructor |
| `Obj` | obj.dfy | the OBJ flattening loops of `Mesh(std::string)` |
| `Meshes` | mesh.dfy | `Mesh` |
| `Lights` | lights.dfy | `DirectionalLight` |
| `PhysicsMeshes` | physics_mesh.dfy | `PhysicsMesh` |
| `PhysicsShaders` | physics_shader.dfy | `PhysicsShader` |

Points where the model departs from the code, or makes a choice the code
leaves open:

- `Instance.CreateInstance` hands the driver the create-info as written, so
  a release build asks for an instance with no extension enabled
  (`Lifecycle.ReleaseStartRequestsNoExtensions`). `Instance.CreateInstanceIntended`
  is the same function with the corrected create-info; see Findings.
- `setupDebugMessenger` is modelled, but `initVulkan` never calls it. So in
  the lifetime the messenger is never created, and `cleanup` only looks up
  the destroy function.
- Both debug helpers look up entry points spelled with a trailing `Ext`.
  The Vulkan registry spells these names with `EXT`. A loader that matches
  names exactly reports neither, so the create helper returns
  `VK_ERROR_EXTENSION_NOT_PRESENT`. The model keeps the spelling and lets
  the entry-point table decide.
- `Mesh::createDescriptorSets` reads the texture's image view and sampler
  in every loop iteration but never writes them. It dereferences the
  texture only there, so `Meshes.CreateDescriptorSets` requires a texture
  only when the allocation succeeds and there is at least one swap image.
- The physics version has those lines commented out and needs no texture.
- A physics-mesh copy has no light buffers. A mesh held by a
  `PhysicsShader` needs `createLightingUBOBuffers` before
  `createDescriptorSet` only if its set allocation is granted: a refused
  allocation raises before any buffer is read. `PhysicsShaders.BuffersReady`
  states that precondition for the granted meshes only.
- The window's deleter (`glfwDestroyWindow`) runs after `cleanup` has
  already called `glfwTerminate`. The model logs it in that order.
- A `PhysicsMesh` is its `Mesh` part (`base`) plus the light members. The
  members it inherits (transforms, `setIndices`, `createUniformBuffers`,
  `updateUniformBuffer`) are the `Meshes` functions applied to `base`.

## Model

| member | source | states |
|---|---|---|
| `Types.ToU32` | Renderer/src/Shaders/PhysicsShader.cpp:60-61 | the 32-bit cast keeps values below 2^32 and otherwise agrees with its argument modulo 2^32 |
| `Vk.AllocationRequest` | Renderer/src/Mesh.cpp:146-153 | the allocation asks the given pool for `count` sets, every one with the same layout |
| `VertexLayout.GetBindingDescription` | Renderer/include/Mesh.hpp:28-35 | one binding, number 0, per-vertex rate, stride the size of `Vertex` |
| `VertexLayout.AttributesPosCol` | Renderer/include/Mesh.hpp:37-54 | two entries; entry i is at location i of binding 0, points at the i-th field (pos, color), and its format has as many components as the field |
| `VertexLayout.AttributesPosColTex` | Renderer/include/Mesh.hpp:56-81 | three well-formed entries for pos, color, texCoord; texCoord reads two components |
| `VertexLayout.AttributesPosColTexNormal` | Renderer/include/Mesh.hpp:83-114 | four well-formed entries for pos, color, texCoord, normal at locations 0..3 |
| `VertexLayout.TablesArePrefixes` | Renderer/include/Mesh.hpp:37-114 | each longer table starts with the shorter one, entry for entry |
| `VertexLayout.AttributesMatchBinding` | Renderer/include/Mesh.hpp:28-114 | for every `VertexData` variant the table is well formed and every attribute reads the one declared binding |
| `VertexLayout.RendererAttributes` | Renderer/include/Renderer.hpp:48-69 | three entries at locations 0, 1, 2 of binding 0 pointing at pos, color, texCoord in order, all with the 3-component format |
| `VertexLayout.RendererBindingDescription` | Renderer/include/Renderer.hpp:40-47 | binding 0, per-vertex, stride the size of that file's `Vertex` |
| `VertexLayout.RendererTexCoordOverreads` | Renderer/include/Renderer.hpp:63-66 | the texCoord entry reads one component more than the two-float field holds, so the table is not well formed |
| `VertexLayout.CorrectedTexCoordTable` | Renderer/include/Mesh.hpp:71-75 | the Mesh.hpp table agrees with the Renderer.hpp one except the texCoord format, which is the 2-component one, and is well formed |
| `Instance.CheckValidationLayerSupport` | Renderer/src/Renderer.cpp:81-101 | true iff every requested layer is available; the scan stops right after the first missing name, all names before it being available; an empty request yields true |
| `Instance.RequiredExtensions` | Renderer/src/Renderer.cpp:103-115 | the window system's list in its order, followed by the debug-utils name exactly when validation is on |
| `Instance.DebugUtilsRequiredIffValidation` | Renderer/src/Renderer.cpp:110-112 | when the window system does not list debug utils itself, the name is present iff validation is on |
| `Instance.DebugMessengerCreateInfo` | Renderer/src/Renderer.cpp:116-127 | verbose, warning and error severities (not info) and all three message types |
| `Instance.InstanceCreateInfoAsWritten` | Renderer/src/Renderer.cpp:38-62 | as written: validation on enables the validation layer and all extensions and chains the messenger info; validation off enables no layer, no extension and chains nothing |
| `Instance.ReleaseBuildDropsWindowExtensions` | Renderer/src/Renderer.cpp:59-62 | as written, a release build enables none of a non-empty list of window-system extensions |
| `Instance.InstanceCreateInfoIntended` | Renderer/src/Renderer.cpp:49-62 | corrected: every required extension is enabled in both builds, layers and the messenger chain only with validation |
| `Instance.IntendedDiffersOnlyInReleaseExtensionCount` | Renderer/src/Renderer.cpp:50-62 | the corrected create-info equals the as-written one with validation on, and differs only in the extension count with it off |
| `Instance.CreateInstance` | Renderer/src/Renderer.cpp:34-79 | as written: raises the layer error iff validation is on and a layer is missing, and then creates nothing; otherwise the last call hands the driver the as-written create-info, success iff the driver creates the instance; layers are enumerated iff validation is on; the only calls are layer enumeration, the extension query and the create call |
| `Instance.CreateInstanceIntended` | Renderer/src/Renderer.cpp:34-79 | corrected: the same outcomes, and the create call enables exactly the required extensions, with counts that match the lists |
| `Instance.IntendedInstanceDiffersOnlyInCreateInfo` | Renderer/src/Renderer.cpp:49-62 | the corrected and the as-written function make the same number of calls with the same outcome; the calls differ only at the create call, and not at all with validation on |
| `Instance.CreateDebugUtilsMessengerExt` | Renderer/include/Renderer.hpp:84-95 | looks the entry point up first; invokes it and returns its result iff found, otherwise returns `VK_ERROR_EXTENSION_NOT_PRESENT` without invoking anything |
| `Instance.DestroyDebugUtilsMessengerExt` | Renderer/include/Renderer.hpp:97-103 | the only call is the lookup; nothing is invoked |
| `Instance.SetupDebugMessenger` | Renderer/src/Renderer.cpp:130-139 | no calls when validation is off; otherwise the create helper's calls; a messenger exists iff validation is on and the create entry point succeeds |
| `Instance.SetupDebugMessengerNeverAborts` | Renderer/src/Renderer.cpp:136-138 | a failed creation adds no error path: the calls are the lookup, then the invocation when the entry point exists |
| `Instance.CompletenessNeedsBothFamilies` | Renderer/include/Renderer.hpp:110-112 | a record missing either family is incomplete, and setting both completes any record |
| `Instance.QuadIsTriangleList` | Renderer/include/Renderer.hpp:221-232 | 8 vertices and 12 indices, a multiple of 3, each index below 8 and within 16 bits |
| `Instance.SetFrameBufferResized` | Renderer/include/Renderer.hpp:317 | the flag takes the given value |
| `Instance.FramebufferResizeCallback` | Renderer/include/Renderer.hpp:352-356 | after the callback the resize flag is set |
| `Instance.ResizeCallbackIgnoresSize` | Renderer/include/Renderer.hpp:352-356 | the result does not depend on the reported width and height, and a repeated notification changes nothing |
| `Lifecycle.InitVulkan` | Renderer/src/Renderer.cpp:14-25 | the window calls (init, two hints, an 800x600 window titled "Vulkan") come first, and the rest of the log is exactly instance creation's calls; the outcome is that of instance creation |
| `Lifecycle.MainLoop` | Renderer/src/Renderer.cpp:27-32 | one event poll per loop iteration and nothing else |
| `Lifecycle.Cleanup` | Renderer/src/Renderer.cpp:142-149 | the messenger helper only with validation, then the instance is destroyed, then GLFW terminated |
| `Lifecycle.CleanupReleasesOnce` | Renderer/src/Renderer.cpp:142-149 | one cleanup destroys the instance once and terminates GLFW once |
| `Lifecycle.Destructor` | Renderer/src/Renderer.cpp:151-153 | the destructor repeats the whole cleanup, then the window deleter runs |
| `Lifecycle.RunAfterStart` | Renderer/src/Renderer.cpp:8-12 | after a start-up, its calls come first; after a successful one, one poll per frame follows; the last call is the window deleter; the length counts the loop, `run`'s cleanup only after a successful start, and the destructor's cleanup |
| `Lifecycle.Lifetime` | Renderer/src/Renderer.cpp:8-12 | construct, `run`, destroy: the start-up calls come first, then the polls when the start succeeded, and the window deleter comes last |
| `Lifecycle.ReleaseStartRequestsNoExtensions` | Renderer/src/Renderer.cpp:59-62 | as written, a release build's start-up ends by asking for an instance with no extension enabled, whatever the window system requires |
| `Lifecycle.InitCallsDestroyNothing` | Renderer/src/Renderer.cpp:14-25 | initialisation neither destroys the instance nor terminates GLFW |
| `Lifecycle.MainLoopDestroysNothing` | Renderer/src/Renderer.cpp:27-32 | the render loop neither destroys the instance nor terminates GLFW |
| `Lifecycle.CleanupRunsTwice` | Renderer/src/Renderer.cpp:8-12 | as written: after a successful start, `run` and the destructor together destroy the instance twice and terminate GLFW twice; after a failed start the never-created instance is still destroyed once |
| `Lifecycle.CleanupRunsTwiceAfterStart` | Renderer/src/Renderer.cpp:8-12 | as written, for any start-up that released nothing itself: the instance is destroyed and GLFW terminated twice after a successful start, the instance once after a failed one |
| `Lifecycle.GuardedCleanup` | Renderer/src/Renderer.cpp:142-149 | corrected: a second call does nothing; a first call terminates GLFW once and destroys the instance once iff one was created |
| `Lifecycle.GuardedRunAfterStart` | Renderer/src/Renderer.cpp:8-12 | corrected: the start-up calls come first and the window deleter last |
| `Lifecycle.GuardedLifetimeReleasesOnce` | Renderer/src/Renderer.cpp:8-12 | corrected: over a whole lifetime the instance is destroyed once iff it was created, and GLFW is terminated exactly once |
| `Lifecycle.GuardedReleasesOnceAfterStart` | Renderer/src/Renderer.cpp:142-153 | corrected, for any start-up that released nothing itself: the instance is destroyed once iff it was created, GLFW terminated once |
| `Obj.VertexOf` | Renderer/src/Mesh.cpp:46-58 | position and normal are the three floats at three times the record's index; the texture pair is the stored U and one minus the stored V; the colour is white |
| `Obj.Flatten` | Renderer/src/Mesh.cpp:44-63 | one vertex per index record, shape after shape, built from the record's position, flipped texture pair and normal with a white colour; index k is k cast to 32 bits, hence k itself while the count fits |
| `Obj.RecordsLength` | Renderer/src/Mesh.cpp:44-62 | the number of index records visited, hence of flattened vertices, is the sum of the shapes' index counts |
| `Meshes.NewMesh` | Renderer/src/Mesh.cpp:6 | no geometry, no buffers, no descriptor set or texture, identity model |
| `Meshes.MeshFromVertices` | Renderer/src/Mesh.cpp:26-31 | the given vertices in order, no indices, otherwise the default mesh |
| `Meshes.MeshFromObj` | Renderer/src/Mesh.cpp:33-65 | a failed load raises warn followed by err; otherwise the flattened geometry on a default mesh |
| `Meshes.CopyMesh` | Renderer/src/Mesh.cpp:8-24 | the copy equals the original in every member; the texture is the same object, not a duplicate |
| `Meshes.WithModel` | Renderer/src/Mesh.cpp:67-80 | the model gains one GLM step, the block's model equals the new model, and nothing else changes |
| `Meshes.Translate` | Renderer/src/Mesh.cpp:67-70 | model := model composed with the translation; the block's model follows |
| `Meshes.Rotate` | Renderer/src/Mesh.cpp:72-75 | model := model composed with a 90-degree rotation about the axis; the block's model follows |
| `Meshes.Scale` | Renderer/src/Mesh.cpp:77-80 | model := model composed with the scaling; the block's model follows |
| `Meshes.TransformsKeepUboInSync` | Renderer/src/Mesh.cpp:67-80 | any sequence of transform calls composes its steps in call order, leaves the block's model equal to the model, and touches nothing else |
| `Meshes.SetIndices` | Renderer/src/Mesh.cpp:221-225 | the new indices are the old ones followed by the argument; nothing else changes |
| `Meshes.SetIndicesAccumulates` | Renderer/src/Mesh.cpp:221-225 | two appends equal one append of the concatenation |
| `Meshes.SetTexture` | Renderer/include/Mesh.hpp:156 | the held texture is replaced; nothing else changes |
| `Meshes.CreateBuffer` | Renderer/src/Mesh.cpp:195-199 | one buffer and one memory handle, both fresh and distinct |
| `Meshes.CreatePerImageBuffers` | Renderer/src/Mesh.cpp:191-200 | exactly one buffer and one memory per swap image, all fresh, pairwise distinct, no buffer equal to any memory |
| `Meshes.CreateUniformBuffers` | Renderer/src/Mesh.cpp:186-201 | both uniform vectors get one fresh distinct handle per swap image, replacing their old contents; nothing else changes |
| `Meshes.UpdateUniformBuffer` | Renderer/src/Mesh.cpp:203-219 | the block becomes (model, camera view, projection of the extent) and is copied into the memory of image `currentImage` only; every other memory keeps its contents |
| `Meshes.UboWriteCalls` | Renderer/src/Mesh.cpp:160-183 | one update per image i, writing uniform buffer i into binding 0 with the size of `BasicUBO`; n descriptors at binding 0, no sets requested |
| `Meshes.CreateDescriptorSets` | Renderer/src/Mesh.cpp:142-184 | requests one set per image; a failed allocation raises before any write and needs no texture; otherwise one write per image i to binding 0 from uniform buffer i |
| `Lights.DefaultDirectionalLight` | Renderer/src/DirectionalLight.cpp:3-5 | direction (1, 1, 0), white colour, ambient 0.4, diffuse 0.6 |
| `Lights.NewDirectionalLight` | Renderer/src/DirectionalLight.cpp:7-10 | each argument lands in its own member although the argument order differs from the member order |
| `Lights.ConstructorInvertsGetters` | Renderer/include/DirectionalLight.hpp:13-16 | the explicit constructor applied to a light's getters rebuilds the light; the default light is one such light |
| `PhysicsMeshes.NewPhysicsMesh` | Renderer/include/PhysicsMesh.hpp:25-30 | the default mesh with all four light members zero and no light buffers |
| `PhysicsMeshes.PhysicsMeshFromVertices` | Renderer/include/PhysicsMesh.hpp:32-37 | the vector-constructed mesh with zeroed light members |
| `PhysicsMeshes.PhysicsMeshFromObj` | Renderer/include/PhysicsMesh.hpp:38-43 | the OBJ constructor's error or flattened geometry on an otherwise default mesh, with zeroed light members |
| `PhysicsMeshes.CopyPhysicsMesh` | Renderer/src/PhysicsMesh.cpp:3-26 | the copy keeps every mesh member and all four light members, and starts with no light buffers |
| `PhysicsMeshes.CopyDropsOnlyLightBuffers` | Renderer/src/PhysicsMesh.cpp:3-26 | copying is idempotent, and a copy equals its original iff the original has no light buffers |
| `PhysicsMeshes.CreateLightingUboBuffers` | Renderer/src/PhysicsMesh.cpp:91-107 | both light vectors get one fresh distinct handle per swap image; nothing else changes |
| `PhysicsMeshes.LightBlock` | Renderer/src/PhysicsMesh.cpp:111-114 | colour and direction are the light's with w = 1; both intensities are copied unchanged |
| `PhysicsMeshes.SetLightingUboBuffers` | Renderer/src/PhysicsMesh.cpp:109-123 | the mesh's light block becomes the light's and is copied into light memory `currentImage` only; nothing else changes |
| `PhysicsMeshes.DefaultLightBlock` | Renderer/src/PhysicsMesh.cpp:111-114 | the default light is stored as ambient 0.4, diffuse 0.6, colour (1, 1, 1, 1), direction (1, 1, 0, 1) |
| `PhysicsMeshes.LitWrites` | Renderer/src/PhysicsMesh.cpp:46-83 | two writes per image: one uniform-buffer descriptor at binding 0 and one at binding 1 |
| `PhysicsMeshes.LitWriteCalls` | Renderer/src/PhysicsMesh.cpp:46-88 | one update per image carrying both writes together; n descriptors at each binding, no sets requested |
| `PhysicsMeshes.CreatePhysicsDescriptorSets` | Renderer/src/PhysicsMesh.cpp:28-89 | one set per image; a failed allocation raises before any write and needs no buffers; otherwise image i writes uniform buffer i (size of `BasicUBO`) to binding 0 and light buffer i (size of `DirectionalLightStruct`) to binding 1 |
| `PhysicsMeshes.PhysicsDescriptorDemand` | Renderer/src/PhysicsMesh.cpp:32-88 | a successful run asks for n sets and fills n uniform-buffer descriptors at each binding and no image samplers |
| `PhysicsMeshes.NoSamplerWrites` | Renderer/src/PhysicsMesh.cpp:57-62 | no combined image sampler is written at any binding |
| `PhysicsShaders.NewPhysicsShader` | Renderer/src/Shaders/PhysicsShader.cpp:3-11 | no meshes, nothing created, the platform's physics shader paths |
| `PhysicsShaders.ShaderPathsDistinct` | Renderer/src/Shaders/PhysicsShader.cpp:4-10 | the vertex and fragment paths differ on each platform, and each path differs between platforms |
| `PhysicsShaders.PhysicsShaderFromMeshes` | Renderer/src/Shaders/PhysicsShader.cpp:13-25 | one copy of each given mesh, in the given order, otherwise the default shader |
| `PhysicsShaders.AddMesh` | Renderer/src/Shaders/PhysicsShader.cpp:88-90 | a copy is appended at the end; the existing meshes and all other members are unchanged |
| `PhysicsShaders.ListConstructorIsRepeatedAdd` | Renderer/src/Shaders/PhysicsShader.cpp:13-17 | the list constructor equals the default constructor followed by one `addMesh` per mesh in order |
| `PhysicsShaders.CreateDescriptorSetLayout` | Renderer/src/Shaders/PhysicsShader.cpp:27-54 | one create call with the two bindings; the layout is kept on success, the layout error is raised otherwise |
| `PhysicsShaders.DescriptorPoolInfo` | Renderer/src/Shaders/PhysicsShader.cpp:56-72 | two uniform-buffer pool sizes, each equal to `maxSets`, which is swap-chain size times mesh count modulo 2^32 |
| `PhysicsShaders.CreateDescriptorPool` | Renderer/src/Shaders/PhysicsShader.cpp:56-78 | one create call with that pool info; the pool is kept on success, the pool error is raised otherwise |
| `PhysicsShaders.Granted` | Renderer/src/Shaders/PhysicsShader.cpp:80-86 | the first refused allocation among the first k, or k: every allocation before it was granted, and it was refused |
| `PhysicsShaders.CreateSetsForMeshes` | Renderer/src/Shaders/PhysicsShader.cpp:80-86 | the first k iterations fail iff some step among them raised, and then with the first such step's error; the mesh list keeps its length |
| `PhysicsShaders.SetsForMeshesPrefix` | Renderer/src/Shaders/PhysicsShader.cpp:80-86 | after k iterations each mesh before the first step that raised is replaced by its step's result, and that mesh and every later one are untouched |
| `PhysicsShaders.SetsForMeshesCalls` | Renderer/src/Shaders/PhysicsShader.cpp:80-86 | after k iterations the log is each step's calls in list order, up to and including the first step that raised |
| `PhysicsShaders.StepsStopWhereRefused` | Renderer/src/Shaders/PhysicsShader.cpp:80-86 | with the meshes' own `createDescriptorSets` as steps, and buffers only for the meshes whose allocation is granted, the first step to raise is the first refused allocation, and it raises the allocation error |
| `PhysicsShaders.MeshCallsDemand` | Renderer/src/Shaders/PhysicsShader.cpp:80-86 | n meshes whose allocations were all granted request n*imageCount sets and write n*imageCount descriptors at each binding |
| `PhysicsShaders.CreateDescriptorSet` | Renderer/src/Shaders/PhysicsShader.cpp:80-86 | needs buffers only for meshes whose allocation is granted; succeeds iff every allocation is granted, else raises the allocation error; the meshes before the first refusal hold their granted sets and the rest are untouched; the log is each mesh's `createDescriptorSets` calls in list order, up to and including the refused one |
| `PhysicsShaders.LitWritesMatchLayout` | Renderer/src/Shaders/PhysicsShader.cpp:27-44 | each image's two writes target the layout's two bindings with its descriptor type and count |
| `PhysicsShaders.RefusedFirstAllocationThrowsCleanly` | Renderer/src/PhysicsMesh.cpp:41-44 | when every allocation is refused, meshes without any buffers are accepted; the loop makes the first mesh's one request, raises the allocation error and leaves every mesh as it was |
| `PhysicsShaders.PoolCoversDescriptorDemand` | Renderer/src/Shaders/PhysicsShader.cpp:56-72 | when the pool is sized for the same image count and the product fits in 32 bits, a fully successful run asks for exactly `maxSets` sets and fills exactly each pool size, one per binding |

## Left out

- Swapchain, render passes, pipelines, command buffers, synchronisation,
  memory-type selection and depth formats. Renderer.hpp declares them but
  gives them no bodies, so there is no behaviour to model.
- `Mesh::createVertexBuffer` and `Mesh::createIndexBuffer`. They are staging
  uploads through `createBuffer`/`copyBuffer` of the helper header utils.hpp,
  which is not part of this model. The model keeps the buffer handles as
  members only.
- Buffer creation (`createBuffer` in utils.hpp) is assumed to succeed and to
  return fresh handles. Mapping, `memcpy` and unmapping are one map update.
- GLM arithmetic. Translate, rotate, scale, the perspective projection and
  its Y flip are symbolic terms. The OBJ `1 - v` flip is exact real
  subtraction, with no float rounding.
- Window creation: the model assumes `glfwCreateWindow` (Renderer.cpp:21)
  returns a window, and the destructor's deleter always runs. A NULL
  window, which the `unique_ptr` deleter (Renderer.hpp:347-349) would then
  skip and `mainLoop` would pass to `glfwWindowShouldClose`, is not
  modelled. `glfwInit`'s result, which the source ignores, is not modelled either.
- `Lifecycle.MainLoop`: the window-close condition comes from GLFW. The
  number of loop iterations is a parameter.
- The debug callback's printing, `src/main.cpp` (console output and exit
  codes), Camera (the view matrix is a parameter), Texture.cpp (image
  decoding and uploads), and the ShaderBase stubs and headers.
- The getters (`getVertices`, `getIndices`, `getModel`, `getMeshes`, the
  light getters, ...) are plain field reads of the immutable records. They
  need no member of their own.
- Ownership defects of the C++ copies: `texture.reset(other.texture.get())`
  makes two `unique_ptr`s own one texture. The model treats the texture as a
  shared handle, so the double release is not modelled.
- `Meshes.CreateDescriptorSets` and `PhysicsMeshes.CreatePhysicsDescriptorSets`:
  the source allocates n sets into a single `VkDescriptorSet`, which
  overflows for n > 1. The model returns one handle per mesh and writes
  every image's descriptors into it, as the source's loop does.
- `Vk.AllocationRequest`: the request count is the image count itself. The
  source casts it to 32 bits, and the model assumes the swap-chain length
  fits.
- Calls that are not logged: `glfwWindowShouldClose` (Renderer.cpp:28)
  is replaced by the frame count; `glfwGetWindowUserPointer`
  (Renderer.hpp:354) is replaced by passing the renderer's state to the
  callback; `vkMapMemory`/`vkUnmapMemory` (Mesh.cpp:215-218,
  PhysicsMesh.cpp:119-122) are folded into one update of the memory map.
- `deviceExtensions` and `MAX_FRAMES_IN_FLIGHT` (Renderer.hpp:142-143) are
  declared, but no modelled code uses them.
- `Obj.Flatten` requires every index record to point inside the attribute
  arrays. The source indexes without checking, and the loader's negative
  "missing" indices (-1) are not modelled.

## Findings

| source | as written | input that shows it | evidently intended | confidence | as-written member | corrected member |
|---|---|---|---|---|---|---|
| Renderer/src/Renderer.cpp:59-62 | with validation off, the `else` branch sets `enabledExtensionCount = 0` (the layer count is already 0) | a release build (`NDEBUG`) on any window system that requires e.g. `VK_KHR_surface`: the instance is created with no extensions, so no surface can be made | zero `enabledLayerCount` and keep every required extension enabled | not executed | `Instance.InstanceCreateInfoAsWritten`, `Instance.ReleaseBuildDropsWindowExtensions`, `Instance.CreateInstance`, `Lifecycle.ReleaseStartRequestsNoExtensions` | `Instance.InstanceCreateInfoIntended`, `Instance.IntendedDiffersOnlyInReleaseExtensionCount`, `Instance.CreateInstanceIntended`, `Instance.IntendedInstanceDiffersOnlyInCreateInfo` |
| Renderer/include/Renderer.hpp:65 | the `texCoord` attribute (a `glm::vec2`) is declared `VK_FORMAT_R32G32B32_SFLOAT` | any draw with this table: location 2 reads three floats where the field holds two | `VK_FORMAT_R32G32_SFLOAT`, as Mesh.hpp:74 declares it | not executed | `VertexLayout.RendererAttributes`, `VertexLayout.RendererTexCoordOverreads` | `VertexLayout.AttributesPosColTex`, `VertexLayout.CorrectedTexCoordTable` |
| Renderer/src/Renderer.cpp:8-12 | `run` ends with `cleanup`, and the destructor (151-153) calls `cleanup` again | any renderer whose `run` returns: `vkDestroyInstance` is called twice on the same instance and `glfwTerminate` twice | release the instance and terminate GLFW once per lifetime | not executed | `Lifecycle.CleanupRunsTwice` | `Lifecycle.GuardedCleanup`, `Lifecycle.GuardedLifetimeReleasesOnce` |
