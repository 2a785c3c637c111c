/** Instance setup of the `Renderer` class (Renderer/src/Renderer.cpp and
    Renderer/include/Renderer.hpp): the validation-layer check, the required
    extension list, the instance create-info, the debug-messenger helpers,
    queue-family completeness, the built-in quad and the resize flag.

    GLFW and Vulkan are not executed: each call the code makes is logged as a
    `Call`, and what the loader or driver answers is a parameter. The build
    switch `enableVailidationLayers` (NDEBUG) is the parameter `validation`. */
module Instance {
  import opened Types
  import opened Vk
  import opened Geometry

  const WIDTH: nat := 800
  const HEIGHT: nat := 600

  const KHRONOS_VALIDATION_LAYER: string := "VK_LAYER_KHRONOS_validation"
  const VALIDATION_LAYERS: seq<string> := [KHRONOS_VALIDATION_LAYER]

  /** `VK_EXT_DEBUG_UTILS_EXTENSION_NAME`. */
  const DEBUG_UTILS_EXTENSION_NAME: string := "VK_EXT_debug_utils"

  /** The entry-point names the debug helpers look up, spelled as in the
      source (the Vulkan registry spells them with a trailing `EXT`). */
  const CREATE_MESSENGER_PROC: string := "vkCreateDebugUtilsMessengerExt"
  const DESTROY_MESSENGER_PROC: string := "vkDestroyDebugUtilsMessengerExt"

  const VALIDATION_UNAVAILABLE: string := "Validation layers requested but not available!"
  const INSTANCE_CREATION_FAILED: string := "failed to create instance!"

  datatype Version = Version(major: nat, minor: nat, patch: nat)

  datatype ApplicationInfo = ApplicationInfo(
    applicationName: string,
    applicationVersion: Version,
    engineName: string,
    engineVersion: Version,
    apiVersion: Version)

  const APP_INFO: ApplicationInfo :=
    ApplicationInfo("Hello Vulkan", Version(1, 0, 0), "Jabulah Engine", Version(1, 0, 0), Version(1, 0, 0))

  datatype Severity = Verbose | Info | Warning | Error
  datatype MessageType = General | Validation | Performance

  /** `VkDebugUtilsMessengerCreateInfoEXT`; the callback is always
      `debugCallback`. */
  datatype MessengerCreateInfo = MessengerCreateInfo(severities: set<Severity>, messageTypes: set<MessageType>)

  /** `VkInstanceCreateInfo`. `layerNames` and `extensionNames` are the arrays
      the pointers designate; the counts say how many of them the driver
      reads. */
  datatype InstanceCreateInfo = InstanceCreateInfo(
    app: ApplicationInfo,
    enabledLayerCount: nat,
    layerNames: seq<string>,
    enabledExtensionCount: nat,
    extensionNames: seq<string>,
    next: Option<MessengerCreateInfo>)

  /** Every count stays within the array it describes. */
  predicate CountsInRange(ci: InstanceCreateInfo)
  {
    ci.enabledLayerCount <= |ci.layerNames| && ci.enabledExtensionCount <= |ci.extensionNames|
  }

  /** The layers the driver enables for this create-info. */
  function EnabledLayers(ci: InstanceCreateInfo): seq<string>
    requires CountsInRange(ci)
  {
    ci.layerNames[..ci.enabledLayerCount]
  }

  /** The extensions the driver enables for this create-info. */
  function EnabledExtensions(ci: InstanceCreateInfo): seq<string>
    requires CountsInRange(ci)
  {
    ci.extensionNames[..ci.enabledExtensionCount]
  }

  datatype WindowHint = ClientApiNone | NotResizable

  /** A GLFW or Vulkan call the renderer makes. */
  datatype Call =
    | GlfwInit
    | GlfwWindowHint(hint: WindowHint)
    | GlfwCreateWindow(width: nat, height: nat, title: string)
    | GlfwPollEvents
    | GlfwTerminate
    | GlfwDestroyWindow
    | EnumerateInstanceLayers
    | GetRequiredInstanceExtensions
    | CreateVkInstance(info: InstanceCreateInfo)
    | GetInstanceProcAddr(name: string)
    | InvokeProc(name: string)
    | DestroyVkInstance

  // ---------------------------------------------------------------------
  // Validation layers

  /** Every requested layer name occurs among the available ones. */
  predicate LayersSupported(requested: seq<string>, available: seq<string>)
  {
    forall i :: 0 <= i < |requested| ==> requested[i] in available
  }

  /** `Renderer::checkValidationLayerSupport`, for an arbitrary request list:
      scans the requested names in order and stops at the first one missing
      from `available`. `examined` is how many requested names were looked
      at. */
  method CheckValidationLayerSupport(requested: seq<string>, available: seq<string>)
    returns (supported: bool, examined: nat)
    ensures supported <==> LayersSupported(requested, available)
    ensures examined <= |requested|
    ensures supported ==> examined == |requested|
    ensures !supported ==>
      && 0 < examined
      && requested[examined - 1] !in available
      && LayersSupported(requested[..examined - 1], available)
  {
    var i := 0;
    while i < |requested|
      invariant 0 <= i <= |requested|
      invariant LayersSupported(requested[..i], available)
    {
      var layerFound := false;
      var j := 0;
      while j < |available|
        invariant 0 <= j <= |available|
        invariant !layerFound
        invariant requested[i] !in available[..j]
      {
        if requested[i] == available[j] {
          layerFound := true;
          break;
        }
        j := j + 1;
      }
      if !layerFound {
        assert available[..j] == available;
        return false, i + 1;
      }
      assert requested[..i + 1] == requested[..i] + [requested[i]];
      i := i + 1;
    }
    assert requested[..i] == requested;
    return true, i;
  }

  // ---------------------------------------------------------------------
  // Extensions and the instance create-info

  /** `Renderer::glfwGetRequiredExtensions`: the window system's list, in its
      order, followed by the debug-utils name when validation is on. */
  function RequiredExtensions(validation: bool, windowExts: seq<string>): (r: seq<string>)
    ensures |r| == |windowExts| + (if validation then 1 else 0)
    ensures r[..|windowExts|] == windowExts
    ensures validation ==> r[|windowExts|] == DEBUG_UTILS_EXTENSION_NAME
  {
    if validation then windowExts + [DEBUG_UTILS_EXTENSION_NAME] else windowExts
  }

  /** When the window system does not itself ask for debug utils, the name is
      in the list exactly when validation is on. */
  lemma DebugUtilsRequiredIffValidation(validation: bool, windowExts: seq<string>)
    requires DEBUG_UTILS_EXTENSION_NAME !in windowExts
    ensures DEBUG_UTILS_EXTENSION_NAME in RequiredExtensions(validation, windowExts) <==> validation
  {
    var r := RequiredExtensions(validation, windowExts);
    if validation {
      assert r[|windowExts|] == DEBUG_UTILS_EXTENSION_NAME;
    }
  }

  /** `Renderer::populateDebugMessengerCreateInfo`: verbose, warning and
      error severities; general, validation and performance messages. */
  function DebugMessengerCreateInfo(): (ci: MessengerCreateInfo)
    ensures Info !in ci.severities && |ci.severities| == 3
    ensures ci.messageTypes == {General, Validation, Performance}
  {
    MessengerCreateInfo({Verbose, Warning, Error}, {General, Validation, Performance})
  }

  /** The create-info `Renderer::createInstance` fills in, as written: with
      validation off the `else` branch zeroes the extension count (and leaves
      the layer count at its zero initialiser). */
  function InstanceCreateInfoAsWritten(validation: bool, windowExts: seq<string>): (ci: InstanceCreateInfo)
    ensures CountsInRange(ci) && ci.app == APP_INFO
    ensures ci.extensionNames == RequiredExtensions(validation, windowExts)
    ensures EnabledLayers(ci) == (if validation then VALIDATION_LAYERS else [])
    ensures EnabledExtensions(ci) == (if validation then RequiredExtensions(validation, windowExts) else [])
    ensures ci.next.Some? <==> validation
    ensures validation ==> ci.next == Some(DebugMessengerCreateInfo())
  {
    var exts := RequiredExtensions(validation, windowExts);
    if validation then
      InstanceCreateInfo(APP_INFO, |VALIDATION_LAYERS|, VALIDATION_LAYERS, |exts|, exts, Some(DebugMessengerCreateInfo()))
    else
      InstanceCreateInfo(APP_INFO, 0, [], 0, exts, None)
  }

  /** Finding: in a release build the as-written create-info enables none of
      the extensions the window system requires. */
  lemma ReleaseBuildDropsWindowExtensions(windowExts: seq<string>)
    requires |windowExts| > 0
    ensures EnabledExtensions(InstanceCreateInfoAsWritten(false, windowExts)) == []
    ensures EnabledExtensions(InstanceCreateInfoAsWritten(false, windowExts)) != RequiredExtensions(false, windowExts)
  {
  }

  /** The create-info the `else` branch evidently means to build: it zeroes the
      layer count, so every required extension is enabled in both builds. */
  function InstanceCreateInfoIntended(validation: bool, windowExts: seq<string>): (ci: InstanceCreateInfo)
    ensures CountsInRange(ci) && ci.app == APP_INFO
    ensures EnabledExtensions(ci) == RequiredExtensions(validation, windowExts)
    ensures EnabledLayers(ci) == (if validation then VALIDATION_LAYERS else [])
    ensures ci.next.Some? <==> validation
    ensures validation ==> ci.next == Some(DebugMessengerCreateInfo())
  {
    var exts := RequiredExtensions(validation, windowExts);
    if validation then
      InstanceCreateInfo(APP_INFO, |VALIDATION_LAYERS|, VALIDATION_LAYERS, |exts|, exts, Some(DebugMessengerCreateInfo()))
    else
      InstanceCreateInfo(APP_INFO, 0, [], |exts|, exts, None)
  }

  /** The two create-infos differ in one field of the release build only. */
  lemma IntendedDiffersOnlyInReleaseExtensionCount(validation: bool, windowExts: seq<string>)
    ensures validation ==> InstanceCreateInfoIntended(validation, windowExts) == InstanceCreateInfoAsWritten(validation, windowExts)
    ensures !validation ==>
      InstanceCreateInfoIntended(validation, windowExts)
        == InstanceCreateInfoAsWritten(validation, windowExts).(enabledExtensionCount := |windowExts|)
  {
  }

  /** The calls and outcome of `Renderer::createInstance`. */
  datatype InstanceSetup = InstanceSetup(calls: seq<Call>, result: Result<Handle>)

  /** The calls of `Renderer::createInstance` once its create-info `info` is
      built: refuse before creating anything when validation is on and the
      layers are missing, otherwise hand `info` to the driver, whose answer
      is `driver`. The layer check enumerates the layers twice (count, then
      data) and is skipped when validation is off. */
  function SubmitCreateInfo(validation: bool, availableLayers: seq<string>, info: InstanceCreateInfo, driver: Creation)
    : InstanceSetup
  {
    var check := if validation then [EnumerateInstanceLayers, EnumerateInstanceLayers] else [];
    if validation && !LayersSupported(VALIDATION_LAYERS, availableLayers) then
      InstanceSetup(check, Err(VALIDATION_UNAVAILABLE))
    else
      var calls := check + [GetRequiredInstanceExtensions, CreateVkInstance(info)];
      match driver
      case Created(h) => InstanceSetup(calls, Ok(h))
      case CreationFailed => InstanceSetup(calls, Err(INSTANCE_CREATION_FAILED))
  }

  /** `Renderer::createInstance`, as written: the driver receives
      `InstanceCreateInfoAsWritten`, so a release build asks for no
      extension at all. */
  function CreateInstance(validation: bool, availableLayers: seq<string>, windowExts: seq<string>, driver: Creation)
    : (r: InstanceSetup)
    ensures r.result == Err(VALIDATION_UNAVAILABLE) <==> validation && !LayersSupported(VALIDATION_LAYERS, availableLayers)
    ensures r.result == Err(VALIDATION_UNAVAILABLE) ==> forall i :: 0 <= i < |r.calls| ==> !r.calls[i].CreateVkInstance?
    ensures r.result.Ok? <==> (!validation || LayersSupported(VALIDATION_LAYERS, availableLayers)) && driver.Created?
    ensures r.result.Ok? ==> r.result.value == driver.handle
    ensures r.result == Err(INSTANCE_CREATION_FAILED) <==> (!validation || LayersSupported(VALIDATION_LAYERS, availableLayers)) && driver.CreationFailed?
    ensures r.result != Err(VALIDATION_UNAVAILABLE) ==>
      |r.calls| > 0 && r.calls[|r.calls| - 1] == CreateVkInstance(InstanceCreateInfoAsWritten(validation, windowExts))
    ensures (EnumerateInstanceLayers in r.calls) <==> validation
    ensures forall c :: c in r.calls ==> c == EnumerateInstanceLayers || c == GetRequiredInstanceExtensions || c.CreateVkInstance?
  {
    SubmitCreateInfo(validation, availableLayers, InstanceCreateInfoAsWritten(validation, windowExts), driver)
  }

  /** `Renderer::createInstance` with the corrected create-info: every
      required extension reaches the driver in both builds. */
  function CreateInstanceIntended(validation: bool, availableLayers: seq<string>, windowExts: seq<string>, driver: Creation)
    : (r: InstanceSetup)
    ensures r.result == Err(VALIDATION_UNAVAILABLE) <==> validation && !LayersSupported(VALIDATION_LAYERS, availableLayers)
    ensures r.result.Ok? <==> (!validation || LayersSupported(VALIDATION_LAYERS, availableLayers)) && driver.Created?
    ensures r.result.Ok? ==> r.result.value == driver.handle
    ensures r.result != Err(VALIDATION_UNAVAILABLE) ==>
      && |r.calls| > 0
      && r.calls[|r.calls| - 1] == CreateVkInstance(InstanceCreateInfoIntended(validation, windowExts))
      && CountsInRange(r.calls[|r.calls| - 1].info)
      && EnabledExtensions(r.calls[|r.calls| - 1].info) == RequiredExtensions(validation, windowExts)
  {
    SubmitCreateInfo(validation, availableLayers, InstanceCreateInfoIntended(validation, windowExts), driver)
  }

  /** The corrected `createInstance` makes the same calls with the same
      outcome as the one written; only the create-info handed to the driver
      differs, and only in a release build. */
  lemma IntendedInstanceDiffersOnlyInCreateInfo(validation: bool, availableLayers: seq<string>, windowExts: seq<string>, driver: Creation)
    ensures var w := CreateInstance(validation, availableLayers, windowExts, driver);
      var c := CreateInstanceIntended(validation, availableLayers, windowExts, driver);
      && c.result == w.result
      && |c.calls| == |w.calls|
      && (forall i :: 0 <= i < |w.calls| ==> w.calls[i].CreateVkInstance? || c.calls[i] == w.calls[i])
      && (validation ==> c == w)
  {
    IntendedDiffersOnlyInReleaseExtensionCount(validation, windowExts);
  }

  // ---------------------------------------------------------------------
  // Debug messenger helpers

  /** `CreateDebugUtilsMessengerExt`: `procs` is the instance's entry-point
      table, mapping each exported name to what calling it returns. The
      function pointer is invoked only when the lookup finds it. */
  function CreateDebugUtilsMessengerExt(procs: map<string, VkResult>): (r: (seq<Call>, VkResult))
    ensures |r.0| > 0 && r.0[0] == GetInstanceProcAddr(CREATE_MESSENGER_PROC)
    ensures CREATE_MESSENGER_PROC in procs ==> r.1 == procs[CREATE_MESSENGER_PROC] && r.0 == [r.0[0], InvokeProc(CREATE_MESSENGER_PROC)]
    ensures CREATE_MESSENGER_PROC !in procs ==> r.1 == ErrorExtensionNotPresent && |r.0| == 1
  {
    var lookup := GetInstanceProcAddr(CREATE_MESSENGER_PROC);
    if CREATE_MESSENGER_PROC in procs then
      ([lookup, InvokeProc(CREATE_MESSENGER_PROC)], procs[CREATE_MESSENGER_PROC])
    else
      ([lookup], ErrorExtensionNotPresent)
  }

  /** `DestroyDebugUtilsMessengerExt`: looks the destroy function up and
      never calls it, so the messenger is never destroyed. */
  function DestroyDebugUtilsMessengerExt(): (calls: seq<Call>)
    ensures calls == [GetInstanceProcAddr(DESTROY_MESSENGER_PROC)]
    ensures forall i :: 0 <= i < |calls| ==> !calls[i].InvokeProc?
  {
    [GetInstanceProcAddr(DESTROY_MESSENGER_PROC)]
  }

  /** `Renderer::setupDebugMessenger`: nothing when validation is off;
      otherwise the create helper's calls. A failed creation constructs an
      error object but never throws it, so the outcome carries no error:
      `created` only records whether a messenger now exists. */
  function SetupDebugMessenger(validation: bool, procs: map<string, VkResult>): (r: (seq<Call>, bool))
    ensures !validation ==> r.0 == [] && !r.1
    ensures validation ==> r.0 == CreateDebugUtilsMessengerExt(procs).0
    ensures r.1 <==> validation && CREATE_MESSENGER_PROC in procs && procs[CREATE_MESSENGER_PROC] == Success
  {
    if !validation then ([], false)
    else
      var (calls, status) := CreateDebugUtilsMessengerExt(procs);
      (calls, status == Success)
  }

  /** Whatever the entry-point table answers, setting up the messenger ends
      with the create helper's own calls: no error path adds or removes any. */
  lemma SetupDebugMessengerNeverAborts(procs: map<string, VkResult>)
    ensures SetupDebugMessenger(true, procs).0[0] == GetInstanceProcAddr(CREATE_MESSENGER_PROC)
    ensures CREATE_MESSENGER_PROC in procs ==>
      SetupDebugMessenger(true, procs).0 == [GetInstanceProcAddr(CREATE_MESSENGER_PROC), InvokeProc(CREATE_MESSENGER_PROC)]
  {
  }

  // ---------------------------------------------------------------------
  // Queue families, built-in quad, resize flag

  datatype QueueFamilyIndices = QueueFamilyIndices(graphicsFamily: Option<U32>, presentFamily: Option<U32>)

  /** `QueueFamilyIndices::isComplete`: both the graphics and the present
      family have been found. */
  predicate IsComplete(q: QueueFamilyIndices)
  {
    q.graphicsFamily.Some? && q.presentFamily.Some?
  }

  /** A record is complete exactly when both families have been found: a
      fresh record is not, and recording both families completes any
      record. */
  lemma CompletenessNeedsBothFamilies(q: QueueFamilyIndices, g: U32, p: U32)
    ensures !IsComplete(QueueFamilyIndices(None, None))
    ensures !IsComplete(q.(graphicsFamily := None)) && !IsComplete(q.(presentFamily := None))
    ensures IsComplete(q.(graphicsFamily := Some(g), presentFamily := Some(p)))
  {
  }

  /** The `Vertex` of Renderer/include/Renderer.hpp (no normal). */
  datatype RendererVertex = RendererVertex(pos: Vec3, color: Vec3, texCoord: Vec2)

  /** `Renderer::vertices`: two stacked quads. */
  const QUAD_VERTICES: seq<RendererVertex> := [
    RendererVertex(Vec3(-0.5, -0.5, 0.0), Vec3(1.0, 0.0, 0.0), Vec2(0.0, 0.0)),
    RendererVertex(Vec3(0.5, -0.5, 0.0), Vec3(0.0, 1.0, 0.0), Vec2(1.0, 0.0)),
    RendererVertex(Vec3(0.5, 0.5, 0.0), Vec3(0.0, 0.0, 1.0), Vec2(1.0, 1.0)),
    RendererVertex(Vec3(-0.5, 0.5, 0.0), Vec3(1.0, 1.0, 1.0), Vec2(0.0, 1.0)),
    RendererVertex(Vec3(-0.5, -0.5, -0.5), Vec3(1.0, 0.0, 0.0), Vec2(0.0, 0.0)),
    RendererVertex(Vec3(0.5, -0.5, -0.5), Vec3(0.0, 1.0, 0.0), Vec2(1.0, 0.0)),
    RendererVertex(Vec3(0.5, 0.5, -0.5), Vec3(0.0, 0.0, 1.0), Vec2(1.0, 1.0)),
    RendererVertex(Vec3(-0.5, 0.5, -0.5), Vec3(1.0, 1.0, 1.0), Vec2(0.0, 1.0))]

  /** `Renderer::indices` (`uint16_t`). */
  const QUAD_INDICES: seq<nat> := [0, 1, 2, 2, 3, 0, 4, 5, 6, 6, 7, 4]

  /** The index list is a triangle list over the quad vertices. */
  predicate TriangleList(indices: seq<nat>, vertexCount: nat)
  {
    |indices| % 3 == 0 && forall i :: 0 <= i < |indices| ==> indices[i] < vertexCount
  }

  /** The built-in indices form four triangles, each naming one of the eight
      vertices, and fit the 16-bit index type. */
  lemma QuadIsTriangleList()
    ensures |QUAD_VERTICES| == 8 && |QUAD_INDICES| == 12
    ensures TriangleList(QUAD_INDICES, |QUAD_VERTICES|)
    ensures forall i :: 0 <= i < |QUAD_INDICES| ==> QUAD_INDICES[i] < 0x1_0000
  {
  }

  /** The part of the renderer's state the resize callback touches. */
  datatype ResizeState = ResizeState(frameBufferResized: bool)

  /** `Renderer::setFrameBufferResized`. */
  function SetFrameBufferResized(s: ResizeState, v: bool): (r: ResizeState)
    ensures r.frameBufferResized == v
  {
    s.(frameBufferResized := v)
  }

  /** `framebufferResizeCallback`: raises the flag; the size it is given plays
      no part. */
  function FramebufferResizeCallback(s: ResizeState, width: int, height: int): (r: ResizeState)
    ensures r.frameBufferResized
  {
    SetFrameBufferResized(s, true)
  }

  /** The callback's effect is the same for every reported size, and a second
      notification changes nothing. */
  lemma ResizeCallbackIgnoresSize(s: ResizeState, w1: int, h1: int, w2: int, h2: int)
    ensures FramebufferResizeCallback(s, w1, h1) == FramebufferResizeCallback(s, w2, h2)
    ensures FramebufferResizeCallback(FramebufferResizeCallback(s, w1, h1), w2, h2) == FramebufferResizeCallback(s, w1, h1)
  {
  }
}
