/** The lifetime of a `Renderer` object (Renderer/src/Renderer.cpp):
    `run` = `initVulkan`, `mainLoop`, `cleanup`; the destructor calls
    `cleanup` again and then the window's deleter runs. The render loop
    only polls events, one poll per iteration until the window asks to close;
    `frames` is that number of iterations. */
module Lifecycle {
  import opened Types
  import opened Vk
  import opened Instance

  /** The GLFW calls `initVulkan` makes before touching Vulkan. */
  const WINDOW_CALLS: seq<Call> := [
    GlfwInit,
    GlfwWindowHint(ClientApiNone),
    GlfwWindowHint(NotResizable),
    GlfwCreateWindow(WIDTH, HEIGHT, "Vulkan")]

  /** `Renderer::initVulkan`: opens the window, then creates the instance. */
  function InitVulkan(validation: bool, availableLayers: seq<string>, windowExts: seq<string>, driver: Creation)
    : (r: InstanceSetup)
    ensures |r.calls| >= |WINDOW_CALLS| && r.calls[..|WINDOW_CALLS|] == WINDOW_CALLS
    ensures r.calls[|WINDOW_CALLS|..] == CreateInstance(validation, availableLayers, windowExts, driver).calls
    ensures r.result == CreateInstance(validation, availableLayers, windowExts, driver).result
  {
    var ci := CreateInstance(validation, availableLayers, windowExts, driver);
    InstanceSetup(WINDOW_CALLS + ci.calls, ci.result)
  }

  /** `Renderer::mainLoop`. */
  function MainLoop(frames: nat): (calls: seq<Call>)
    ensures |calls| == frames
    ensures forall i :: 0 <= i < |calls| ==> calls[i] == GlfwPollEvents
  {
    seq(frames, _ => GlfwPollEvents)
  }

  /** `Renderer::cleanup`: with validation on, the messenger helper first
      (which only looks its function up); then the instance is destroyed and
      GLFW terminated, in that order. */
  function Cleanup(validation: bool): (calls: seq<Call>)
    ensures |calls| == (if validation then 3 else 2)
    ensures calls[|calls| - 2] == DestroyVkInstance && calls[|calls| - 1] == GlfwTerminate
    ensures validation ==> calls[0] == GetInstanceProcAddr(DESTROY_MESSENGER_PROC)
  {
    (if validation then DestroyDebugUtilsMessengerExt() else []) + [DestroyVkInstance, GlfwTerminate]
  }

  /** One `cleanup` destroys the instance once and terminates GLFW once. */
  lemma CleanupReleasesOnce(validation: bool)
    ensures Count(Cleanup(validation), DestroyVkInstance) == 1 && Count(Cleanup(validation), GlfwTerminate) == 1
  {
    var prefix := if validation then DestroyDebugUtilsMessengerExt() else [];
    var tail := [DestroyVkInstance, GlfwTerminate];
    assert tail[..1] == [DestroyVkInstance];
    assert [DestroyVkInstance][..0] == [];
    assert Cleanup(validation) == prefix + tail;
    CountAbsent(prefix, DestroyVkInstance);
    CountAbsent(prefix, GlfwTerminate);
    CountAppend(prefix, tail, DestroyVkInstance);
    CountAppend(prefix, tail, GlfwTerminate);
  }

  /** `Renderer::~Renderer`: `cleanup`, then the window member's deleter
      when a window exists. */
  function Destructor(validation: bool, windowCreated: bool): (calls: seq<Call>)
    ensures |calls| >= |Cleanup(validation)| && calls[..|Cleanup(validation)|] == Cleanup(validation)
    ensures windowCreated ==> calls[|calls| - 1] == GlfwDestroyWindow
  {
    Cleanup(validation) + (if windowCreated then [GlfwDestroyWindow] else [])
  }

  /** What follows a start-up whose calls and outcome are `init`, as
      written: when instance creation threw, `run` ends there and only the
      destructor cleans up; otherwise the render loop, `cleanup`, and the
      destructor's second `cleanup`. */
  function RunAfterStart(init: InstanceSetup, validation: bool, frames: nat): (calls: seq<Call>)
    ensures |calls| == |init.calls| + (if init.result.Ok? then frames + |Cleanup(validation)| else 0) + |Cleanup(validation)| + 1
    ensures calls[..|init.calls|] == init.calls
    ensures init.result.Ok? ==> forall i :: |init.calls| <= i < |init.calls| + frames ==> calls[i] == GlfwPollEvents
    ensures calls[|calls| - 1] == GlfwDestroyWindow
  {
    if init.result.Err? then init.calls + Destructor(validation, true)
    else init.calls + MainLoop(frames) + Cleanup(validation) + Destructor(validation, true)
  }

  /** Constructing a renderer, calling `run` and destroying it, as written. */
  function Lifetime(validation: bool, availableLayers: seq<string>, windowExts: seq<string>, driver: Creation, frames: nat)
    : (calls: seq<Call>)
    ensures var init := InitVulkan(validation, availableLayers, windowExts, driver);
      && |calls| == |init.calls| + (if init.result.Ok? then frames + |Cleanup(validation)| else 0) + |Cleanup(validation)| + 1
      && calls[..|init.calls|] == init.calls
      && (init.result.Ok? ==> forall i :: |init.calls| <= i < |init.calls| + frames ==> calls[i] == GlfwPollEvents)
      && calls[|calls| - 1] == GlfwDestroyWindow
  {
    RunAfterStart(InitVulkan(validation, availableLayers, windowExts, driver), validation, frames)
  }

  /** A release build starts by asking the driver for an instance with no
      extension enabled, whatever the window system requires. */
  lemma ReleaseStartRequestsNoExtensions(availableLayers: seq<string>, windowExts: seq<string>, driver: Creation)
    ensures var calls := InitVulkan(false, availableLayers, windowExts, driver).calls;
      && |calls| > 0 && calls[|calls| - 1].CreateVkInstance?
      && CountsInRange(calls[|calls| - 1].info)
      && EnabledExtensions(calls[|calls| - 1].info) == []
  {
    var ci := CreateInstance(false, availableLayers, windowExts, driver);
    assert InitVulkan(false, availableLayers, windowExts, driver).calls == WINDOW_CALLS + ci.calls;
  }

  /** Starting up neither destroys the instance nor terminates GLFW. */
  lemma InitCallsDestroyNothing(validation: bool, availableLayers: seq<string>, windowExts: seq<string>, driver: Creation)
    ensures Count(InitVulkan(validation, availableLayers, windowExts, driver).calls, DestroyVkInstance) == 0
    ensures Count(InitVulkan(validation, availableLayers, windowExts, driver).calls, GlfwTerminate) == 0
  {
    var ci := CreateInstance(validation, availableLayers, windowExts, driver).calls;
    assert InitVulkan(validation, availableLayers, windowExts, driver).calls == WINDOW_CALLS + ci;
    CountAbsent(WINDOW_CALLS, DestroyVkInstance);
    CountAbsent(WINDOW_CALLS, GlfwTerminate);
    CountAbsent(ci, DestroyVkInstance);
    CountAbsent(ci, GlfwTerminate);
    CountAppend(WINDOW_CALLS, ci, DestroyVkInstance);
    CountAppend(WINDOW_CALLS, ci, GlfwTerminate);
  }

  /** The render loop neither destroys the instance nor terminates GLFW. */
  lemma MainLoopDestroysNothing(frames: nat)
    ensures Count(MainLoop(frames), DestroyVkInstance) == 0 && Count(MainLoop(frames), GlfwTerminate) == 0
  {
    CountAbsent(MainLoop(frames), DestroyVkInstance);
    CountAbsent(MainLoop(frames), GlfwTerminate);
  }

  /** Finding: after a successful `run`, the destructor's second `cleanup`
      destroys the same instance again and terminates GLFW twice. When
      instance creation failed, the destructor still destroys an instance
      that was never created. */
  lemma CleanupRunsTwice(validation: bool, availableLayers: seq<string>, windowExts: seq<string>, driver: Creation, frames: nat)
    ensures var init := InitVulkan(validation, availableLayers, windowExts, driver);
      var calls := Lifetime(validation, availableLayers, windowExts, driver, frames);
      && (init.result.Ok? ==> Count(calls, DestroyVkInstance) == 2 && Count(calls, GlfwTerminate) == 2)
      && (init.result.Err? ==> Count(calls, DestroyVkInstance) == 1)
  {
    InitCallsDestroyNothing(validation, availableLayers, windowExts, driver);
    CleanupRunsTwiceAfterStart(InitVulkan(validation, availableLayers, windowExts, driver), validation, frames);
  }

  /** The double release, for any start-up that released nothing itself. */
  lemma CleanupRunsTwiceAfterStart(init: InstanceSetup, validation: bool, frames: nat)
    requires Count(init.calls, DestroyVkInstance) == 0 && Count(init.calls, GlfwTerminate) == 0
    ensures var calls := RunAfterStart(init, validation, frames);
      && (init.result.Ok? ==> Count(calls, DestroyVkInstance) == 2 && Count(calls, GlfwTerminate) == 2)
      && (init.result.Err? ==> Count(calls, DestroyVkInstance) == 1)
  {
    var c := Cleanup(validation);
    var w := [GlfwDestroyWindow];
    CleanupReleasesOnce(validation);
    assert Destructor(validation, true) == c + w;
    if init.result.Err? {
      assert init.calls + (c + w) == init.calls + c + w;
      DeleterCounts3(init.calls, c, DestroyVkInstance);
    } else {
      MainLoopDestroysNothing(frames);
      var m := MainLoop(frames);
      assert init.calls + m + c + (c + w) == init.calls + m + c + c + w;
      DeleterCounts5(init.calls, m, c, c, DestroyVkInstance);
      DeleterCounts5(init.calls, m, c, c, GlfwTerminate);
    }
  }

  /** What the corrected teardown remembers between calls. */
  datatype Teardown = Teardown(instanceCreated: bool, cleanedUp: bool)

  /** `cleanup` made safe to call twice: it runs once, and destroys the
      instance (and looks up the messenger function) only if one was
      created. */
  function GuardedCleanup(validation: bool, t: Teardown): (r: (seq<Call>, Teardown))
    ensures r.1.cleanedUp && r.1.instanceCreated == t.instanceCreated
    ensures t.cleanedUp ==> r.0 == []
    ensures !t.cleanedUp ==> Count(r.0, DestroyVkInstance) == (if t.instanceCreated then 1 else 0)
    ensures !t.cleanedUp ==> Count(r.0, GlfwTerminate) == 1
  {
    CleanupReleasesOnce(validation);
    assert [GlfwTerminate][..0] == [];
    if t.cleanedUp then ([], t)
    else if t.instanceCreated then (Cleanup(validation), t.(cleanedUp := true))
    else ([GlfwTerminate], t.(cleanedUp := true))
  }

  /** What follows a start-up `init` with the guarded teardown: `run` and
      the destructor both call it, as in the source. */
  function GuardedRunAfterStart(init: InstanceSetup, validation: bool, frames: nat): (calls: seq<Call>)
    ensures |calls| > |init.calls| && calls[..|init.calls|] == init.calls
    ensures calls[|calls| - 1] == GlfwDestroyWindow
  {
    var t := Teardown(init.result.Ok?, false);
    if init.result.Err? then
      var (c, _) := GuardedCleanup(validation, t);
      init.calls + c + [GlfwDestroyWindow]
    else
      var (c1, t1) := GuardedCleanup(validation, t);
      var (c2, _) := GuardedCleanup(validation, t1);
      init.calls + MainLoop(frames) + c1 + c2 + [GlfwDestroyWindow]
  }

  /** The lifetime with the guarded teardown. */
  function GuardedLifetime(validation: bool, availableLayers: seq<string>, windowExts: seq<string>, driver: Creation, frames: nat)
    : seq<Call>
  {
    GuardedRunAfterStart(InitVulkan(validation, availableLayers, windowExts, driver), validation, frames)
  }

  /** With the guard, the instance is destroyed exactly as often as it was
      created (once after a successful start, never after a failed one) and
      GLFW is terminated exactly once. */
  lemma GuardedLifetimeReleasesOnce(validation: bool, availableLayers: seq<string>, windowExts: seq<string>, driver: Creation, frames: nat)
    ensures var init := InitVulkan(validation, availableLayers, windowExts, driver);
      var calls := GuardedLifetime(validation, availableLayers, windowExts, driver, frames);
      && Count(calls, DestroyVkInstance) == (if init.result.Ok? then 1 else 0)
      && Count(calls, GlfwTerminate) == 1
  {
    InitCallsDestroyNothing(validation, availableLayers, windowExts, driver);
    GuardedReleasesOnceAfterStart(InitVulkan(validation, availableLayers, windowExts, driver), validation, frames);
  }

  /** The single release, for any start-up that released nothing itself. */
  lemma GuardedReleasesOnceAfterStart(init: InstanceSetup, validation: bool, frames: nat)
    requires Count(init.calls, DestroyVkInstance) == 0 && Count(init.calls, GlfwTerminate) == 0
    ensures var calls := GuardedRunAfterStart(init, validation, frames);
      && Count(calls, DestroyVkInstance) == (if init.result.Ok? then 1 else 0)
      && Count(calls, GlfwTerminate) == 1
  {
    var t := Teardown(init.result.Ok?, false);
    if init.result.Err? {
      var (c, _) := GuardedCleanup(validation, t);
      DeleterCounts3(init.calls, c, DestroyVkInstance);
      DeleterCounts3(init.calls, c, GlfwTerminate);
    } else {
      var (c1, t1) := GuardedCleanup(validation, t);
      var (c2, _) := GuardedCleanup(validation, t1);
      MainLoopDestroysNothing(frames);
      DeleterCounts5(init.calls, MainLoop(frames), c1, c2, DestroyVkInstance);
      DeleterCounts5(init.calls, MainLoop(frames), c1, c2, GlfwTerminate);
    }
  }

  /** Counting over a failed start's calls, cleanup calls and window deleter. */
  lemma DeleterCounts3(a: seq<Call>, c: seq<Call>, x: Call)
    requires x != GlfwDestroyWindow
    ensures Count(a + c + [GlfwDestroyWindow], x) == Count(a, x) + Count(c, x)
  {
    var w := [GlfwDestroyWindow];
    assert w[..0] == [];
    CountAppend(a, c, x);
    CountAppend(a + c, w, x);
  }

  /** Counting over a successful start's calls, the loop, two cleanups and
      the window deleter. */
  lemma DeleterCounts5(a: seq<Call>, m: seq<Call>, c1: seq<Call>, c2: seq<Call>, x: Call)
    requires x != GlfwDestroyWindow
    ensures Count(a + m + c1 + c2 + [GlfwDestroyWindow], x) == Count(a, x) + Count(m, x) + Count(c1, x) + Count(c2, x)
  {
    var w := [GlfwDestroyWindow];
    assert w[..0] == [];
    CountAppend(a, m, x);
    CountAppend(a + m, c1, x);
    CountAppend(a + m + c1, c2, x);
    CountAppend(a + m + c1 + c2, w, x);
  }
}
