/** The shared data types and constants of VulkanEngine.h. */
module EngineTypes {
  import opened Vk

  /** Frame slots: the fixed bound on frames in flight. */
  const MAX_FRAMES_IN_FLIGHT: nat := 2

  const SWAPCHAIN_EXTENSION_NAME: string := "VK_KHR_swapchain"
  const DEBUG_UTILS_EXTENSION_NAME: string := "VK_EXT_debug_utils"
  const KHRONOS_VALIDATION_LAYER: string := "VK_LAYER_KHRONOS_validation"

  /** The device extensions every candidate adapter must offer. */
  const DeviceExtensions: seq<string> := [SWAPCHAIN_EXTENSION_NAME]

  /** The validation layers requested when validation is enabled. */
  const ValidationLayers: seq<string> := [KHRONOS_VALIDATION_LAYER]

  /** VK_QUEUE_GRAPHICS_BIT */
  const QUEUE_GRAPHICS_BIT: bv32 := 1

  /** What the driver reports about one queue family: its flags and whether
      it can present to the engine's surface (vkGetPhysicalDeviceSurfaceSupportKHR). */
  datatype QueueFamily = QueueFamily(queueFlags: bv32, presentSupport: bool)

  predicate HasGraphics(family: QueueFamily) {
    family.queueFlags & QUEUE_GRAPHICS_BIT != 0
  }

  /** The queue-family indices found on an adapter; absent members are
      empty `std::optional`s. */
  datatype QueueFamilyIndices = QueueFamilyIndices(graphicsFamily: Option<nat>, presentFamily: Option<nat>)
  {
    predicate IsComplete() {
      graphicsFamily.Some? && presentFamily.Some?
    }
  }

  datatype SurfaceFormat = SurfaceFormat(format: nat, colorSpace: nat)
  type PresentMode = nat
  datatype SurfaceCapabilities = SurfaceCapabilities(minImageCount: nat, maxImageCount: nat, currentExtent: Extent2D)

  /** What the driver reports about one adapter (for the engine's surface). */
  datatype PhysicalDevice = PhysicalDevice(
    handle: LiveHandle,
    queueFamilies: seq<QueueFamily>,
    extensions: seq<string>,
    capabilities: SurfaceCapabilities,
    surfaceFormats: seq<SurfaceFormat>,
    presentModes: seq<PresentMode>)

  datatype SwapChainSupportDetails = SwapChainSupportDetails(
    capabilities: SurfaceCapabilities,
    formats: seq<SurfaceFormat>,
    presentModes: seq<PresentMode>)

  /** querySwapChainSupport: each list is filled only when the driver reports
      a non-zero count for it, and is otherwise left empty. */
  function QuerySwapChainSupport(device: PhysicalDevice): (details: SwapChainSupportDetails)
    ensures details.capabilities == device.capabilities
    ensures |details.formats| == |device.surfaceFormats|
    ensures |details.presentModes| == |device.presentModes|
    ensures details.formats == [] <==> |device.surfaceFormats| == 0
    ensures details.presentModes == [] <==> |device.presentModes| == 0
  {
    var formatCount := |device.surfaceFormats|;
    var formats := if formatCount != 0 then device.surfaceFormats else [];
    var presentModeCount := |device.presentModes|;
    var presentModes := if presentModeCount != 0 then device.presentModes else [];
    SwapChainSupportDetails(device.capabilities, formats, presentModes)
  }

  /** The steps of the VulkanEngine constructor. */
  datatype InitStep =
    | InitWindow | InitializeVulkan | InitializeDevice | CreateSwapChain
    | CreateImageViews | InitializePipeline | ConfigureDrawingBuffers

  const ConstructorSteps: seq<InitStep> := [
    InitWindow, InitializeVulkan, InitializeDevice, CreateSwapChain,
    CreateImageViews, InitializePipeline, ConfigureDrawingBuffers]

  /** Which steps ran, and whether all of them returned without throwing. */
  datatype StepRun = StepRun(executed: seq<InitStep>, ok: bool)

  /** Runs `steps` one after the other; a step that throws ends the run.
      `succeeds` says which steps return normally. */
  function RunInOrder(steps: seq<InitStep>, succeeds: InitStep -> bool): (run: StepRun)
    ensures |run.executed| <= |steps| && run.executed == steps[..|run.executed|]
    ensures run.ok <==> forall k :: 0 <= k < |steps| ==> succeeds(steps[k])
    ensures run.ok ==> run.executed == steps
    ensures !run.ok ==> |run.executed| > 0 && !succeeds(run.executed[|run.executed| - 1])
    ensures forall k :: 0 <= k < |run.executed| - 1 ==> succeeds(run.executed[k])
  {
    if steps == [] then StepRun([], true)
    else if !succeeds(steps[0]) then StepRun([steps[0]], false)
    else
      var rest := RunInOrder(steps[1..], succeeds);
      StepRun([steps[0]] + rest.executed, rest.ok)
  }

  /** Step k of a run is executed exactly when every step before it
      returned normally. */
  lemma {:induction false} RunReaches(steps: seq<InitStep>, succeeds: InitStep -> bool, k: nat)
    requires k < |steps|
    ensures k < |RunInOrder(steps, succeeds).executed| <==> forall j :: 0 <= j < k ==> succeeds(steps[j])
  {
    if k > 0 && succeeds(steps[0]) {
      RunReaches(steps[1..], succeeds, k - 1);
      assert forall j :: 1 <= j < k ==> steps[j] == steps[1..][j - 1];
    }
  }

  /** Step k of the VulkanEngine constructor runs exactly when every step
      before it returned normally. */
  lemma ConstructorOrder(succeeds: InitStep -> bool, k: nat)
    requires k < |ConstructorSteps|
    ensures k < |RunInOrder(ConstructorSteps, succeeds).executed| <==>
              forall j :: 0 <= j < k ==> succeeds(ConstructorSteps[j])
  {
    RunReaches(ConstructorSteps, succeeds, k);
  }
}
