# VulkanTriangle: a verified model of its sequential core

VulkanTriangle is a C++ program that draws a triangle with Vulkan. Most of it
hands structures to the Vulkan driver and to GLFW, the windowing library. This
project models the logic that sits between those calls. It treats every driver
object (instance, surface, adapter, device, queue, view, framebuffer, pool,
command buffer, semaphore, fence) as an opaque handle, a `nat` where 0 is
`VK_NULL_HANDLE`. What the driver would answer is passed in as a parameter.

The model covers four parts of the program:

- **The frame synchroniser** (`drawFrame`, `createSyncObjects`). The
  `VulkanEngine` class holds the slot cursor `currentFrame` and the per-slot
  semaphores and fences. It also holds the `imagesInFlight` table as an array
  updated in place. Fences are ghost state: the sets `signaled` and `pending`.
  `drawFrame` may run only when every fence it waits on is signaled, and
  only the environment step `GpuSignal` (the GPU finishing work) signals a
  fence; `Throttle` shows it can always get there. A ghost trace records the driver calls of the frame loop. The
  invariant `Valid` ties the table to that trace: each entry is null, or it is
  the fence of its image's last submission. Between two submissions of the
  same image, the fence of the first is waited on. `Live` adds that every slot
  fence is signaled or pending, so no wait can block for ever.
- **The creation of the per-image and per-slot objects**:
  - `createImageViews` of `main.cpp` (the engine's
    `VulkanSwapChainConfigurer::createImageViews` is only declared, in
    `config/VulkanSwapChainConfigurer.h`, and has no body here);
  - `createFramebuffers`, `createCommandPool`, `createCommandBuffers` and
    `createSyncObjects`, in both drafts (`main.cpp` and
    `config/VulkanDrawingBufferConfigurator.cpp`);
  - the order of `initVulkan` and `configureDrawingBuffers`;
  - the order of the `VulkanEngine` constructor.
- **Adapter and queue selection**: the queue-family scan with its early break,
  the extension check, `isDeviceSuitable` and the choice of the first suitable
  adapter. It also covers the create info of `createLogicalDevice`, with its
  de-duplicated queue list and the count overwritten to 1. Both drafts are
  modelled: `config/VulkanDeviceInitializer.cpp` writes everything into the
  engine, and `components/VulkanDeviceComponent.cpp` keeps the surface, adapter
  and device in the component.
- **The instance prerequisites** (`components/VulkanInstanceComponent.cpp`):
  - the validation-layer check, done as nested loops;
  - the required extensions;
  - the create info handed to `vkCreateInstance`;
  - the layer setup, which works on a copy of the create info passed by value
    and so never reaches the driver.

Errors that the C++ code `throw`s become `Fail(error)` / `Err(error)` results.
A step that follows a throwing step is not run.

Modules:

- `Vk` (vk.dfy): handles, results, create infos and the driver's answers.
- `EngineTypes` (engine_types.dfy): the types and constants of `VulkanEngine.h`,
  `querySwapChainSupport` and the constructor's order.
- `QueueFamilies` (queue_families.dfy): `findQueueFamiliesInner`.
- `FrameProtocol` (frame_protocol.dfy): the calls of one `drawFrame` and the
  protocol invariants over the trace.
- `VulkanEngine` (vulkan_engine.dfy): the engine class and `drawFrame`.
- `DrawingBuffers` (drawing_buffers.dfy): views, framebuffers, pool, command
  buffers and sync objects.
- `DeviceSelection` (device_selection.dfy): the selection logic both device
  drafts share.
- `DeviceInitializer` (device_initializer.dfy): `config/VulkanDeviceInitializer.cpp`.
- `DeviceComponents` (device_component.dfy): `components/VulkanDeviceComponent.cpp`.
- `InstanceComponents` (instance_component.dfy): `components/VulkanInstanceComponent.cpp`.

Where this model departs from the written description of the program, it
follows the code:

- `Utils::findQueueFamilies` is taken to be `findQueueFamiliesInner`.
- `VulkanEngine::indices` keeps its default (both families absent), because
  none of the source files modelled here assigns it. The configurator's `createCommandPool` therefore reads an
  absent optional, and the model returns `BadOptionalAccess`.
- `VulkanDeviceComponent::createLogicalDevice` takes the queues with
  `&vkEngine.graphicsQueue` and `&vkEngine.presentQueue`, a name the class
  does not declare; its engine is the pointer `_vkEngine`
  (components/VulkanDeviceComponent.h:31). The model reads the name as the
  component's engine and writes the queues there.
- `VulkanInstanceComponent::initialize` writes `vkInstanceComponent.vkInstance`
  and calls `set_vulkanEngine(vkEngine)` (components/VulkanInstanceComponent.cpp:24-25),
  but neither `VulkanInstanceComponent` (components/VulkanInstanceComponent.h)
  nor its base `VulkanComponent`, which holds only the protected `vkEngine_`,
  declares them. The model reads them as two fields of the returned
  component, the created instance and the engine (`InstanceComponent`).
- `VulkanDeviceComponent::createLogicalDevice` reads
  `_vkEngine->validationLayers` (components/VulkanDeviceComponent.cpp:85-86),
  which `VulkanEngine` does not declare; the list is the global
  `validationLayers` of VulkanEngine.h:32. `DeviceCreateInfoOf` uses that
  global (`ValidationLayers`).
- The submit in `drawFrame` waits on and signals the same image-available
  semaphore, and present waits on that semaphore too. The model keeps this as
  written.

## Model

| member | source | states |
|---|---|---|
| Vk.Then | VulkanTriangle/src/config/VulkanDrawingBufferConfigurator.cpp:3-8 | two void calls in sequence: the pair succeeds iff both do; a failure of the first is the outcome and the second is not run; otherwise the outcome is the second's |
| EngineTypes.QuerySwapChainSupport | VulkanTriangle/src/VulkanEngine.h:59-79 | the capabilities are copied; the format list is empty exactly when the driver reports no format, and likewise the present-mode list; otherwise each has the reported count |
| EngineTypes.RunInOrder | VulkanTriangle/src/VulkanEngine.h:42-51 | running the constructor's steps one after another executes a prefix of them; the run succeeds iff every step succeeds; on failure the last step executed is the one that threw and all before it succeeded |
| EngineTypes.RunReaches | VulkanTriangle/src/VulkanEngine.h:42-51 | step k is executed iff every earlier step returned normally |
| EngineTypes.ConstructorOrder | VulkanTriangle/src/VulkanEngine.h:46-50 | for the constructor's own sequence (window, instance, device, swapchain, image views, pipeline, drawing buffers), each step runs iff all earlier ones succeeded; the steps are abstract tokens whose success is a parameter, not tied to the modelled step methods |
| QueueFamilies.ScanStepKeeps | VulkanTriangle/src/main.cpp:320-337 | an iteration that leaves the indices incomplete keeps the scan invariant: each recorded index has its capability and is the last such index seen, and the scan had no reason to stop |
| QueueFamilies.ScanStopCharacterized | VulkanTriangle/src/main.cpp:330-335 | the iteration that completes the indices gives a result in which both recorded indices have their capability and are at most the stopping index, and no earlier index had seen both |
| QueueFamilies.ScanFromCharacterized | VulkanTriangle/src/main.cpp:320-339 | a scan resumed at index i from a state that satisfies the invariant returns a result with every property promised of findQueueFamiliesInner |
| QueueFamilies.FoundFamiliesCharacterized | VulkanTriangle/src/main.cpp:308-340 | the scan from the start returns indices that name families with the graphics flag or present support, are complete iff both capabilities exist, and stop at the first index by which both were seen |
| QueueFamilies.FindQueueFamilies | VulkanTriangle/src/main.cpp:308-340 | the loop with its early break returns the scan's result: any graphics index has the graphics flag and any present index can present; the result is complete iff some family has graphics and some can present; the scan stops at the first index where both are set; each index is the last one with its capability among those examined |
| FrameProtocol.FrameEventsShape | VulkanTriangle/src/main.cpp:84-131 | one frame first waits on the slot fence and acquires; it waits on the image's previous fence iff that entry is non-null, and on no other fence; then it claims the image and resets the fence immediately before the submit, which is fenced by that same fence; present follows only a successful submit |
| FrameProtocol.FrameSubmitsOnce | VulkanTriangle/src/main.cpp:104-114 | a frame adds exactly one submission, of the acquired image's command buffer, and it is that image's last submission |
| FrameProtocol.FrameKeepsOwned | VulkanTriangle/src/main.cpp:90-94 | after the claim the table still agrees with the trace: the acquired image's entry is the slot fence of its last submission, and every other entry keeps its meaning |
| FrameProtocol.FrameKeepsHazardFree | VulkanTriangle/src/main.cpp:90-92 | when the acquired image was submitted before, the fence of that submission is waited on before the image is submitted again |
| FrameProtocol.FrameKeepsProtocol | VulkanTriangle/src/main.cpp:84-131 | one frame keeps both protocol invariants, table ownership and no hazard |
| FrameProtocol.FrameStep | VulkanTriangle/src/main.cpp:84-131 | from a consistent and live state whose waited-on fences are all signaled, the frame resets the slot fence (no longer signaled) and, after a successful submit, makes it pending; the resulting fences, table and trace are consistent again, and after a successful submit every slot fence is still signaled or pending |
| FrameProtocol.InitialConsistent | VulkanTriangle/src/main.cpp:142-163 | an all-null table, all slot fences signaled, none pending and an empty trace form a consistent and live state |
| FrameProtocol.ElementsAtMost | VulkanTriangle/src/main.cpp:21 | the helper lemma of `InFlightBound`: a sequence of n handles, such as the MAX_FRAMES_IN_FLIGHT fences createSyncObjects makes, has at most n distinct elements |
| VulkanEngine.Engine.constructor | VulkanTriangle/src/VulkanEngine.h:84-118 | the member defaults: physicalDevice null (VulkanEngine.h:90) and currentFrame 0 (:118); every vector empty and both family indices absent; no fence known and no call made; the handles the header leaves uninitialised (instance, surface, device, swapchain, command pool, render pass, pipeline) start null and both queues NoQueue here (see Left out) |
| VulkanEngine.Engine.AdoptSwapChain | VulkanTriangle/src/VulkanEngine.h:46-49 | the swapchain, its images, format and extent, the render pass and the pipeline are set to what the unmodelled creation steps produced; nothing else changes |
| VulkanEngine.Engine.InitialStateIsLive | VulkanTriangle/src/config/VulkanDrawingBufferConfigurator.cpp:92-113 | the state createSyncObjects leaves (K non-null fences all signaled, an all-null table sized to the images, cursor in range) satisfies the frame loop's invariant and liveness |
| VulkanEngine.Engine.DrawFrame | VulkanTriangle/src/main.cpp:84-131 | runs only when the slot fence, and the image's previous fence if any, are signaled (a wait returns on a signaled fence only); the claim changes exactly the acquired image's entry, to the pre-increment slot fence; the reset takes the slot fence out of the signaled set and a successful submit makes it pending; currentFrame becomes (old + 1) mod MAX_FRAMES_IN_FLIGHT, so it stays below 2; a failed submit is SubmitFailed and leaves the cursor; the calls made are exactly one frame's; the invariant is kept, and liveness after a successful submit |
| VulkanEngine.Engine.GpuSignal | VulkanTriangle/src/main.cpp:85 | the environment step: the GPU completing a pending fence moves it to signaled and keeps the invariant and liveness; it is the only step that signals a fence |
| VulkanEngine.Engine.AwaitFence | VulkanTriangle/src/main.cpp:85 | a blocking wait on a slot fence of a live state ends: the GPU signals the fence if it is pending, after which it is signaled, nothing else changes and the state is still live |
| VulkanEngine.Engine.Throttle | VulkanTriangle/src/main.cpp:85-92 | the two waits of drawFrame cannot block for ever: from a live state the GPU can signal the slot fence and the image's previous fence, which establishes what DrawFrame requires, without touching the table, the trace or the cursor |
| VulkanEngine.Engine.InFlightBound | VulkanTriangle/src/main.cpp:21 | under the invariant, at most MAX_FRAMES_IN_FLIGHT fences guard unfinished GPU work |
| DrawingBuffers.Resized | VulkanTriangle/src/main.cpp:143-146 | resizing a handle vector to n keeps the first entries and fills the new ones with null |
| DrawingBuffers.Resize | VulkanTriangle/src/main.cpp:146 | the resized vector is a fresh array whose contents are the resize of the old contents |
| DrawingBuffers.SucceedingPrefix | VulkanTriangle/src/main.cpp:285-304 | the count of leading elements on which a creation succeeds: all of them succeed, and the next one fails |
| DrawingBuffers.ImageViewsOutcome | VulkanTriangle/src/main.cpp:282-306 | what createImageViews returns: Done or ImageViewCreationFailed, nothing else |
| DrawingBuffers.FramebuffersOutcome | VulkanTriangle/src/config/VulkanDrawingBufferConfigurator.cpp:10-31 | what createFramebuffers returns: Done or FramebufferCreationFailed, nothing else |
| DrawingBuffers.PoolOutcome | VulkanTriangle/src/config/VulkanDrawingBufferConfigurator.cpp:33-44 | what createCommandPool returns for a family: BadOptionalAccess iff the family is absent; Done iff it is present and the driver grants the pool; otherwise CommandPoolCreationFailed |
| DrawingBuffers.CommandBuffersOutcome | VulkanTriangle/src/config/VulkanDrawingBufferConfigurator.cpp:46-90 | what createCommandBuffers returns: CommandBufferAllocationFailed iff the allocation is refused; otherwise Done or one of the begin and record errors |
| DrawingBuffers.SyncOutcome | VulkanTriangle/src/config/VulkanDrawingBufferConfigurator.cpp:92-113 | what createSyncObjects returns: Done or SyncObjectCreationFailed, nothing else |
| DrawingBuffers.ImageViewsOutcomeMeans | VulkanTriangle/src/main.cpp:285-304 | createImageViews succeeds iff the driver accepts the view of every swapchain image, in the swapchain format |
| DrawingBuffers.FramebuffersOutcomeMeans | VulkanTriangle/src/config/VulkanDrawingBufferConfigurator.cpp:13-30 | createFramebuffers succeeds iff the driver accepts, for every view, the framebuffer with the render pass, that view alone, the swapchain size and one layer |
| DrawingBuffers.CommandBuffersOutcomeMeans | VulkanTriangle/src/config/VulkanDrawingBufferConfigurator.cpp:48-89 | createCommandBuffers succeeds iff the allocation is granted and every allocated buffer is begun and ended cleanly |
| DrawingBuffers.SyncOutcomeMeans | VulkanTriangle/src/config/VulkanDrawingBufferConfigurator.cpp:98-112 | createSyncObjects succeeds iff every frame slot gets both semaphores and its fence |
| DrawingBuffers.StepReached | VulkanTriangle/src/main.cpp:134-140 | the step of initVulkan an outcome comes from (image views 1 to sync objects 5); 6 exactly for success |
| DrawingBuffers.CreatedViews | VulkanTriangle/src/main.cpp:285-304 | the views createImageViews stores after a full success: one per swapchain image |
| DrawingBuffers.BuffersThenSyncOutcome | VulkanTriangle/src/config/VulkanDrawingBufferConfigurator.cpp:6-7 | command buffers then sync objects: Done iff both succeed; a command-buffer error iff that step fails, and then it is that step's own error; SyncObjectCreationFailed iff the command buffers succeed and the sync objects fail |
| DrawingBuffers.PoolThenBuffersOutcome | VulkanTriangle/src/config/VulkanDrawingBufferConfigurator.cpp:5-7 | pool, command buffers, sync objects: BadOptionalAccess iff the family is absent; CommandPoolCreationFailed iff it is present and the pool is refused; a failed pool step is the whole outcome; after a granted pool the outcome is that of the command buffers and sync objects on that pool; Done iff every step succeeds |
| DrawingBuffers.DrawingBuffersOutcome | VulkanTriangle/src/config/VulkanDrawingBufferConfigurator.cpp:3-8 | what configureDrawingBuffers returns: FramebufferCreationFailed iff the framebuffers fail; once they succeed, the outcome of the pool, command buffers and sync objects for as many buffers as views; Done iff every step succeeds |
| DrawingBuffers.InitOutcome | VulkanTriangle/src/main.cpp:134-140 | what initVulkan returns: ImageViewCreationFailed iff the image views fail; once they succeed, the outcome of the later steps with framebuffers over exactly the views created; Done iff every step succeeds |
| DrawingBuffers.CreateImageViews | VulkanTriangle/src/main.cpp:282-306 | there are as many views as swapchain images; views are created in order, view i from swapchain image i in the swapchain format; the first failure is ImageViewCreationFailed, and until then each view is the driver's answer for its image |
| DrawingBuffers.ImageViewsStep | VulkanTriangle/src/main.cpp:282-306 | createImageViews as initVulkan sees it: as many fresh views as images; the result is ImageViewsOutcome; on success the views are exactly CreatedViews |
| DrawingBuffers.CreateFramebuffers | VulkanTriangle/src/config/VulkanDrawingBufferConfigurator.cpp:10-31 | there are as many framebuffers as image views; framebuffer i is the driver's answer for the render pass, view i as the only attachment, the swapchain width and height and one layer; the first failure is FramebufferCreationFailed, and the framebuffers before it are set |
| DrawingBuffers.FramebuffersStep | VulkanTriangle/src/main.cpp:259-280 | createFramebuffers as the sequencers see it: the vector is fresh and matches the image views in length; the result is FramebuffersOutcome of the image views; on success framebuffer i is the driver's granted answer for view i |
| DrawingBuffers.CreateCommandPoolOn | VulkanTriangle/src/config/VulkanDrawingBufferConfigurator.cpp:33-44 | an absent family is BadOptionalAccess and leaves the pool; otherwise the pool is created for that family, and its failure is CommandPoolCreationFailed |
| DrawingBuffers.CreateCommandPool | VulkanTriangle/src/config/VulkanDrawingBufferConfigurator.cpp:33-44 | the pool uses the engine's graphics family index, which must be present (else BadOptionalAccess); a failed creation is CommandPoolCreationFailed |
| DrawingBuffers.CreateCommandPoolByScan | VulkanTriangle/src/main.cpp:197-208 | `families` is required to be the queue families the driver reports for the engine's selected adapter (`DeviceSelection.FamiliesOf(devices, e.physicalDevice)`), as main.cpp:198 passes physicalDevice; the pool is for the graphics family findQueueFamiliesInner returns; without one the result is BadOptionalAccess, exactly when no family has the graphics flag, and the pool is untouched; otherwise the pool is the driver's answer for that family, a refusal being CommandPoolCreationFailed with the pool untouched; a created pool is for a family with the graphics flag |
| DrawingBuffers.Recorded | VulkanTriangle/src/main.cpp:222-255 | the definition the recording contracts are stated with: one entry per framebuffer, the draw commands for buffers already recorded and nothing for the rest |
| DrawingBuffers.RecordCommandBuffers | VulkanTriangle/src/config/VulkanDrawingBufferConfigurator.cpp:58-89 | buffers are begun, filled and ended in order; the first begin failure is CommandBufferBeginFailed and the first end failure is CommandBufferRecordFailed; every buffer reached holds, for its own framebuffer, a render pass at offset (0, 0) over the swapchain extent with one clear value, the pipeline bind, a draw of 3 vertices in 1 instance and the end of the pass |
| DrawingBuffers.CreateCommandBuffers | VulkanTriangle/src/config/VulkanDrawingBufferConfigurator.cpp:46-90 | there are as many command buffers as framebuffers, allocated as primary buffers from the pool; a failed allocation is CommandBufferAllocationFailed and records nothing; otherwise the buffers are the allocation and are recorded as RecordCommandBuffers states, so on success command buffer i draws into framebuffer i |
| DrawingBuffers.CreateSlotObjects | VulkanTriangle/src/config/VulkanDrawingBufferConfigurator.cpp:98-112 | success iff every slot's two semaphores and fence are created; the only error is SyncObjectCreationFailed; on success every slot holds the driver's handles |
| DrawingBuffers.ResizeSyncVectors | VulkanTriangle/src/config/VulkanDrawingBufferConfigurator.cpp:93-96 | the per-slot vectors have MAX_FRAMES_IN_FLIGHT entries and are distinct arrays; the image table is resized to the image count with new entries null |
| DrawingBuffers.CreateSyncObjects | VulkanTriangle/src/config/VulkanDrawingBufferConfigurator.cpp:92-113 | per-slot arrays of length MAX_FRAMES_IN_FLIGHT; success iff every slot's objects are created; all fences start signaled and none pending; when the table was empty it becomes all null, and the state is live for the first frame |
| DrawingBuffers.CommandBuffersThenSyncObjects | VulkanTriangle/src/config/VulkanDrawingBufferConfigurator.cpp:6-7 | the result is BuffersThenSyncOutcome for the engine's pool and framebuffer count, so the sync objects are made iff the command buffers succeed; a command-buffer error leaves the sync objects untouched; on success the command buffers match the framebuffers and the state is live |
| DrawingBuffers.PoolThenBuffers | VulkanTriangle/src/config/VulkanDrawingBufferConfigurator.cpp:5-7 | the result is PoolThenBuffersOutcome for the family, so each step runs iff the one before succeeded; a granted pool is the engine's pool; a pool error leaves pool, command buffers and recordings untouched; any error before the sync-object step leaves the sync objects untouched |
| DrawingBuffers.ConfigureDrawingBuffers | VulkanTriangle/src/config/VulkanDrawingBufferConfigurator.cpp:3-8 | the result is DrawingBuffersOutcome of the image views and the engine's stored graphics family, so each step runs iff every earlier one returned normally and the run succeeds iff all do; a failing step leaves the later steps' state untouched; on success the counts match and the frame loop starts live |
| DrawingBuffers.InitAfterImageViews | VulkanTriangle/src/main.cpp:136-139 | `families` is required to be the selected adapter's reported queue families; the result is DrawingBuffersOutcome of the image views and the graphics family the scan finds, so each step runs iff every earlier one returned normally; without a graphics family the run fails; the same untouched-state facts |
| DrawingBuffers.InitVulkan | VulkanTriangle/src/main.cpp:134-140 | `families` is required to be the selected adapter's reported queue families; the result is InitOutcome of the swapchain images, so each of the five steps runs iff every earlier one returned normally and the run succeeds iff all do; a failing step leaves the later steps' state untouched; on success views, framebuffers and command buffers match the image count and the frame loop starts live |
| DeviceSelection.CheckDeviceExtensionSupport | VulkanTriangle/src/config/VulkanDeviceInitializer.cpp:104-118 | erasing every available name from the required set leaves it empty iff every required extension is available; extra available names do not matter (same code at components/VulkanDeviceComponent.cpp:117-131) |
| DeviceSelection.IsDeviceSuitable | VulkanTriangle/src/config/VulkanDeviceInitializer.cpp:90-102 | suitable iff the family indices are complete, the extensions are supported, and both the format and present-mode lists are non-empty; swapchain support is queried iff the extensions are supported (same code at components/VulkanDeviceComponent.cpp:103-115) |
| DeviceSelection.FirstSuitable | VulkanTriangle/src/config/VulkanDeviceInitializer.cpp:28-33 | the adapter the selection loop ends with: the target unchanged iff no adapter is suitable, otherwise the first suitable adapter in enumeration order |
| DeviceSelection.SelectFirstSuitable | VulkanTriangle/src/config/VulkanDeviceInitializer.cpp:28-33 | the loop chooses FirstSuitable: the first suitable adapter in enumeration order; with none suitable the target keeps its value |
| DeviceSelection.PickOutcome | VulkanTriangle/src/config/VulkanDeviceInitializer.cpp:15-38 | what pickPhysicalDevice returns: NoVulkanGpu iff no adapter is enumerated; NoSuitableGpu iff some are, the target was null and none is suitable; otherwise Done |
| DeviceSelection.PickPhysicalDevice | VulkanTriangle/src/components/VulkanDeviceComponent.cpp:28-51 | the result is PickOutcome: zero adapters give NoVulkanGpu; otherwise the first suitable one is chosen, and a target still null gives NoSuitableGpu |
| DeviceSelection.PassedQueueFamilies | VulkanTriangle/src/config/VulkanDeviceInitializer.cpp:63-65 | the definition of what the driver reads of the queue list: no more entries than the list holds and no more than queueCreateInfoCount says; DeviceCreateInfoOf states what this gives after the overwrite |
| DeviceSelection.DeviceCreateInfoOf | VulkanTriangle/src/config/VulkanDeviceInitializer.cpp:44-77 | one queue entry per distinct family in {graphics, present} (one if equal, two otherwise), each with one queue; the count is overwritten to 1, so only the lower family reaches the driver; the swapchain extension; the validation layers iff enabled, else 0 layers |
| DeviceSelection.DeviceCreateInfoFor | VulkanTriangle/src/components/VulkanDeviceComponent.cpp:57-90 | reading an incomplete index is BadOptionalAccess; otherwise the push_back loop over the ascending family set builds exactly that create info |
| DeviceSelection.CreateLogicalDeviceFor | VulkanTriangle/src/config/VulkanDeviceInitializer.cpp:40-85 | BadOptionalAccess iff no family has graphics or none can present; otherwise LogicalDeviceCreationFailed iff vkCreateDevice fails, and on success both queues are index 0 of their family on the new device |
| DeviceSelection.LogicalDeviceOutcome | VulkanTriangle/src/config/VulkanDeviceInitializer.cpp:40-85 | what createLogicalDevice returns for an adapter's families: BadOptionalAccess iff no family has graphics or none can present; otherwise Done or LogicalDeviceCreationFailed |
| DeviceSelection.Lookup | VulkanTriangle/src/config/VulkanDeviceInitializer.cpp:42 | the driver's report for an adapter handle is one with that handle, and there is none iff no enumerated adapter has it |
| DeviceInitializer.CreateSurface | VulkanTriangle/src/config/VulkanDeviceInitializer.cpp:9-13 | a failed window-surface creation is SurfaceCreationFailed and leaves the surface; otherwise the engine holds the new surface |
| DeviceInitializer.PickPhysicalDevice | VulkanTriangle/src/config/VulkanDeviceInitializer.cpp:15-38 | the result is PickOutcome of the adapters and the old physicalDevice: zero adapters give NoVulkanGpu and leave physicalDevice; otherwise the engine gets FirstSuitable; a physicalDevice still null gives NoSuitableGpu |
| DeviceInitializer.CreateLogicalDevice | VulkanTriangle/src/config/VulkanDeviceInitializer.cpp:40-85 | the result is LogicalDeviceOutcome: BadOptionalAccess iff the families lack graphics or present; otherwise the engine's device is vkCreateDevice's answer for the create info above, and the queues are index 0 of the graphics and present families; nothing changes on failure |
| DeviceInitializer.InitializeDevice | VulkanTriangle/src/config/VulkanDeviceInitializer.cpp:3-7 | surface, adapter, logical device: the result is the surface outcome, then PickOutcome, then LogicalDeviceOutcome for the first suitable adapter's families, each run iff the one before returned normally; NoVulkanGpu iff the surface succeeded and no adapter is enumerated; NoSuitableGpu iff the surface succeeded, the adapters are all unsuitable and physicalDevice was null; no adapter is chosen without a surface and no device made without an adapter; on success the adapter is non-null, its families are complete and the device and queues come from them |
| DeviceComponents.DeviceComponent.constructor | VulkanTriangle/src/components/VulkanDeviceComponent.h:21 | the component refers to its engine and starts with a null physicalDevice; surface and device start null |
| DeviceComponents.DeviceComponent.New | VulkanTriangle/src/components/VulkanDeviceComponent.cpp:5-8 | construction runs initialize on the member defaults: the result is the surface outcome, then PickOutcome from a null physicalDevice, then LogicalDeviceOutcome for the first suitable adapter's families, each run iff the one before returned normally; NoVulkanGpu iff the surface succeeded and no adapter is enumerated; NoSuitableGpu iff the surface succeeded and no adapter is suitable; surface failure leaves no surface and no adapter; on success a non-null adapter with complete families, the device vkCreateDevice answered for their create info, and queue 0 of each family in the engine |
| DeviceComponents.DeviceComponent.CreateSurface | VulkanTriangle/src/components/VulkanDeviceComponent.cpp:22-26 | the surface on the instance component's instance goes into the component; failure is SurfaceCreationFailed and leaves it |
| DeviceComponents.DeviceComponent.PickPhysicalDevice | VulkanTriangle/src/components/VulkanDeviceComponent.cpp:28-51 | the result is PickOutcome of the adapters and the old physicalDevice: zero adapters give NoVulkanGpu; the component's physicalDevice becomes FirstSuitable; still null gives NoSuitableGpu |
| DeviceComponents.DeviceComponent.CreateLogicalDevice | VulkanTriangle/src/components/VulkanDeviceComponent.cpp:53-98 | the result is LogicalDeviceOutcome, the same outcomes as the initializer's createLogicalDevice, with the device in the component and queue 0 of each family in the engine; nothing changes on failure |
| DeviceComponents.DeviceComponent.Initialize | VulkanTriangle/src/components/VulkanDeviceComponent.cpp:10-14 | surface, adapter, logical device: the result is the surface outcome, then PickOutcome from the old physicalDevice, then LogicalDeviceOutcome for the first suitable adapter's families, each run iff the one before returned normally; NoVulkanGpu and NoSuitableGpu iff as for InitializeDevice; on success the component's fields and the engine's queues come from the first suitable adapter |
| InstanceComponents.CheckValidationLayerSupport | VulkanTriangle/src/components/VulkanInstanceComponent.cpp:29-52 | true iff every requested layer equals some available one (so an empty request is true); on false, the last name examined is the first missing one, every earlier name is available and the later ones are not examined |
| InstanceComponents.RequiredExtensions | VulkanTriangle/src/components/VulkanInstanceComponent.cpp:54-66 | the windowing extensions in order, followed by exactly one debug-utils extension iff validation is enabled; the length is the base count plus 0 or 1 |
| InstanceComponents.GetRequiredExtensions | VulkanTriangle/src/components/VulkanInstanceComponent.cpp:54-66 | the copy-and-conditional-append returns exactly the required extension list |
| InstanceComponents.SetupValidationLayers | VulkanTriangle/src/components/VulkanInstanceComponent.cpp:68-86 | when enabled its copy gets the layers and a debug-messenger info with verbose, warning and error severities and general, validation and performance types; when disabled, zero layers and nothing chained; the caller's value is not touched |
| InstanceComponents.Initialize | VulkanTriangle/src/components/VulkanInstanceComponent.cpp:4-27 | with validation enabled and a layer missing it raises ValidationLayersUnavailable before any instance creation; otherwise vkCreateInstance gets the application info ("Hello Triangle", "No Engine", versions 1.0.0) and the required extensions with a count equal to their number, and still no layers and no pNext; a failed creation is InstanceCreationFailed; on success the component holds the new instance |

## Left out

- Every `vk*` and `glfw*` call is a parameter, not modelled code: driver
  answers are a `Driver` record or functions from create info to an optional
  handle, and enumerations are sequences of adapter reports.
- The GPU's concurrency is modelled as the ghost environment step
  `GpuSignal`, which must have signaled every fence a frame waits on. The
  `UINT64_MAX` timeouts, `vkQueueWaitIdle` (main.cpp:128) and
  `vkDeviceWaitIdle` (main.cpp:81) are not modelled.
- The result codes of acquire and present are ignored by the program. The
  acquired index is an input with the precondition index < image count,
  which the code itself never checks.
- VulkanEngine.Engine.DrawFrame: a failed submit still appends the submit call to the
  trace and moves the slot fence to neither set. It promises the invariant but
  not liveness, because the program throws there.
- The swapchain: format, present-mode and extent choice, `createSwapChain`,
  the render pass and the pipeline have no bodies to model. Their results
  enter through `Engine.AdoptSwapChain`.
- `readFile` (file I/O), `debugCallback` (printing), `DoA` / `Notify` (which
  calls a method that does not exist), both `DebugMessenger.cpp` files, both
  `VulkanInitializer.cpp` files, `cleanup` and the window creation.
- Floating point: the clear colour (main.cpp:240) and the queue priority
  (VulkanDeviceInitializer.cpp:47). The numeric packing of `VK_MAKE_VERSION`
  is replaced by its three parts.
- `VulkanDeviceComponent::initializeDevice` (VulkanDeviceComponent.cpp:16-20)
  calls overloads that do not exist, so there is nothing to model.
- `HelloTriangleApplication` declares its own copies of the view, framebuffer,
  pool, command-buffer and sync vectors and of `currentFrame`
  (main.cpp:63-73), beside those of `VulkanEngine`. The model keeps one set,
  on the engine.
- VulkanEngine.Engine.constructor: `instance`, `surface`, `device`, the
  swapchain, pool, render-pass, pipeline and queue handles have no
  initializer in VulkanEngine.h (:85, :89, :91 and the fields after), so
  their start values are indeterminate there. Here they start null (the
  queues `NoQueue`). Only `physicalDevice` and `currentFrame` have
  initializers in the source.
- DrawingBuffers.CreateSyncObjects: after a failure, which slot handles were
  already written is not stated.
- DrawingBuffers.CreateSlotObjects: on failure only the error is stated, not
  the partial contents of the slot arrays.
- DeviceComponents.DeviceComponent.constructor: `surface` and `device` have no
  initializer in the C++ header, so their start values are indeterminate
  there. Here they start null.
- DeviceComponents.DeviceComponent.PickPhysicalDevice: present support in
  `isDeviceSuitable` is judged for the engine's surface, not the component's
  own. The model takes present support as part of the adapter report, so this
  difference is not visible.
- DeviceInitializer.CreateLogicalDevice: an adapter handle that was not
  enumerated has no queue families (`FamiliesOf` gives none). The program
  never reaches that case.
- `Utils::findQueueFamilies` is not part of this model. It is taken to be
  `findQueueFamiliesInner` of main.cpp.
- Some helpers have no C++ counterpart; they split a C++ function so that
  each proof stays small:
  - `InitAfterImageViews`, `PoolThenBuffers`, `CommandBuffersThenSyncObjects`,
    `ImageViewsStep` and `FramebuffersStep` are steps of `initVulkan` and
    `configureDrawingBuffers`. Both sequencers create the pool through
    `CreateCommandPoolOn`, given the family each draft's `createCommandPool`
    reads. `CreateCommandPool` and `CreateCommandPoolByScan` model those two
    bodies on their own;
  - `RecordCommandBuffers` is the loop of `createCommandBuffers`;
  - `DeviceSelection` holds the parts both device drafts share.
