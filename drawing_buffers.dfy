/** Creation of the per-image and per-slot objects: image views and
    framebuffers, the command pool and command buffers, and the frame-loop
    sync objects (config/VulkanDrawingBufferConfigurator.cpp, and the
    identical routines of main.cpp). */
module DrawingBuffers {
  import opened Vk
  import opened EngineTypes
  import opened FrameProtocol
  import opened VulkanEngine
  import QueueFamilies
  import DeviceSelection

  /** std::vector::resize(n) on a vector of handles: the first entries are
      kept, new entries are VK_NULL_HANDLE. */
  function Resized(s: seq<Handle>, n: nat): (r: seq<Handle>)
    ensures |r| == n
    ensures forall i :: 0 <= i < n && i < |s| ==> r[i] == s[i]
    ensures forall i :: |s| <= i < n ==> r[i] == NULL_HANDLE
  {
    if n <= |s| then s[..n] else s + seq(n - |s|, _ => NULL_HANDLE)
  }

  method Resize(a: array<Handle>, n: nat) returns (b: array<Handle>)
    ensures fresh(b) && b[..] == Resized(a[..], n)
  {
    b := new Handle[n];
    for i := 0 to n
      invariant b[..i] == Resized(a[..], n)[..i]
    {
      b[i] := if i < a.Length then a[i] else NULL_HANDLE;
    }
  }

  /** The length of the longest prefix of `xs` on which `ok` holds: how far
      a loop that throws at the first failure gets. */
  function SucceedingPrefix<T>(xs: seq<T>, ok: T -> bool): (k: nat)
    ensures k <= |xs|
    ensures forall i :: 0 <= i < k ==> ok(xs[i])
    ensures k < |xs| ==> !ok(xs[k])
  {
    if xs == [] || !ok(xs[0]) then 0 else 1 + SucceedingPrefix(xs[1..], ok)
  }

  /** One create info per swapchain image: that image, in the swapchain format. */
  function ImageViewInfos(images: seq<Handle>, format: nat): seq<ImageViewCreateInfo> {
    seq(|images|, i requires 0 <= i < |images| => ImageViewCreateInfo(images[i], format))
  }

  /** One create info per image view: the render pass, that view as the only
      attachment, the swapchain extent and one layer. */
  function FramebufferInfos(renderPass: Handle, views: seq<Handle>, extent: Extent2D)
    : seq<FramebufferCreateInfo>
  {
    seq(|views|, i requires 0 <= i < |views| =>
      FramebufferCreateInfo(renderPass, [views[i]], extent.width, extent.height, 1))
  }

  /** The commands createCommandBuffers records into the buffer of one
      framebuffer: a render pass over the whole extent with one clear value,
      the graphics pipeline, and one draw of three vertices. */
  function DrawCommands(renderPass: Handle, framebuffer: Handle, extent: Extent2D, pipeline: Handle)
    : seq<Command>
  {
    [BeginRenderPass(renderPass, framebuffer, 0, 0, extent, 1), BindPipeline(pipeline), Draw(3, 1, 0, 0),
     EndRenderPass]
  }

  /** What createImageViews returns: it throws exactly when the view of some
      swapchain image is refused. */
  function ImageViewsOutcome(driver: Driver, images: seq<Handle>, format: nat): (r: Outcome)
    ensures r == Done || r == Fail(ImageViewCreationFailed)
  {
    var infos := ImageViewInfos(images, format);
    if SucceedingPrefix(infos, info => driver.createImageView(info).Some?) == |infos| then Done
    else Fail(ImageViewCreationFailed)
  }

  /** What createFramebuffers returns: it throws exactly when the framebuffer
      of some image view is refused. */
  function FramebuffersOutcome(driver: Driver, renderPass: Handle, views: seq<Handle>, extent: Extent2D)
    : (r: Outcome)
    ensures r == Done || r == Fail(FramebufferCreationFailed)
  {
    var infos := FramebufferInfos(renderPass, views, extent);
    if SucceedingPrefix(infos, info => driver.createFramebuffer(info).Some?) == |infos| then Done
    else Fail(FramebufferCreationFailed)
  }

  /** What createCommandPool returns for queue family `family`: reading an
      absent family throws before vkCreateCommandPool is called. */
  function PoolOutcome(driver: Driver, family: Option<nat>): (r: Outcome)
    ensures r == Fail(BadOptionalAccess) <==> family.None?
    ensures r.Done? <==> family.Some? && driver.createCommandPool(CommandPoolCreateInfo(family.value, 0)).Some?
    ensures r.Done? || r == Fail(BadOptionalAccess) || r == Fail(CommandPoolCreationFailed)
  {
    if family.None? then Fail(BadOptionalAccess)
    else if driver.createCommandPool(CommandPoolCreateInfo(family.value, 0)).None? then Fail(CommandPoolCreationFailed)
    else Done
  }

  /** What createCommandBuffers returns for `n` buffers from `pool`: the
      allocation, then begin and end on each buffer in order, throwing at the
      first refusal. */
  function CommandBuffersOutcome(driver: Driver, pool: Handle, n: nat): (r: Outcome)
    ensures r == Fail(CommandBufferAllocationFailed) <==>
              driver.allocateCommandBuffers(CommandBufferAllocateInfo(pool, COMMAND_BUFFER_LEVEL_PRIMARY, n)).None?
    ensures r.Done? || r.error in {CommandBufferAllocationFailed, CommandBufferBeginFailed, CommandBufferRecordFailed}
  {
    var allocation := driver.allocateCommandBuffers(CommandBufferAllocateInfo(pool, COMMAND_BUFFER_LEVEL_PRIMARY, n));
    if allocation.None? then Fail(CommandBufferAllocationFailed)
    else
      var buffers := allocation.value;
      var k := SucceedingPrefix(buffers, b => RecordsCleanly(driver, b));
      if k == |buffers| then Done
      else if !driver.beginCommandBuffer(buffers[k]) then Fail(CommandBufferBeginFailed)
      else Fail(CommandBufferRecordFailed)
  }

  /** What createSyncObjects returns: it throws exactly when some slot's
      semaphores or fence are refused. */
  function SyncOutcome(driver: Driver): (r: Outcome)
    ensures r == Done || r == Fail(SyncObjectCreationFailed)
  {
    if forall i :: 0 <= i < MAX_FRAMES_IN_FLIGHT ==> SlotCreated(driver, i) then Done
    else Fail(SyncObjectCreationFailed)
  }

  /** createImageViews succeeds exactly when the driver accepts the view of
      every swapchain image. */
  lemma ImageViewsOutcomeMeans(driver: Driver, images: seq<Handle>, format: nat)
    ensures ImageViewsOutcome(driver, images, format).Done? <==>
              forall i :: 0 <= i < |images| ==> driver.createImageView(ImageViewCreateInfo(images[i], format)).Some?
  {
    var infos := ImageViewInfos(images, format);
    assert forall i :: 0 <= i < |images| ==> infos[i] == ImageViewCreateInfo(images[i], format);
  }

  /** createFramebuffers succeeds exactly when the driver accepts the
      framebuffer of every image view. */
  lemma FramebuffersOutcomeMeans(driver: Driver, renderPass: Handle, views: seq<Handle>, extent: Extent2D)
    ensures FramebuffersOutcome(driver, renderPass, views, extent).Done? <==>
              forall i :: 0 <= i < |views| ==>
                driver.createFramebuffer(FramebufferCreateInfo(renderPass, [views[i]], extent.width, extent.height, 1)).Some?
  {
    var infos := FramebufferInfos(renderPass, views, extent);
    assert forall i :: 0 <= i < |views| ==>
             infos[i] == FramebufferCreateInfo(renderPass, [views[i]], extent.width, extent.height, 1);
  }

  /** createCommandBuffers succeeds exactly when the allocation is granted
      and every allocated buffer is begun and ended cleanly. */
  lemma CommandBuffersOutcomeMeans(driver: Driver, pool: Handle, n: nat)
    ensures CommandBuffersOutcome(driver, pool, n).Done? <==>
              var allocation := driver.allocateCommandBuffers(
                                  CommandBufferAllocateInfo(pool, COMMAND_BUFFER_LEVEL_PRIMARY, n));
              allocation.Some? && forall i :: 0 <= i < |allocation.value| ==> RecordsCleanly(driver, allocation.value[i])
  {
  }

  /** createSyncObjects succeeds exactly when every frame slot gets its two
      semaphores and its fence. */
  lemma SyncOutcomeMeans(driver: Driver)
    ensures SyncOutcome(driver).Done? <==> forall i :: 0 <= i < MAX_FRAMES_IN_FLIGHT ==> SlotCreated(driver, i)
  {
  }

  /** How far initVulkan's steps got when they returned `r`: the step
      whose error `r` is (1 image views, 2 framebuffers, 3 command pool,
      4 command buffers, 5 sync objects), 6 when every step succeeded. */
  function StepReached(r: Outcome): (step: nat)
    ensures step <= 6
    ensures step == 6 <==> r.Done?
  {
    match r
    case Done => 6
    case Fail(ImageViewCreationFailed) => 1
    case Fail(FramebufferCreationFailed) => 2
    case Fail(BadOptionalAccess) => 3
    case Fail(CommandPoolCreationFailed) => 3
    case Fail(CommandBufferAllocationFailed) => 4
    case Fail(CommandBufferBeginFailed) => 4
    case Fail(CommandBufferRecordFailed) => 4
    case Fail(SyncObjectCreationFailed) => 5
    case Fail(_) => 0
  }

  /** The image views createImageViews stores once every call succeeded:
      view i is the driver's answer for image i. */
  function CreatedViews(driver: Driver, images: seq<Handle>, format: nat): (views: seq<Handle>)
    ensures |views| == |images|
  {
    seq<Handle>(|images|, i requires 0 <= i < |images| => CreatedView(driver.createImageView(ImageViewCreateInfo(images[i], format))))
  }

  /** The handle a creation call stored: null when the call was refused. */
  function CreatedView(view: Option<LiveHandle>): (h: Handle)
    ensures view.Some? ==> h == view.value
  {
    if view.Some? then view.value else NULL_HANDLE
  }

  /** What the command buffers for `n` framebuffers from `pool`, followed by
      the sync objects, return: the sync objects are made only when every
      command buffer was recorded. */
  function BuffersThenSyncOutcome(driver: Driver, pool: Handle, n: nat): (r: Outcome)
    ensures r.Done? <==> CommandBuffersOutcome(driver, pool, n).Done? && SyncOutcome(driver).Done?
    ensures r.Fail? && r.error != SyncObjectCreationFailed <==> CommandBuffersOutcome(driver, pool, n).Fail?
    ensures r == Fail(SyncObjectCreationFailed) <==>
              CommandBuffersOutcome(driver, pool, n).Done? && SyncOutcome(driver).Fail?
    ensures CommandBuffersOutcome(driver, pool, n).Fail? ==> r == CommandBuffersOutcome(driver, pool, n)
  {
    Then(CommandBuffersOutcome(driver, pool, n), SyncOutcome(driver))
  }

  /** What the command pool for `family`, followed by the command buffers
      for `n` framebuffers from that pool and the sync objects, return. */
  function PoolThenBuffersOutcome(driver: Driver, family: Option<nat>, n: nat): (r: Outcome)
    ensures r == Fail(BadOptionalAccess) <==> family.None?
    ensures r == Fail(CommandPoolCreationFailed) <==>
              family.Some? && driver.createCommandPool(CommandPoolCreateInfo(family.value, 0)).None?
    ensures PoolOutcome(driver, family).Fail? ==> r == PoolOutcome(driver, family)
    ensures PoolOutcome(driver, family).Done? ==>
              r == BuffersThenSyncOutcome(driver, driver.createCommandPool(CommandPoolCreateInfo(family.value, 0)).value, n)
    ensures r.Done? <==>
              && PoolOutcome(driver, family).Done?
              && BuffersThenSyncOutcome(driver, driver.createCommandPool(CommandPoolCreateInfo(family.value, 0)).value, n).Done?
  {
    if family.None? then Fail(BadOptionalAccess)
    else
      var pool := driver.createCommandPool(CommandPoolCreateInfo(family.value, 0));
      if pool.None? then Fail(CommandPoolCreationFailed) else BuffersThenSyncOutcome(driver, pool.value, n)
  }

  /** What configureDrawingBuffers returns for image views `views` and the
      pool's queue family `family`: framebuffers first, and the rest only
      when every framebuffer was created. */
  function DrawingBuffersOutcome(driver: Driver, renderPass: Handle, views: seq<Handle>, extent: Extent2D,
                                 family: Option<nat>): (r: Outcome)
    ensures r == Fail(FramebufferCreationFailed) <==> FramebuffersOutcome(driver, renderPass, views, extent).Fail?
    ensures FramebuffersOutcome(driver, renderPass, views, extent).Done? ==>
              r == PoolThenBuffersOutcome(driver, family, |views|)
    ensures r.Done? <==>
              FramebuffersOutcome(driver, renderPass, views, extent).Done? &&
              PoolThenBuffersOutcome(driver, family, |views|).Done?
  {
    Then(FramebuffersOutcome(driver, renderPass, views, extent), PoolThenBuffersOutcome(driver, family, |views|))
  }

  /** What initVulkan returns from the image views on: image views first,
      and the framebuffers over exactly the views created, the pool, the
      command buffers and the sync objects only when every view was created. */
  function InitOutcome(driver: Driver, images: seq<Handle>, format: nat, renderPass: Handle, extent: Extent2D,
                       family: Option<nat>): (r: Outcome)
    ensures r == Fail(ImageViewCreationFailed) <==> ImageViewsOutcome(driver, images, format).Fail?
    ensures ImageViewsOutcome(driver, images, format).Done? ==>
              r == DrawingBuffersOutcome(driver, renderPass, CreatedViews(driver, images, format), extent, family)
    ensures r.Done? <==>
              ImageViewsOutcome(driver, images, format).Done? &&
              DrawingBuffersOutcome(driver, renderPass, CreatedViews(driver, images, format), extent, family).Done?
  {
    Then(ImageViewsOutcome(driver, images, format),
         DrawingBuffersOutcome(driver, renderPass, CreatedViews(driver, images, format), extent, family))
  }

  /** createImageViews (main.cpp): one view per swapchain image, created in
      order; the first failure throws, leaving the later entries as the
      resize left them. */
  method CreateImageViews(e: Engine, driver: Driver) returns (r: Outcome)
    modifies e`swapChainImageViews
    ensures fresh(e.swapChainImageViews)
    ensures r == ImageViewsOutcome(driver, e.swapChainImages, e.swapChainImageFormat)
    ensures e.swapChainImageViews.Length == |e.swapChainImages|
    ensures var infos := ImageViewInfos(e.swapChainImages, e.swapChainImageFormat);
            var k := SucceedingPrefix(infos, info => driver.createImageView(info).Some?);
            && r == (if k == |infos| then Done else Fail(ImageViewCreationFailed))
            && (forall i :: 0 <= i < k ==> e.swapChainImageViews[i] == driver.createImageView(infos[i]).value)
            && (forall i :: k <= i < |infos| ==>
                  e.swapChainImageViews[i] == Resized(old(e.swapChainImageViews[..]), |infos|)[i])
  {
    var infos := ImageViewInfos(e.swapChainImages, e.swapChainImageFormat);
    ghost var k := SucceedingPrefix(infos, info => driver.createImageView(info).Some?);
    ghost var base := Resized(e.swapChainImageViews[..], |infos|);
    var views := Resize(e.swapChainImageViews, |e.swapChainImages|);
    e.swapChainImageViews := views;
    for i := 0 to |infos|
      invariant e.swapChainImageViews == views && fresh(views)
      invariant i <= k
      invariant forall j :: 0 <= j < i ==> views[j] == driver.createImageView(infos[j]).value
      invariant forall j :: i <= j < |infos| ==> views[j] == base[j]
    {
      var view := driver.createImageView(infos[i]);
      if view.None? {
        return Fail(ImageViewCreationFailed);
      }
      views[i] := view.value;
    }
    r := Done;
  }

  /** createImageViews as initVulkan sees it: its error, and on success
      exactly the views the driver created, one per image. */
  method ImageViewsStep(e: Engine, driver: Driver) returns (r: Outcome)
    modifies e`swapChainImageViews
    ensures fresh(e.swapChainImageViews)
    ensures e.swapChainImageViews.Length == |e.swapChainImages|
    ensures r == ImageViewsOutcome(driver, e.swapChainImages, e.swapChainImageFormat)
    ensures r.Done? ==> e.swapChainImageViews[..] == CreatedViews(driver, e.swapChainImages, e.swapChainImageFormat)
  {
    r := CreateImageViews(e, driver);
    if r.Done? {
      assert forall i :: 0 <= i < |e.swapChainImages| ==>
               ImageViewInfos(e.swapChainImages, e.swapChainImageFormat)[i] ==
               ImageViewCreateInfo(e.swapChainImages[i], e.swapChainImageFormat);
    }
  }

  /** createFramebuffers: one framebuffer per image view, framebuffer i
      built from view i alone; the first failure throws. */
  method CreateFramebuffers(e: Engine, driver: Driver) returns (r: Outcome)
    modifies e`swapChainFramebuffers
    ensures fresh(e.swapChainFramebuffers)
    ensures e.swapChainFramebuffers.Length == e.swapChainImageViews.Length
    ensures r == FramebuffersOutcome(driver, e.renderPass, old(e.swapChainImageViews[..]), e.swapChainExtent)
    ensures var infos := FramebufferInfos(e.renderPass, e.swapChainImageViews[..], e.swapChainExtent);
            var k := SucceedingPrefix(infos, info => driver.createFramebuffer(info).Some?);
            && r == (if k == |infos| then Done else Fail(FramebufferCreationFailed))
            && (forall i :: 0 <= i < k ==> e.swapChainFramebuffers[i] == driver.createFramebuffer(infos[i]).value)
            && (forall i :: k <= i < |infos| ==>
                  e.swapChainFramebuffers[i] == Resized(old(e.swapChainFramebuffers[..]), |infos|)[i])
  {
    var infos := FramebufferInfos(e.renderPass, e.swapChainImageViews[..], e.swapChainExtent);
    ghost var k := SucceedingPrefix(infos, info => driver.createFramebuffer(info).Some?);
    ghost var base := Resized(e.swapChainFramebuffers[..], |infos|);
    var framebuffers := Resize(e.swapChainFramebuffers, e.swapChainImageViews.Length);
    e.swapChainFramebuffers := framebuffers;
    for i := 0 to |infos|
      invariant e.swapChainFramebuffers == framebuffers && fresh(framebuffers)
      invariant i <= k
      invariant forall j :: 0 <= j < i ==> framebuffers[j] == driver.createFramebuffer(infos[j]).value
      invariant forall j :: i <= j < |infos| ==> framebuffers[j] == base[j]
    {
      var framebuffer := driver.createFramebuffer(infos[i]);
      if framebuffer.None? {
        return Fail(FramebufferCreationFailed);
      }
      framebuffers[i] := framebuffer.value;
    }
    r := Done;
  }

  /** createFramebuffers as the sequencing steps see it: its error, and
      one framebuffer per image view. */
  method FramebuffersStep(e: Engine, driver: Driver) returns (r: Outcome)
    modifies e`swapChainFramebuffers
    ensures fresh(e.swapChainFramebuffers)
    ensures r == Done || r == Fail(FramebufferCreationFailed)
    ensures e.swapChainFramebuffers.Length == e.swapChainImageViews.Length
    ensures r == FramebuffersOutcome(driver, e.renderPass, old(e.swapChainImageViews[..]), e.swapChainExtent)
    ensures r.Done? ==> forall i :: 0 <= i < e.swapChainFramebuffers.Length ==>
              var framebuffer := driver.createFramebuffer(
                FramebufferCreateInfo(e.renderPass, [e.swapChainImageViews[i]], e.swapChainExtent.width,
                                      e.swapChainExtent.height, 1));
              framebuffer.Some? && e.swapChainFramebuffers[i] == framebuffer.value
  {
    r := CreateFramebuffers(e, driver);
    if r.Done? {
      assert forall i :: 0 <= i < e.swapChainImageViews.Length ==>
               FramebufferInfos(e.renderPass, e.swapChainImageViews[..], e.swapChainExtent)[i] ==
               FramebufferCreateInfo(e.renderPass, [e.swapChainImageViews[i]], e.swapChainExtent.width,
                                     e.swapChainExtent.height, 1);
    }
  }

  /** The command pool for queue family `family`; reading an absent family
      throws before the pool is created. */
  method CreateCommandPoolOn(e: Engine, driver: Driver, family: Option<nat>) returns (r: Outcome)
    modifies e`commandPool
    ensures r == PoolOutcome(driver, family)
    ensures family.None? ==> r == Fail(BadOptionalAccess) && e.commandPool == old(e.commandPool)
    ensures family.Some? ==>
              var pool := driver.createCommandPool(CommandPoolCreateInfo(family.value, 0));
              && r == (if pool.Some? then Done else Fail(CommandPoolCreationFailed))
              && e.commandPool == (if pool.Some? then pool.value else old(e.commandPool))
  {
    if family.None? {
      return Fail(BadOptionalAccess);
    }
    var poolInfo := CommandPoolCreateInfo(family.value, 0);
    var pool := driver.createCommandPool(poolInfo);
    if pool.None? {
      return Fail(CommandPoolCreationFailed);
    }
    e.commandPool := pool.value;
    r := Done;
  }

  /** createCommandPool (VulkanDrawingBufferConfigurator.cpp): the pool is
      for the graphics family stored in the engine. */
  method CreateCommandPool(e: Engine, driver: Driver) returns (r: Outcome)
    modifies e`commandPool
    ensures r == PoolOutcome(driver, e.indices.graphicsFamily)
    ensures r.Fail? ==> r.error in {BadOptionalAccess, CommandPoolCreationFailed}
    ensures e.indices.graphicsFamily.None? ==> r == Fail(BadOptionalAccess) && e.commandPool == old(e.commandPool)
    ensures e.indices.graphicsFamily.Some? ==>
              var pool := driver.createCommandPool(CommandPoolCreateInfo(e.indices.graphicsFamily.value, 0));
              && r == (if pool.Some? then Done else Fail(CommandPoolCreationFailed))
              && e.commandPool == (if pool.Some? then pool.value else old(e.commandPool))
  {
    r := CreateCommandPoolOn(e, driver, e.indices.graphicsFamily);
  }

  /** createCommandPool (main.cpp): the pool is for the graphics family a
      fresh scan of `families` finds, the queue families the driver reports
      (`devices`) for the engine's selected adapter. */
  method CreateCommandPoolByScan(e: Engine, driver: Driver, devices: seq<PhysicalDevice>,
                                 families: seq<QueueFamily>) returns (r: Outcome)
    requires families == DeviceSelection.FamiliesOf(devices, e.physicalDevice)
    modifies e`commandPool
    ensures r == PoolOutcome(driver, QueueFamilies.FoundFamilies(families).graphicsFamily)
    ensures r.Fail? ==> r.error in {BadOptionalAccess, CommandPoolCreationFailed}
    // the family is the graphics family the scan of the selected adapter returns
    ensures var g := QueueFamilies.FoundFamilies(families).graphicsFamily;
            && (g.None? ==> r == Fail(BadOptionalAccess) && e.commandPool == old(e.commandPool))
            && (g.Some? ==>
                  var pool := driver.createCommandPool(CommandPoolCreateInfo(g.value, 0));
                  && r == (if pool.Some? then Done else Fail(CommandPoolCreationFailed))
                  && e.commandPool == (if pool.Some? then pool.value else old(e.commandPool)))
    // it is absent exactly when no family has the graphics flag, and otherwise has that flag
    ensures r == Fail(BadOptionalAccess) <==> !QueueFamilies.SomeGraphics(families)
    ensures r == Done ==> exists g :: 0 <= g < |families| && HasGraphics(families[g]) &&
                            driver.createCommandPool(CommandPoolCreateInfo(g, 0)) == Some(e.commandPool)
  {
    var queueFamilyIndices := QueueFamilies.FindQueueFamilies(families);
    r := CreateCommandPoolOn(e, driver, queueFamilyIndices.graphicsFamily);
  }

  /** What the command buffers of `framebuffers` hold once the first `upTo`
      of them have had their commands recorded: the draw commands for their
      own framebuffer, nothing for the rest. */
  function Recorded(framebuffers: seq<Handle>, upTo: nat, renderPass: Handle, extent: Extent2D, pipeline: Handle)
    : (r: seq<seq<Command>>)
    ensures |r| == |framebuffers|
  {
    seq(|framebuffers|, i requires 0 <= i < |framebuffers| =>
      if i < upTo then DrawCommands(renderPass, framebuffers[i], extent, pipeline) else [])
  }

  /** Whether command buffer b is begun and ended without error. */
  predicate RecordsCleanly(driver: Driver, b: LiveHandle) {
    driver.beginCommandBuffer(b) && driver.endCommandBuffer(b)
  }

  /** The recording loop of createCommandBuffers: buffer i is begun,
      records a render pass into framebuffer i, and is ended; the first
      failure throws. */
  method RecordCommandBuffers(e: Engine, driver: Driver, buffers: seq<LiveHandle>) returns (r: Outcome)
    requires |buffers| == e.swapChainFramebuffers.Length
    modifies e`recorded
    ensures var n, k := |buffers|, SucceedingPrefix(buffers, b => RecordsCleanly(driver, b));
            var began := k < n && driver.beginCommandBuffer(buffers[k]);
            && r == (if k == n then Done else if !began then Fail(CommandBufferBeginFailed)
                     else Fail(CommandBufferRecordFailed))
            && e.recorded == Recorded(e.swapChainFramebuffers[..], if began then k + 1 else k,
                                      e.renderPass, e.swapChainExtent, e.graphicsPipeline)
  {
    ghost var k := SucceedingPrefix(buffers, b => RecordsCleanly(driver, b));
    ghost var fbs := e.swapChainFramebuffers[..];
    e.recorded := Recorded(fbs, 0, e.renderPass, e.swapChainExtent, e.graphicsPipeline);
    for i := 0 to |buffers|
      invariant i <= k
      invariant e.recorded == Recorded(fbs, i, e.renderPass, e.swapChainExtent, e.graphicsPipeline)
    {
      if !driver.beginCommandBuffer(buffers[i]) {
        return Fail(CommandBufferBeginFailed);
      }
      e.recorded := e.recorded[i := DrawCommands(e.renderPass, e.swapChainFramebuffers[i], e.swapChainExtent, e.graphicsPipeline)];
      assert e.recorded == Recorded(fbs, i + 1, e.renderPass, e.swapChainExtent, e.graphicsPipeline);
      if !driver.endCommandBuffer(buffers[i]) {
        return Fail(CommandBufferRecordFailed);
      }
    }
    r := Done;
  }

  /** createCommandBuffers: as many buffers as framebuffers, allocated in
      one call from the engine's pool and stored in the resized vector, then
      recorded one by one. */
  method CreateCommandBuffers(e: Engine, driver: Driver) returns (r: Outcome)
    requires driver.WellFormed()
    modifies e`commandBuffers, e`recorded
    ensures r.Fail? ==> r.error in {CommandBufferAllocationFailed, CommandBufferBeginFailed, CommandBufferRecordFailed}
    ensures r == CommandBuffersOutcome(driver, e.commandPool, e.swapChainFramebuffers.Length)
    ensures fresh(e.commandBuffers)
    ensures e.commandBuffers.Length == e.swapChainFramebuffers.Length
    ensures var n := e.swapChainFramebuffers.Length;
            var allocation := driver.allocateCommandBuffers(
                                CommandBufferAllocateInfo(e.commandPool, COMMAND_BUFFER_LEVEL_PRIMARY, n));
            if allocation.None? then
              r == Fail(CommandBufferAllocationFailed) && e.recorded == old(e.recorded)
            else
              var k := SucceedingPrefix(allocation.value, b => RecordsCleanly(driver, b));
              var began := k < n && driver.beginCommandBuffer(allocation.value[k]);
              && e.commandBuffers[..] == allocation.value
              && r == (if k == n then Done else if !began then Fail(CommandBufferBeginFailed)
                       else Fail(CommandBufferRecordFailed))
              && e.recorded == Recorded(e.swapChainFramebuffers[..], if began then k + 1 else k,
                                        e.renderPass, e.swapChainExtent, e.graphicsPipeline)
  {
    var n := e.swapChainFramebuffers.Length;
    var buffers := Resize(e.commandBuffers, n);
    e.commandBuffers := buffers;
    var allocInfo := CommandBufferAllocateInfo(e.commandPool, COMMAND_BUFFER_LEVEL_PRIMARY, buffers.Length);
    var allocation := driver.allocateCommandBuffers(allocInfo);
    if allocation.None? {
      return Fail(CommandBufferAllocationFailed);
    }
    // the driver writes the allocated handles into the vector's storage
    for i := 0 to n
      invariant e.commandBuffers == buffers && fresh(buffers)
      invariant buffers[..i] == allocation.value[..i]
    {
      buffers[i] := allocation.value[i];
    }
    assert buffers[..] == allocation.value;
    r := RecordCommandBuffers(e, driver, allocation.value);
  }

  /** Whether the semaphores and the fence of frame slot `slot` are all
      created (the three calls are tried in that order, stopping at the first
      failure). */
  predicate SlotCreated(driver: Driver, slot: nat) {
    && driver.createSemaphore(ImageAvailable, slot).Some?
    && driver.createSemaphore(RenderFinished, slot).Some?
    && driver.createFence(FenceCreateInfo(true), slot).Some?
  }

  /** The loop of createSyncObjects: slot by slot, two semaphores and a
      fence created signaled, stored as they are created; the first failure
      throws. */
  method CreateSlotObjects(driver: Driver, imageAvailable: array<Handle>, renderFinished: array<Handle>,
                           fences: array<Handle>) returns (r: Outcome)
    requires imageAvailable.Length == renderFinished.Length == fences.Length == MAX_FRAMES_IN_FLIGHT
    requires imageAvailable != renderFinished && imageAvailable != fences && renderFinished != fences
    modifies imageAvailable, renderFinished, fences
    ensures r == Done || r == Fail(SyncObjectCreationFailed)
    ensures r == SyncOutcome(driver)
    ensures r.Done? <==> forall i :: 0 <= i < MAX_FRAMES_IN_FLIGHT ==> SlotCreated(driver, i)
    ensures r.Done? ==> forall i :: 0 <= i < MAX_FRAMES_IN_FLIGHT ==>
              && SlotCreated(driver, i)
              && imageAvailable[i] == driver.createSemaphore(ImageAvailable, i).value
              && renderFinished[i] == driver.createSemaphore(RenderFinished, i).value
              && fences[i] == driver.createFence(FenceCreateInfo(true), i).value
  {
    var fenceInfo := FenceCreateInfo(true);
    for i := 0 to MAX_FRAMES_IN_FLIGHT
      invariant forall j :: 0 <= j < i ==>
                  && SlotCreated(driver, j)
                  && imageAvailable[j] == driver.createSemaphore(ImageAvailable, j).value
                  && renderFinished[j] == driver.createSemaphore(RenderFinished, j).value
                  && fences[j] == driver.createFence(fenceInfo, j).value
    {
      var first := driver.createSemaphore(ImageAvailable, i);
      if first.None? {
        assert !SlotCreated(driver, i);
        return Fail(SyncObjectCreationFailed);
      }
      imageAvailable[i] := first.value;
      var second := driver.createSemaphore(RenderFinished, i);
      if second.None? {
        assert !SlotCreated(driver, i);
        return Fail(SyncObjectCreationFailed);
      }
      renderFinished[i] := second.value;
      var fence := driver.createFence(fenceInfo, i);
      if fence.None? {
        assert !SlotCreated(driver, i);
        return Fail(SyncObjectCreationFailed);
      }
      fences[i] := fence.value;
    }
    r := Done;
  }

  /** The resizes that open createSyncObjects: the three per-slot vectors
      to MAX_FRAMES_IN_FLIGHT entries, the image-fence table to one entry per
      swapchain image, new entries null. */
  method ResizeSyncVectors(e: Engine)
    modifies e`imageAvailableSemaphores, e`renderFinishedSemaphores, e`inFlightFences, e`imagesInFlight
    ensures fresh(e.imageAvailableSemaphores) && fresh(e.renderFinishedSemaphores)
    ensures fresh(e.inFlightFences) && fresh(e.imagesInFlight)
    ensures e.imageAvailableSemaphores != e.renderFinishedSemaphores
    ensures e.imageAvailableSemaphores != e.inFlightFences && e.renderFinishedSemaphores != e.inFlightFences
    ensures e.imagesInFlight != e.inFlightFences && e.imagesInFlight != e.imageAvailableSemaphores
    ensures e.imagesInFlight != e.renderFinishedSemaphores
    ensures e.imageAvailableSemaphores.Length == MAX_FRAMES_IN_FLIGHT
    ensures e.renderFinishedSemaphores.Length == MAX_FRAMES_IN_FLIGHT
    ensures e.inFlightFences.Length == MAX_FRAMES_IN_FLIGHT
    ensures e.imagesInFlight[..] == Resized(old(e.imagesInFlight[..]), |e.swapChainImages|)
  {
    var imageAvailable := Resize(e.imageAvailableSemaphores, MAX_FRAMES_IN_FLIGHT);
    var renderFinished := Resize(e.renderFinishedSemaphores, MAX_FRAMES_IN_FLIGHT);
    var fences := Resize(e.inFlightFences, MAX_FRAMES_IN_FLIGHT);
    var table := Resize(e.imagesInFlight, |e.swapChainImages|);
    e.imageAvailableSemaphores, e.renderFinishedSemaphores, e.inFlightFences, e.imagesInFlight :=
      imageAvailable, renderFinished, fences, table;
  }

  /** createSyncObjects: the resizes, then the slot loop. On success every
      fence is signaled and none is pending, and the frame loop has made no
      call yet. */
  method CreateSyncObjects(e: Engine, driver: Driver) returns (r: Outcome)
    modifies e`imageAvailableSemaphores, e`renderFinishedSemaphores, e`inFlightFences, e`imagesInFlight
    modifies e`signaled, e`pending, e`trace
    ensures fresh(e.imageAvailableSemaphores) && fresh(e.renderFinishedSemaphores)
    ensures fresh(e.inFlightFences) && fresh(e.imagesInFlight)
    ensures e.imageAvailableSemaphores.Length == MAX_FRAMES_IN_FLIGHT
    ensures e.renderFinishedSemaphores.Length == MAX_FRAMES_IN_FLIGHT
    ensures e.inFlightFences.Length == MAX_FRAMES_IN_FLIGHT
    ensures e.imagesInFlight[..] == Resized(old(e.imagesInFlight[..]), |e.swapChainImages|)
    ensures r == Done || r == Fail(SyncObjectCreationFailed)
    ensures r == SyncOutcome(driver)
    ensures r.Done? <==> forall i :: 0 <= i < MAX_FRAMES_IN_FLIGHT ==> SlotCreated(driver, i)
    ensures r.Done? ==> forall i :: 0 <= i < MAX_FRAMES_IN_FLIGHT ==>
              && SlotCreated(driver, i)
              && e.imageAvailableSemaphores[i] == driver.createSemaphore(ImageAvailable, i).value
              && e.renderFinishedSemaphores[i] == driver.createSemaphore(RenderFinished, i).value
              && e.inFlightFences[i] == driver.createFence(FenceCreateInfo(true), i).value
    ensures r.Done? ==> e.signaled == Elements(e.inFlightFences[..]) && e.pending == {} && e.trace == []
    ensures (r.Done? && old(e.imagesInFlight.Length) == 0 && e.currentFrame < MAX_FRAMES_IN_FLIGHT
             && e.swapChainImageViews.Length == |e.swapChainImages|
             && e.swapChainFramebuffers.Length == |e.swapChainImages|
             && e.commandBuffers.Length == |e.swapChainImages|) ==> e.Live()
  {
    ghost var wasEmpty := e.imagesInFlight.Length == 0;
    ResizeSyncVectors(e);
    ghost var table := e.imagesInFlight[..];
    r := CreateSlotObjects(driver, e.imageAvailableSemaphores, e.renderFinishedSemaphores, e.inFlightFences);
    assert e.imagesInFlight[..] == table;
    if r.Fail? {
      return;
    }
    // the fences are created signaled: no frame has been submitted yet
    e.signaled, e.pending, e.trace := Elements(e.inFlightFences[..]), {}, [];
    if wasEmpty && e.currentFrame < MAX_FRAMES_IN_FLIGHT
       && e.swapChainImageViews.Length == |e.swapChainImages| && e.swapChainFramebuffers.Length == |e.swapChainImages|
       && e.commandBuffers.Length == |e.swapChainImages|
    {
      e.InitialStateIsLive();
    }
  }

  /** The two steps configureDrawingBuffers and initVulkan end with:
      command buffers, then sync objects; a failure of the first leaves the
      sync objects untouched. */
  method CommandBuffersThenSyncObjects(e: Engine, driver: Driver) returns (r: Outcome)
    requires driver.WellFormed()
    modifies e`commandBuffers, e`recorded
    modifies e`imageAvailableSemaphores, e`renderFinishedSemaphores, e`inFlightFences, e`imagesInFlight
    modifies e`signaled, e`pending, e`trace
    ensures StepReached(r) >= 4
    ensures r.Fail? ==> r.error in {CommandBufferAllocationFailed, CommandBufferBeginFailed,
                                    CommandBufferRecordFailed, SyncObjectCreationFailed}
    // each step runs exactly when the one before returned normally
    ensures r == BuffersThenSyncOutcome(driver, e.commandPool, e.swapChainFramebuffers.Length)
    ensures StepReached(r) < 5 ==>
              && e.inFlightFences == old(e.inFlightFences) && e.imagesInFlight == old(e.imagesInFlight)
              && e.imageAvailableSemaphores == old(e.imageAvailableSemaphores)
              && e.renderFinishedSemaphores == old(e.renderFinishedSemaphores)
              && e.signaled == old(e.signaled) && e.pending == old(e.pending) && e.trace == old(e.trace)
    ensures r.Done? ==> e.commandBuffers.Length == e.swapChainFramebuffers.Length
    ensures (r.Done? && old(e.imagesInFlight.Length) == 0 && e.currentFrame < MAX_FRAMES_IN_FLIGHT
             && e.swapChainImageViews.Length == |e.swapChainImages|
             && e.swapChainFramebuffers.Length == |e.swapChainImages|) ==> e.Live()
  {
    r := CreateCommandBuffers(e, driver);
    if r.Done? {
      r := CreateSyncObjects(e, driver);
    }
  }

  /** The command pool for queue family `family`, then command buffers and
      sync objects: the tail that configureDrawingBuffers and initVulkan
      share once the framebuffers exist. `family` is the graphics family the
      pool is created for: the engine's stored one in the configurator, the
      one a fresh scan finds in main.cpp. */
  method PoolThenBuffers(e: Engine, driver: Driver, family: Option<nat>) returns (r: Outcome)
    requires driver.WellFormed()
    modifies e`commandPool, e`commandBuffers, e`recorded
    modifies e`imageAvailableSemaphores, e`renderFinishedSemaphores, e`inFlightFences, e`imagesInFlight
    modifies e`signaled, e`pending, e`trace
    ensures StepReached(r) >= 3
    ensures r.Fail? ==> r.error in {BadOptionalAccess, CommandPoolCreationFailed, CommandBufferAllocationFailed,
                                    CommandBufferBeginFailed, CommandBufferRecordFailed, SyncObjectCreationFailed}
    // each step runs exactly when the one before returned normally
    ensures r == PoolThenBuffersOutcome(driver, family, e.swapChainFramebuffers.Length)
    ensures PoolOutcome(driver, family).Done? ==>
              e.commandPool == driver.createCommandPool(CommandPoolCreateInfo(family.value, 0)).value
    // a failure leaves everything the later steps build unchanged
    ensures StepReached(r) < 4 ==>
              e.commandPool == old(e.commandPool) && e.commandBuffers == old(e.commandBuffers)
              && e.recorded == old(e.recorded)
    ensures StepReached(r) < 5 ==>
              && e.inFlightFences == old(e.inFlightFences) && e.imagesInFlight == old(e.imagesInFlight)
              && e.imageAvailableSemaphores == old(e.imageAvailableSemaphores)
              && e.renderFinishedSemaphores == old(e.renderFinishedSemaphores)
              && e.signaled == old(e.signaled) && e.pending == old(e.pending) && e.trace == old(e.trace)
    ensures r.Done? ==> e.commandBuffers.Length == e.swapChainFramebuffers.Length
    ensures (r.Done? && old(e.imagesInFlight.Length) == 0 && e.currentFrame < MAX_FRAMES_IN_FLIGHT
             && e.swapChainImageViews.Length == |e.swapChainImages|
             && e.swapChainFramebuffers.Length == |e.swapChainImages|) ==> e.Live()
  {
    r := CreateCommandPoolOn(e, driver, family);
    if r.Done? {
      r := CommandBuffersThenSyncObjects(e, driver);
    }
  }

  /** configureDrawingBuffers: framebuffers, command pool (for the engine's
      stored graphics family, as createCommandPool reads it), command
      buffers, sync objects, strictly in this order; the first step that
      throws ends the sequence, so the objects of the later steps are left
      untouched. */
  method ConfigureDrawingBuffers(e: Engine, driver: Driver) returns (r: Outcome)
    requires driver.WellFormed()
    modifies e`swapChainFramebuffers, e`commandPool, e`commandBuffers, e`recorded
    modifies e`imageAvailableSemaphores, e`renderFinishedSemaphores, e`inFlightFences, e`imagesInFlight
    modifies e`signaled, e`pending, e`trace
    ensures StepReached(r) >= 2
    ensures r.Fail? ==> r.error in {FramebufferCreationFailed, BadOptionalAccess, CommandPoolCreationFailed,
                                    CommandBufferAllocationFailed, CommandBufferBeginFailed,
                                    CommandBufferRecordFailed, SyncObjectCreationFailed}
    // each step runs exactly when the one before returned normally
    ensures r == DrawingBuffersOutcome(driver, e.renderPass, old(e.swapChainImageViews[..]), e.swapChainExtent,
                                       e.indices.graphicsFamily)
    // a failure leaves everything the later steps build unchanged
    ensures StepReached(r) < 3 ==> e.commandPool == old(e.commandPool)
    ensures StepReached(r) < 4 ==>
              e.commandBuffers == old(e.commandBuffers) && e.recorded == old(e.recorded)
    ensures StepReached(r) < 5 ==>
              && e.inFlightFences == old(e.inFlightFences) && e.imagesInFlight == old(e.imagesInFlight)
              && e.imageAvailableSemaphores == old(e.imageAvailableSemaphores)
              && e.renderFinishedSemaphores == old(e.renderFinishedSemaphores)
              && e.signaled == old(e.signaled) && e.pending == old(e.pending) && e.trace == old(e.trace)
    ensures r.Done? ==> e.swapChainFramebuffers.Length == e.swapChainImageViews.Length
    ensures r.Done? ==> e.commandBuffers.Length == e.swapChainFramebuffers.Length
    ensures (r.Done? && old(e.imagesInFlight.Length) == 0 && e.currentFrame < MAX_FRAMES_IN_FLIGHT
             && e.swapChainImageViews.Length == |e.swapChainImages|) ==> e.Live()
  {
    ghost var n := e.swapChainImageViews.Length;
    r := FramebuffersStep(e, driver);
    if r.Done? {
      r := PoolThenBuffers(e, driver, e.indices.graphicsFamily);
      assert r == PoolThenBuffersOutcome(driver, e.indices.graphicsFamily, n);
    }
  }

  /** The steps of initVulkan (main.cpp) after the image views:
      framebuffers, command pool (for the graphics family a scan of the
      selected adapter's queue families finds, as createCommandPool does),
      command buffers, sync objects, in this order; the first step that
      throws ends the sequence. */
  method InitAfterImageViews(e: Engine, driver: Driver, devices: seq<PhysicalDevice>, families: seq<QueueFamily>)
      returns (r: Outcome)
    requires driver.WellFormed()
    requires families == DeviceSelection.FamiliesOf(devices, e.physicalDevice)
    modifies e`swapChainFramebuffers, e`commandPool, e`commandBuffers, e`recorded
    modifies e`imageAvailableSemaphores, e`renderFinishedSemaphores, e`inFlightFences, e`imagesInFlight
    modifies e`signaled, e`pending, e`trace
    ensures StepReached(r) >= 2
    ensures r.Fail? ==> r.error in {FramebufferCreationFailed, BadOptionalAccess, CommandPoolCreationFailed,
                                    CommandBufferAllocationFailed, CommandBufferBeginFailed,
                                    CommandBufferRecordFailed, SyncObjectCreationFailed}
    ensures !QueueFamilies.SomeGraphics(families) ==> r.Fail?
    // each step runs exactly when the one before returned normally
    ensures r == DrawingBuffersOutcome(driver, e.renderPass, old(e.swapChainImageViews[..]), e.swapChainExtent,
                                       QueueFamilies.FoundFamilies(families).graphicsFamily)
    ensures StepReached(r) < 3 ==> e.commandPool == old(e.commandPool)
    ensures StepReached(r) < 4 ==>
              e.commandBuffers == old(e.commandBuffers) && e.recorded == old(e.recorded)
    ensures StepReached(r) < 5 ==>
              && e.inFlightFences == old(e.inFlightFences) && e.imagesInFlight == old(e.imagesInFlight)
              && e.imageAvailableSemaphores == old(e.imageAvailableSemaphores)
              && e.renderFinishedSemaphores == old(e.renderFinishedSemaphores)
              && e.signaled == old(e.signaled) && e.pending == old(e.pending) && e.trace == old(e.trace)
    ensures r.Done? ==> e.swapChainFramebuffers.Length == e.swapChainImageViews.Length
    ensures r.Done? ==> e.commandBuffers.Length == e.swapChainFramebuffers.Length
    ensures (r.Done? && old(e.imagesInFlight.Length) == 0 && e.currentFrame < MAX_FRAMES_IN_FLIGHT
             && e.swapChainImageViews.Length == |e.swapChainImages|) ==> e.Live()
  {
    ghost var n := e.swapChainImageViews.Length;
    r := FramebuffersStep(e, driver);
    if r.Done? {
      var queueFamilyIndices := QueueFamilies.FindQueueFamilies(families);
      r := PoolThenBuffers(e, driver, queueFamilyIndices.graphicsFamily);
      assert r == PoolThenBuffersOutcome(driver, queueFamilyIndices.graphicsFamily, n);
    }
  }

  /** initVulkan (main.cpp) from the image views on: the image views,
      then the remaining steps; the first step that throws ends the sequence. */
  method InitVulkan(e: Engine, driver: Driver, devices: seq<PhysicalDevice>, families: seq<QueueFamily>)
      returns (r: Outcome)
    requires driver.WellFormed()
    requires families == DeviceSelection.FamiliesOf(devices, e.physicalDevice)
    modifies e`swapChainImageViews, e`swapChainFramebuffers, e`commandPool, e`commandBuffers, e`recorded
    modifies e`imageAvailableSemaphores, e`renderFinishedSemaphores, e`inFlightFences, e`imagesInFlight
    modifies e`signaled, e`pending, e`trace
    ensures StepReached(r) >= 1
    ensures r.Fail? ==> r.error in {ImageViewCreationFailed, FramebufferCreationFailed, BadOptionalAccess,
                                    CommandPoolCreationFailed, CommandBufferAllocationFailed,
                                    CommandBufferBeginFailed, CommandBufferRecordFailed, SyncObjectCreationFailed}
    // without a graphics family the command pool cannot be created
    ensures !QueueFamilies.SomeGraphics(families) ==> r.Fail?
    // each step runs exactly when the one before returned normally
    ensures r == InitOutcome(driver, e.swapChainImages, e.swapChainImageFormat, e.renderPass, e.swapChainExtent,
                             QueueFamilies.FoundFamilies(families).graphicsFamily)
    // a failure leaves everything the later steps build unchanged
    ensures StepReached(r) < 2 ==> e.swapChainFramebuffers == old(e.swapChainFramebuffers)
    ensures StepReached(r) < 3 ==> e.commandPool == old(e.commandPool)
    ensures StepReached(r) < 4 ==>
              e.commandBuffers == old(e.commandBuffers) && e.recorded == old(e.recorded)
    ensures StepReached(r) < 5 ==>
              && e.inFlightFences == old(e.inFlightFences) && e.imagesInFlight == old(e.imagesInFlight)
              && e.imageAvailableSemaphores == old(e.imageAvailableSemaphores)
              && e.renderFinishedSemaphores == old(e.renderFinishedSemaphores)
              && e.signaled == old(e.signaled) && e.pending == old(e.pending) && e.trace == old(e.trace)
    ensures r.Done? ==> e.swapChainImageViews.Length == e.swapChainFramebuffers.Length ==
                        e.commandBuffers.Length == |e.swapChainImages|
    ensures r.Done? && old(e.imagesInFlight.Length) == 0 && e.currentFrame < MAX_FRAMES_IN_FLIGHT ==> e.Live()
  {
    r := ImageViewsStep(e, driver);
    if r.Done? {
      r := InitAfterImageViews(e, driver, devices, families);
      assert r == DrawingBuffersOutcome(driver, e.renderPass, CreatedViews(driver, e.swapChainImages, e.swapChainImageFormat),
                                        e.swapChainExtent, QueueFamilies.FoundFamilies(families).graphicsFamily);
    }
  }
}
