/** config/VulkanDeviceInitializer.cpp: the surface, the adapter and the
    logical device with its two queues, written into the engine. What the
    driver and the windowing system report or answer is passed in. */
module DeviceInitializer {
  import opened Vk
  import opened EngineTypes
  import QueueFamilies
  import DeviceSelection
  import opened VulkanEngine

  /** createSurface: glfwCreateWindowSurface on the engine's instance;
      `createWindowSurface` is its answer. */
  method CreateSurface(e: Engine, createWindowSurface: Handle -> Option<LiveHandle>) returns (r: Outcome)
    modifies e`surface
    ensures r == if createWindowSurface(e.instance).Some? then Done else Fail(SurfaceCreationFailed)
    ensures e.surface == if r.Done? then createWindowSurface(e.instance).value else old(e.surface)
  {
    var answer := createWindowSurface(e.instance);
    if answer.None? {
      r := Fail(SurfaceCreationFailed);
    } else {
      e.surface := answer.value;
      r := Done;
    }
  }

  /** pickPhysicalDevice, with `devices` what vkEnumeratePhysicalDevices
      reports for the engine's instance. */
  method PickPhysicalDevice(e: Engine, devices: seq<PhysicalDevice>) returns (r: Outcome)
    modifies e`physicalDevice
    ensures |devices| == 0 ==> r == Fail(NoVulkanGpu) && e.physicalDevice == old(e.physicalDevice)
    ensures |devices| > 0 ==> r == if e.physicalDevice == NULL_HANDLE then Fail(NoSuitableGpu) else Done
    ensures forall k :: 0 <= k < |devices| && DeviceSelection.Suitable(devices[k]) ==>
              (forall j :: 0 <= j < k ==> !DeviceSelection.Suitable(devices[j])) ==>
                r == Done && e.physicalDevice == devices[k].handle
    ensures (forall k :: 0 <= k < |devices| ==> !DeviceSelection.Suitable(devices[k])) ==>
              e.physicalDevice == old(e.physicalDevice)
    ensures r == DeviceSelection.PickOutcome(devices, old(e.physicalDevice))
    ensures |devices| > 0 ==> e.physicalDevice == DeviceSelection.FirstSuitable(devices, old(e.physicalDevice))
  {
    var chosen;
    r, chosen := DeviceSelection.PickPhysicalDevice(devices, e.physicalDevice);
    e.physicalDevice := chosen;
  }

  /** createLogicalDevice, with `families` what the driver reports for the
      engine's physicalDevice and `createDevice` the answer of vkCreateDevice.
      On success the device and queue 0 of the graphics and of the present
      family are written into the engine. */
  method CreateLogicalDevice(e: Engine, families: seq<QueueFamily>,
                             createDevice: DeviceSelection.DeviceCreateInfo -> Option<LiveHandle>)
    returns (r: Outcome)
    modifies e`device, e`graphicsQueue, e`presentQueue
    ensures r == Fail(BadOptionalAccess) <==>
              !(QueueFamilies.SomeGraphics(families) && QueueFamilies.SomePresent(families))
    ensures r == Fail(BadOptionalAccess) <==> !QueueFamilies.FoundFamilies(families).IsComplete()
    ensures r.Fail? ==> r.error in {BadOptionalAccess, LogicalDeviceCreationFailed}
    ensures r == DeviceSelection.LogicalDeviceOutcome(families, e.enableValidationLayers, createDevice)
    ensures var found := QueueFamilies.FoundFamilies(families);
            found.IsComplete() ==>
              var g, p := found.graphicsFamily.value, found.presentFamily.value;
              var answer := createDevice(DeviceSelection.DeviceCreateInfoOf(g, p, e.enableValidationLayers));
              && r == (if answer.None? then Fail(LogicalDeviceCreationFailed) else Done)
              && (answer.Some? ==>
                    && e.device == answer.value
                    && e.graphicsQueue == Queue(answer.value, g, 0)
                    && e.presentQueue == Queue(answer.value, p, 0))
    ensures r.Fail? ==> e.device == old(e.device) && e.graphicsQueue == old(e.graphicsQueue)
                        && e.presentQueue == old(e.presentQueue)
  {
    var logical := DeviceSelection.CreateLogicalDeviceFor(families, e.enableValidationLayers, createDevice);
    if logical.Err? {
      r := Fail(logical.error);
    } else {
      e.device := logical.value.device;
      e.graphicsQueue := logical.value.graphicsQueue;
      e.presentQueue := logical.value.presentQueue;
      r := Done;
    }
  }

  /** initializeDevice: surface, adapter, logical device, each step only after
      the previous one succeeded. */
  method InitializeDevice(e: Engine, createWindowSurface: Handle -> Option<LiveHandle>,
                          devices: seq<PhysicalDevice>,
                          createDevice: DeviceSelection.DeviceCreateInfo -> Option<LiveHandle>)
    returns (r: Outcome)
    modifies e`surface, e`physicalDevice, e`device, e`graphicsQueue, e`presentQueue
    ensures r.Fail? ==> r.error in {SurfaceCreationFailed, NoVulkanGpu, NoSuitableGpu,
                                    BadOptionalAccess, LogicalDeviceCreationFailed}
    // the three steps run in order, each exactly when the one before returned normally
    ensures var adapter := DeviceSelection.FirstSuitable(devices, old(e.physicalDevice));
            r == Then(if createWindowSurface(e.instance).Some? then Done else Fail(SurfaceCreationFailed),
                 Then(DeviceSelection.PickOutcome(devices, old(e.physicalDevice)),
                      DeviceSelection.LogicalDeviceOutcome(DeviceSelection.FamiliesOf(devices, adapter),
                                                           e.enableValidationLayers, createDevice)))
    ensures r == Fail(NoVulkanGpu) <==> createWindowSurface(e.instance).Some? && |devices| == 0
    ensures r == Fail(NoSuitableGpu) <==>
              && createWindowSurface(e.instance).Some? && |devices| > 0 && old(e.physicalDevice) == NULL_HANDLE
              && forall k :: 0 <= k < |devices| ==> !DeviceSelection.Suitable(devices[k])
    // no adapter is looked at without a surface
    ensures createWindowSurface(e.instance).None? ==>
              && r == Fail(SurfaceCreationFailed)
              && e.surface == old(e.surface) && e.physicalDevice == old(e.physicalDevice)
    // no logical device is created without an adapter
    ensures r.Fail? && r.error in {SurfaceCreationFailed, NoVulkanGpu, NoSuitableGpu} ==>
              e.device == old(e.device) && e.graphicsQueue == old(e.graphicsQueue)
              && e.presentQueue == old(e.presentQueue)
    ensures createWindowSurface(e.instance).Some? ==>
              && e.surface == createWindowSurface(e.instance).value
              && (|devices| > 0 ==> e.physicalDevice == DeviceSelection.FirstSuitable(devices, old(e.physicalDevice)))
              && forall k :: 0 <= k < |devices| && DeviceSelection.Suitable(devices[k]) ==>
                   (forall j :: 0 <= j < k ==> !DeviceSelection.Suitable(devices[j])) ==>
                     e.physicalDevice == devices[k].handle
    ensures r.Done? ==>
              var found := QueueFamilies.FoundFamilies(DeviceSelection.FamiliesOf(devices, e.physicalDevice));
              && e.physicalDevice != NULL_HANDLE
              && found.IsComplete()
              && var answer := createDevice(DeviceSelection.DeviceCreateInfoOf(
                                 found.graphicsFamily.value, found.presentFamily.value, e.enableValidationLayers));
                 && answer.Some? && e.device == answer.value
                 && e.graphicsQueue == Queue(answer.value, found.graphicsFamily.value, 0)
                 && e.presentQueue == Queue(answer.value, found.presentFamily.value, 0)
  {
    r := CreateSurface(e, createWindowSurface);
    if r.Done? {
      r := PickPhysicalDevice(e, devices);
      if r.Done? {
        r := CreateLogicalDevice(e, DeviceSelection.FamiliesOf(devices, e.physicalDevice), createDevice);
      }
    }
  }
}
