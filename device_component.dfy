/** The device draft of components/VulkanDeviceComponent.cpp: the same steps
    as the device initializer, but the surface, the adapter and the logical
    device go into fields of the component, and only the two queues into the
    engine. */
module DeviceComponents {
  import opened Vk
  import opened EngineTypes
  import QueueFamilies
  import DeviceSelection
  import VulkanEngine
  import InstanceComponents

  class DeviceComponent {
    /** _vkEngine, set by the constructor. */
    const vkEngine: VulkanEngine.Engine
    var surface: Handle
    var physicalDevice: Handle
    var device: Handle

    /** The member initialisers: physicalDevice null. surface and device have
        no initialiser in the source; they start null here. */
    constructor (vkEngine: VulkanEngine.Engine)
      ensures this.vkEngine == vkEngine
      ensures surface == NULL_HANDLE && physicalDevice == NULL_HANDLE && device == NULL_HANDLE
    {
      this.vkEngine := vkEngine;
      surface, physicalDevice, device := NULL_HANDLE, NULL_HANDLE, NULL_HANDLE;
    }

    /** The C++ constructor: the member initialisers, then initialize. */
    static method New(vkEngine: VulkanEngine.Engine, instanceComponent: InstanceComponents.InstanceComponent,
                      createWindowSurface: Handle -> Option<LiveHandle>, devices: seq<PhysicalDevice>,
                      createDevice: DeviceSelection.DeviceCreateInfo -> Option<LiveHandle>)
      returns (c: DeviceComponent, r: Outcome)
      modifies vkEngine`graphicsQueue, vkEngine`presentQueue
      ensures fresh(c) && c.vkEngine == vkEngine
      ensures r.Fail? ==> r.error in {SurfaceCreationFailed, NoVulkanGpu, NoSuitableGpu,
                                      BadOptionalAccess, LogicalDeviceCreationFailed}
      ensures r == Fail(SurfaceCreationFailed) <==> createWindowSurface(instanceComponent.vkInstance).None?
      // the three steps run in order, each exactly when the one before returned normally
      ensures var adapter := DeviceSelection.FirstSuitable(devices, NULL_HANDLE);
              r == Then(if createWindowSurface(instanceComponent.vkInstance).Some? then Done
                        else Fail(SurfaceCreationFailed),
                   Then(DeviceSelection.PickOutcome(devices, NULL_HANDLE),
                        DeviceSelection.LogicalDeviceOutcome(DeviceSelection.FamiliesOf(devices, adapter),
                                                             vkEngine.enableValidationLayers, createDevice)))
      ensures r == Fail(NoVulkanGpu) <==> createWindowSurface(instanceComponent.vkInstance).Some? && |devices| == 0
      ensures r == Fail(NoSuitableGpu) <==>
                && createWindowSurface(instanceComponent.vkInstance).Some? && |devices| > 0
                && forall k :: 0 <= k < |devices| ==> !DeviceSelection.Suitable(devices[k])
      // no adapter is looked at without a surface
      ensures r == Fail(SurfaceCreationFailed) ==> c.surface == NULL_HANDLE && c.physicalDevice == NULL_HANDLE
      // no logical device is created without an adapter
      ensures r.Fail? && r.error in {SurfaceCreationFailed, NoVulkanGpu, NoSuitableGpu} ==>
                c.device == NULL_HANDLE && vkEngine.graphicsQueue == old(vkEngine.graphicsQueue)
                && vkEngine.presentQueue == old(vkEngine.presentQueue)
      ensures r != Fail(SurfaceCreationFailed) ==>
                && c.surface == createWindowSurface(instanceComponent.vkInstance).value
                && (|devices| > 0 ==> c.physicalDevice == DeviceSelection.FirstSuitable(devices, NULL_HANDLE))
                && forall k :: 0 <= k < |devices| && DeviceSelection.Suitable(devices[k]) ==>
                     (forall j :: 0 <= j < k ==> !DeviceSelection.Suitable(devices[j])) ==>
                       c.physicalDevice == devices[k].handle
      ensures r.Done? ==>
                var found := QueueFamilies.FoundFamilies(DeviceSelection.FamiliesOf(devices, c.physicalDevice));
                && c.physicalDevice != NULL_HANDLE
                && found.IsComplete()
                && var answer := createDevice(DeviceSelection.DeviceCreateInfoOf(
                                   found.graphicsFamily.value, found.presentFamily.value,
                                   vkEngine.enableValidationLayers));
                   && answer.Some? && c.device == answer.value
                   && vkEngine.graphicsQueue == VulkanEngine.Queue(answer.value, found.graphicsFamily.value, 0)
                   && vkEngine.presentQueue == VulkanEngine.Queue(answer.value, found.presentFamily.value, 0)
    {
      c := new DeviceComponent(vkEngine);
      r := c.Initialize(instanceComponent, createWindowSurface, devices, createDevice);
    }

    /** createSurface: glfwCreateWindowSurface on the instance component's
        instance; `createWindowSurface` is its answer. */
    method CreateSurface(instanceComponent: InstanceComponents.InstanceComponent,
                         createWindowSurface: Handle -> Option<LiveHandle>) returns (r: Outcome)
      modifies this`surface
      ensures r == if createWindowSurface(instanceComponent.vkInstance).Some? then Done
                   else Fail(SurfaceCreationFailed)
      ensures surface == if r.Done? then createWindowSurface(instanceComponent.vkInstance).value else old(surface)
    {
      var answer := createWindowSurface(instanceComponent.vkInstance);
      if answer.None? {
        r := Fail(SurfaceCreationFailed);
      } else {
        surface := answer.value;
        r := Done;
      }
    }

    /** pickPhysicalDevice, with `devices` what vkEnumeratePhysicalDevices
        reports for the engine's instance; the choice goes into the
        component's own physicalDevice. */
    method PickPhysicalDevice(devices: seq<PhysicalDevice>) returns (r: Outcome)
      modifies this`physicalDevice
      ensures |devices| == 0 ==> r == Fail(NoVulkanGpu) && physicalDevice == old(physicalDevice)
      ensures |devices| > 0 ==> r == if physicalDevice == NULL_HANDLE then Fail(NoSuitableGpu) else Done
      ensures forall k :: 0 <= k < |devices| && DeviceSelection.Suitable(devices[k]) ==>
                (forall j :: 0 <= j < k ==> !DeviceSelection.Suitable(devices[j])) ==>
                  r == Done && physicalDevice == devices[k].handle
      ensures (forall k :: 0 <= k < |devices| ==> !DeviceSelection.Suitable(devices[k])) ==>
                physicalDevice == old(physicalDevice)
      ensures r == DeviceSelection.PickOutcome(devices, old(physicalDevice))
      ensures |devices| > 0 ==> physicalDevice == DeviceSelection.FirstSuitable(devices, old(physicalDevice))
    {
      var chosen;
      r, chosen := DeviceSelection.PickPhysicalDevice(devices, physicalDevice);
      physicalDevice := chosen;
    }

    /** createLogicalDevice, with `families` what the driver reports for the
        component's physicalDevice: the device goes into the component, queue
        0 of the graphics and of the present family into the engine. */
    method CreateLogicalDevice(families: seq<QueueFamily>,
                               createDevice: DeviceSelection.DeviceCreateInfo -> Option<LiveHandle>)
      returns (r: Outcome)
      modifies this`device, vkEngine`graphicsQueue, vkEngine`presentQueue
      ensures r == Fail(BadOptionalAccess) <==>
                !(QueueFamilies.SomeGraphics(families) && QueueFamilies.SomePresent(families))
      ensures r == Fail(BadOptionalAccess) <==> !QueueFamilies.FoundFamilies(families).IsComplete()
      ensures r.Fail? ==> r.error in {BadOptionalAccess, LogicalDeviceCreationFailed}
      ensures r == DeviceSelection.LogicalDeviceOutcome(families, vkEngine.enableValidationLayers, createDevice)
      ensures var found := QueueFamilies.FoundFamilies(families);
              found.IsComplete() ==>
                var g, p := found.graphicsFamily.value, found.presentFamily.value;
                var answer := createDevice(DeviceSelection.DeviceCreateInfoOf(g, p, vkEngine.enableValidationLayers));
                && r == (if answer.None? then Fail(LogicalDeviceCreationFailed) else Done)
                && (answer.Some? ==>
                      && device == answer.value
                      && vkEngine.graphicsQueue == VulkanEngine.Queue(answer.value, g, 0)
                      && vkEngine.presentQueue == VulkanEngine.Queue(answer.value, p, 0))
      ensures r.Fail? ==> device == old(device) && vkEngine.graphicsQueue == old(vkEngine.graphicsQueue)
                          && vkEngine.presentQueue == old(vkEngine.presentQueue)
    {
      var logical := DeviceSelection.CreateLogicalDeviceFor(families, vkEngine.enableValidationLayers, createDevice);
      if logical.Err? {
        r := Fail(logical.error);
      } else {
        device := logical.value.device;
        vkEngine.graphicsQueue := logical.value.graphicsQueue;
        vkEngine.presentQueue := logical.value.presentQueue;
        r := Done;
      }
    }

    /** initialize: surface, adapter, logical device, each step only after the
        previous one succeeded. */
    method Initialize(instanceComponent: InstanceComponents.InstanceComponent,
                      createWindowSurface: Handle -> Option<LiveHandle>, devices: seq<PhysicalDevice>,
                      createDevice: DeviceSelection.DeviceCreateInfo -> Option<LiveHandle>)
      returns (r: Outcome)
      modifies this`surface, this`physicalDevice, this`device, vkEngine`graphicsQueue, vkEngine`presentQueue
      ensures r.Fail? ==> r.error in {SurfaceCreationFailed, NoVulkanGpu, NoSuitableGpu,
                                      BadOptionalAccess, LogicalDeviceCreationFailed}
      ensures r == Fail(SurfaceCreationFailed) <==> createWindowSurface(instanceComponent.vkInstance).None?
      // the three steps run in order, each exactly when the one before returned normally
      ensures var adapter := DeviceSelection.FirstSuitable(devices, old(physicalDevice));
              r == Then(if createWindowSurface(instanceComponent.vkInstance).Some? then Done
                        else Fail(SurfaceCreationFailed),
                   Then(DeviceSelection.PickOutcome(devices, old(physicalDevice)),
                        DeviceSelection.LogicalDeviceOutcome(DeviceSelection.FamiliesOf(devices, adapter),
                                                             vkEngine.enableValidationLayers, createDevice)))
      ensures r == Fail(NoVulkanGpu) <==> createWindowSurface(instanceComponent.vkInstance).Some? && |devices| == 0
      ensures r == Fail(NoSuitableGpu) <==>
                && createWindowSurface(instanceComponent.vkInstance).Some? && |devices| > 0
                && old(physicalDevice) == NULL_HANDLE
                && forall k :: 0 <= k < |devices| ==> !DeviceSelection.Suitable(devices[k])
      // no adapter is looked at without a surface
      ensures r == Fail(SurfaceCreationFailed) ==> surface == old(surface) && physicalDevice == old(physicalDevice)
      // no logical device is created without an adapter
      ensures r.Fail? && r.error in {SurfaceCreationFailed, NoVulkanGpu, NoSuitableGpu} ==>
                device == old(device) && vkEngine.graphicsQueue == old(vkEngine.graphicsQueue)
                && vkEngine.presentQueue == old(vkEngine.presentQueue)
      ensures r != Fail(SurfaceCreationFailed) ==>
                && surface == createWindowSurface(instanceComponent.vkInstance).value
                && (|devices| > 0 ==> physicalDevice == DeviceSelection.FirstSuitable(devices, old(physicalDevice)))
                && forall k :: 0 <= k < |devices| && DeviceSelection.Suitable(devices[k]) ==>
                     (forall j :: 0 <= j < k ==> !DeviceSelection.Suitable(devices[j])) ==>
                       physicalDevice == devices[k].handle
      ensures r.Done? ==>
                var found := QueueFamilies.FoundFamilies(DeviceSelection.FamiliesOf(devices, physicalDevice));
                && physicalDevice != NULL_HANDLE
                && found.IsComplete()
                && var answer := createDevice(DeviceSelection.DeviceCreateInfoOf(
                                   found.graphicsFamily.value, found.presentFamily.value,
                                   vkEngine.enableValidationLayers));
                   && answer.Some? && device == answer.value
                   && vkEngine.graphicsQueue == VulkanEngine.Queue(answer.value, found.graphicsFamily.value, 0)
                   && vkEngine.presentQueue == VulkanEngine.Queue(answer.value, found.presentFamily.value, 0)
    {
      r := CreateSurface(instanceComponent, createWindowSurface);
      if r.Done? {
        r := PickPhysicalDevice(devices);
        if r.Done? {
          r := CreateLogicalDevice(DeviceSelection.FamiliesOf(devices, physicalDevice), createDevice);
        }
      }
    }
  }
}
