/** Adapter selection and the logical-device create info, as written in
    config/VulkanDeviceInitializer.cpp (and repeated verbatim in
    components/VulkanDeviceComponent.cpp). */
module DeviceSelection {
  import opened Vk
  import opened EngineTypes
  import QueueFamilies
  import VulkanEngine

  /** Every required device extension is among the available ones. */
  ghost predicate ExtensionsSupported(available: seq<string>) {
    forall e :: e in DeviceExtensions ==> e in available
  }

  /** The three conditions of isDeviceSuitable, stated on what the driver reports. */
  ghost predicate Suitable(device: PhysicalDevice) {
    && QueueFamilies.SomeGraphics(device.queueFamilies)
    && QueueFamilies.SomePresent(device.queueFamilies)
    && ExtensionsSupported(device.extensions)
    && |device.surfaceFormats| > 0
    && |device.presentModes| > 0
  }

  /** checkDeviceExtensionSupport: starts from the set of required names,
      erases every available name from it, and reports whether it emptied. */
  method CheckDeviceExtensionSupport(device: PhysicalDevice) returns (supported: bool)
    ensures supported <==> ExtensionsSupported(device.extensions)
  {
    var availableExtensions := device.extensions;
    var requiredExtensions := set e | e in DeviceExtensions;
    for i := 0 to |availableExtensions|
      invariant requiredExtensions ==
                  (set e | e in DeviceExtensions) - (set j | 0 <= j < i :: availableExtensions[j])
    {
      requiredExtensions := requiredExtensions - {availableExtensions[i]};
    }
    supported := requiredExtensions == {};
    if supported {
      forall e | e in DeviceExtensions ensures e in device.extensions {
        assert e !in requiredExtensions;
      }
    }
  }

  /** isDeviceSuitable: the swapchain support is queried (the ghost `queried`)
      only when the extensions are supported; the verdict is the conjunction. */
  method IsDeviceSuitable(device: PhysicalDevice) returns (suitable: bool, ghost queried: bool)
    ensures suitable <==> Suitable(device)
    ensures queried <==> ExtensionsSupported(device.extensions)
  {
    var indices := QueueFamilies.FindQueueFamilies(device.queueFamilies);
    var extensionsSupported := CheckDeviceExtensionSupport(device);
    var swapChainAdequate := false;
    queried := false;
    if extensionsSupported {
      var swapChainSupport := QuerySwapChainSupport(device);
      queried := true;
      swapChainAdequate := swapChainSupport.formats != [] && swapChainSupport.presentModes != [];
    }
    suitable := indices.IsComplete() && extensionsSupported && swapChainAdequate;
  }

  /** The handle the evaluation loop of pickPhysicalDevice leaves in its
      target: the first suitable device in enumeration order, otherwise the
      value `current` the target had before the loop. */
  ghost function FirstSuitable(devices: seq<PhysicalDevice>, current: Handle): (chosen: Handle)
    ensures (forall k :: 0 <= k < |devices| ==> !Suitable(devices[k])) ==> chosen == current
    ensures forall k :: 0 <= k < |devices| && Suitable(devices[k]) ==>
              (forall j :: 0 <= j < k ==> !Suitable(devices[j])) ==> chosen == devices[k].handle
    ensures (exists k :: 0 <= k < |devices| && Suitable(devices[k])) ==>
              exists k :: 0 <= k < |devices| && Suitable(devices[k]) && chosen == devices[k].handle
  {
    if devices == [] then current
    else if Suitable(devices[0]) then devices[0].handle
    else
      var chosen := FirstSuitable(devices[1..], current);
      assert forall k :: 1 <= k < |devices| ==> devices[k] == devices[1..][k - 1];
      chosen
  }

  /** What pickPhysicalDevice returns when its target held `current`: no
      enumerated adapter throws at once; a target still null after the loop
      throws too. */
  ghost function PickOutcome(devices: seq<PhysicalDevice>, current: Handle): (r: Outcome)
    ensures r.Done? || r == Fail(NoVulkanGpu) || r == Fail(NoSuitableGpu)
    ensures r == Fail(NoVulkanGpu) <==> |devices| == 0
    ensures r == Fail(NoSuitableGpu) <==>
              |devices| > 0 && current == NULL_HANDLE && forall k :: 0 <= k < |devices| ==> !Suitable(devices[k])
  {
    if |devices| == 0 then Fail(NoVulkanGpu)
    else if FirstSuitable(devices, current) == NULL_HANDLE then Fail(NoSuitableGpu)
    else Done
  }

  /** The evaluation loop of pickPhysicalDevice: the first suitable device in
      enumeration order is written to the target, which otherwise keeps the
      value `current` it had before the loop. */
  method SelectFirstSuitable(devices: seq<PhysicalDevice>, current: Handle) returns (chosen: Handle)
    ensures chosen == FirstSuitable(devices, current)
    ensures (exists k :: 0 <= k < |devices| && Suitable(devices[k])) ||  chosen == current
    ensures forall k :: 0 <= k < |devices| && Suitable(devices[k]) ==>
              (forall j :: 0 <= j < k ==> !Suitable(devices[j])) ==> chosen == devices[k].handle
  {
    chosen := current;
    var i := 0;
    while i < |devices|
      invariant 0 <= i <= |devices|
      invariant chosen == current
      invariant forall j :: 0 <= j < i ==> !Suitable(devices[j])
      invariant FirstSuitable(devices, current) == FirstSuitable(devices[i..], current)
    {
      assert devices[i..][1..] == devices[i + 1..];
      var suitable, _ := IsDeviceSuitable(devices[i]);
      if suitable {
        chosen := devices[i].handle;
        break;
      }
      i := i + 1;
    }
  }

  /** One element of queueCreateInfos; the priority (a float) is left out. */
  datatype QueueCreateInfo = QueueCreateInfo(queueFamilyIndex: nat, queueCount: nat)

  /** The fields of VkDeviceCreateInfo the core sets. */
  datatype DeviceCreateInfo = DeviceCreateInfo(
    queueCreateInfos: seq<QueueCreateInfo>,
    queueCreateInfoCount: nat,
    enabledExtensionCount: nat,
    enabledExtensionNames: seq<string>,
    enabledLayerCount: nat,
    enabledLayerNames: seq<string>)

  /** The queue families the driver is told about: the first
      queueCreateInfoCount entries. */
  function PassedQueueFamilies(info: DeviceCreateInfo): (families: seq<nat>)
    ensures |families| <= |info.queueCreateInfos| && |families| <= info.queueCreateInfoCount
  {
    var n := if info.queueCreateInfoCount < |info.queueCreateInfos| then info.queueCreateInfoCount
             else |info.queueCreateInfos|;
    seq(n, k requires 0 <= k < n => info.queueCreateInfos[k].queueFamilyIndex)
  }

  /** The iteration order of std::set<uint32_t>{graphics, present}: ascending,
      without repeats. */
  function UniqueQueueFamilies(graphics: nat, present: nat): seq<nat> {
    if graphics == present then [graphics]
    else if graphics < present then [graphics, present]
    else [present, graphics]
  }

  /** The create info createLogicalDevice hands to vkCreateDevice for
      graphics family g and present family p: one queue create info per
      distinct family, queueCreateInfoCount overwritten to 1, the device
      extensions, and the validation layers only when enabled. */
  function DeviceCreateInfoOf(g: nat, p: nat, enableValidationLayers: bool): (info: DeviceCreateInfo)
    // one entry per distinct family, in ascending order, each asking for one queue
    ensures |info.queueCreateInfos| == (if g == p then 1 else 2)
    ensures forall k :: 0 <= k < |info.queueCreateInfos| ==>
              info.queueCreateInfos[k].queueFamilyIndex in {g, p} && info.queueCreateInfos[k].queueCount == 1
    ensures exists k :: 0 <= k < |info.queueCreateInfos| && info.queueCreateInfos[k].queueFamilyIndex == g
    ensures exists k :: 0 <= k < |info.queueCreateInfos| && info.queueCreateInfos[k].queueFamilyIndex == p
    ensures forall j, k :: 0 <= j < k < |info.queueCreateInfos| ==>
              info.queueCreateInfos[j].queueFamilyIndex < info.queueCreateInfos[k].queueFamilyIndex
    // the count overwrite: only the lower family index reaches the driver
    ensures info.queueCreateInfoCount == 1
    ensures PassedQueueFamilies(info) == [if g < p then g else p]
    ensures info.enabledExtensionCount == |DeviceExtensions| && info.enabledExtensionNames == DeviceExtensions
    // the layers depend on enableValidationLayers alone
    ensures info.enabledLayerCount == (if enableValidationLayers then |ValidationLayers| else 0)
    ensures info.enabledLayerNames == (if enableValidationLayers then ValidationLayers else [])
  {
    var unique := UniqueQueueFamilies(g, p);
    var queueCreateInfos := seq(|unique|, k requires 0 <= k < |unique| => QueueCreateInfo(unique[k], 1));
    var info := DeviceCreateInfo(queueCreateInfos, 1, |DeviceExtensions|, DeviceExtensions,
                                 if enableValidationLayers then |ValidationLayers| else 0,
                                 if enableValidationLayers then ValidationLayers else []);
    assert PassedQueueFamilies(info) == [queueCreateInfos[0].queueFamilyIndex];
    assert queueCreateInfos[0].queueFamilyIndex == g || queueCreateInfos[1].queueFamilyIndex == g;
    assert queueCreateInfos[0].queueFamilyIndex == p || queueCreateInfos[1].queueFamilyIndex == p;
    info
  }

  /** The create-info part of createLogicalDevice: the queue create infos are
      pushed one per element of the family set, then the fields are written
      one by one. Reading an absent family index throws. */
  method DeviceCreateInfoFor(indices: QueueFamilyIndices, enableValidationLayers: bool)
    returns (r: Result<DeviceCreateInfo>)
    ensures r == if indices.IsComplete()
                 then Ok(DeviceCreateInfoOf(indices.graphicsFamily.value, indices.presentFamily.value,
                                            enableValidationLayers))
                 else Err(BadOptionalAccess)
  {
    if !indices.IsComplete() {
      return Err(BadOptionalAccess);
    }
    var g, p := indices.graphicsFamily.value, indices.presentFamily.value;
    var uniqueQueueFamilies := UniqueQueueFamilies(g, p);
    var queueCreateInfos: seq<QueueCreateInfo> := [];
    for i := 0 to |uniqueQueueFamilies|
      invariant |queueCreateInfos| == i
      invariant forall k :: 0 <= k < i ==> queueCreateInfos[k] == QueueCreateInfo(uniqueQueueFamilies[k], 1)
    {
      queueCreateInfos := queueCreateInfos + [QueueCreateInfo(uniqueQueueFamilies[i], 1)];
    }
    var info := DeviceCreateInfo(queueCreateInfos, |queueCreateInfos|, 0, [], 0, []);
    info := info.(queueCreateInfoCount := 1);
    info := info.(enabledExtensionCount := |DeviceExtensions|, enabledExtensionNames := DeviceExtensions);
    if enableValidationLayers {
      info := info.(enabledLayerCount := |ValidationLayers|, enabledLayerNames := ValidationLayers);
    } else {
      info := info.(enabledLayerCount := 0);
    }
    assert queueCreateInfos == seq(|uniqueQueueFamilies|, k requires 0 <= k < |uniqueQueueFamilies| =>
                                     QueueCreateInfo(uniqueQueueFamilies[k], 1));
    r := Ok(info);
  }

  /** A logical device with the two queues obtained from it. */
  datatype LogicalDevice = LogicalDevice(device: LiveHandle, graphicsQueue: VulkanEngine.Queue,
                                         presentQueue: VulkanEngine.Queue)

  /** createLogicalDevice on the queue families of the picked adapter, with
      `createDevice` the answer of vkCreateDevice: the family scan, the create
      info, the device, and queue 0 of the graphics and of the present family. */
  method CreateLogicalDeviceFor(families: seq<QueueFamily>, enableValidationLayers: bool,
                                createDevice: DeviceCreateInfo -> Option<LiveHandle>)
    returns (r: Result<LogicalDevice>)
    ensures r == Err(BadOptionalAccess) <==> !(QueueFamilies.SomeGraphics(families) && QueueFamilies.SomePresent(families))
    ensures r == Err(BadOptionalAccess) <==> !QueueFamilies.FoundFamilies(families).IsComplete()
    ensures var found := QueueFamilies.FoundFamilies(families);
            found.IsComplete() ==>
              var g, p := found.graphicsFamily.value, found.presentFamily.value;
              var answer := createDevice(DeviceCreateInfoOf(g, p, enableValidationLayers));
              r == if answer.None? then Err(LogicalDeviceCreationFailed)
                   else Ok(LogicalDevice(answer.value, VulkanEngine.Queue(answer.value, g, 0),
                                         VulkanEngine.Queue(answer.value, p, 0)))
  {
    var indices := QueueFamilies.FindQueueFamilies(families);
    var info := DeviceCreateInfoFor(indices, enableValidationLayers);
    if info.Err? {
      r := Err(info.error);
    } else {
      var device := createDevice(info.value);
      if device.None? {
        r := Err(LogicalDeviceCreationFailed);
      } else {
        var g, p := indices.graphicsFamily.value, indices.presentFamily.value;
        r := Ok(LogicalDevice(device.value, VulkanEngine.Queue(device.value, g, 0),
                              VulkanEngine.Queue(device.value, p, 0)));
      }
    }
  }

  /** pickPhysicalDevice with `current` the value the target held before: no
      enumerated device fails at once; otherwise the first suitable device is
      written to the target, and a target still null fails. */
  method PickPhysicalDevice(devices: seq<PhysicalDevice>, current: Handle) returns (r: Outcome, chosen: Handle)
    ensures |devices| == 0 ==> r == Fail(NoVulkanGpu) && chosen == current
    ensures |devices| > 0 ==> r == if chosen == NULL_HANDLE then Fail(NoSuitableGpu) else Done
    ensures forall k :: 0 <= k < |devices| && Suitable(devices[k]) ==>
              (forall j :: 0 <= j < k ==> !Suitable(devices[j])) ==> r == Done && chosen == devices[k].handle
    ensures (forall k :: 0 <= k < |devices| ==> !Suitable(devices[k])) ==> chosen == current
    ensures r == PickOutcome(devices, current)
    ensures |devices| > 0 ==> chosen == FirstSuitable(devices, current)
  {
    if |devices| == 0 {
      r, chosen := Fail(NoVulkanGpu), current;
    } else {
      chosen := SelectFirstSuitable(devices, current);
      r := if chosen == NULL_HANDLE then Fail(NoSuitableGpu) else Done;
    }
  }

  /** What createLogicalDevice returns for an adapter reporting `families`:
      an incomplete scan throws on the empty optional before vkCreateDevice,
      and a refused device throws after it. */
  function LogicalDeviceOutcome(families: seq<QueueFamily>, enableValidationLayers: bool,
                                createDevice: DeviceCreateInfo -> Option<LiveHandle>): (r: Outcome)
    ensures r == Fail(BadOptionalAccess) <==> !(QueueFamilies.SomeGraphics(families) && QueueFamilies.SomePresent(families))
    ensures r.Done? || r == Fail(BadOptionalAccess) || r == Fail(LogicalDeviceCreationFailed)
  {
    QueueFamilies.FoundFamiliesCharacterized(families);
    var found := QueueFamilies.FoundFamilies(families);
    if !found.IsComplete() then Fail(BadOptionalAccess)
    else if createDevice(DeviceCreateInfoOf(found.graphicsFamily.value, found.presentFamily.value,
                                            enableValidationLayers)).None? then Fail(LogicalDeviceCreationFailed)
    else Done
  }

  /** The driver's report about the adapter with handle h, if one was enumerated. */
  function Lookup(devices: seq<PhysicalDevice>, h: Handle): (found: Option<PhysicalDevice>)
    ensures found.Some? ==> found.value.handle == h && found.value in devices
    ensures found.None? <==> forall k :: 0 <= k < |devices| ==> devices[k].handle != h
  {
    if devices == [] then None
    else if devices[0].handle == h then Some(devices[0])
    else Lookup(devices[1..], h)
  }

  /** The queue families the driver reports for adapter h, none when h was
      not enumerated. */
  function FamiliesOf(devices: seq<PhysicalDevice>, h: Handle): seq<QueueFamily> {
    match Lookup(devices, h)
    case Some(device) => device.queueFamilies
    case None => []
  }
}
