/** The instance draft of components/VulkanInstanceComponent.cpp: the
    validation-layer check, the required instance extensions, the create
    info handed to vkCreateInstance, and the component that holds the
    created instance. */
module InstanceComponents {
  import opened Vk
  import opened EngineTypes
  import VulkanEngine

  /** VK_MAKE_VERSION(major, minor, patch), kept as its three parts. */
  datatype Version = Version(major: nat, minor: nat, patch: nat)

  /** The fields of VkApplicationInfo the core sets. */
  datatype ApplicationInfo = ApplicationInfo(
    applicationName: string, applicationVersion: Version,
    engineName: string, engineVersion: Version, apiVersion: Version)

  /** The VkDebugUtilsMessengerCreateInfoEXT chained through pNext; the
      callback pointer is left out. */
  datatype DebugMessengerCreateInfo = DebugMessengerCreateInfo(messageSeverity: bv32, messageType: bv32)

  /** The fields of VkInstanceCreateInfo the core reads or writes. */
  datatype InstanceCreateInfo = InstanceCreateInfo(
    applicationInfo: Option<ApplicationInfo>,
    enabledExtensionCount: nat,
    enabledExtensionNames: seq<string>,
    enabledLayerCount: nat,
    enabledLayerNames: seq<string>,
    pNext: Option<DebugMessengerCreateInfo>)

  const MESSAGE_SEVERITY_VERBOSE: bv32 := 0x1
  const MESSAGE_SEVERITY_WARNING: bv32 := 0x100
  const MESSAGE_SEVERITY_ERROR: bv32 := 0x1000
  const MESSAGE_TYPE_GENERAL: bv32 := 0x1
  const MESSAGE_TYPE_VALIDATION: bv32 := 0x2
  const MESSAGE_TYPE_PERFORMANCE: bv32 := 0x4

  /** What VulkanInstanceComponent::initialize returns: the created instance
      and the engine it was told about. */
  datatype InstanceComponent = InstanceComponent(vkInstance: LiveHandle, vkEngine: VulkanEngine.Engine)

  /** Every requested layer name occurs among the available ones. */
  ghost predicate AllAvailable(requested: seq<string>, available: seq<string>) {
    forall i :: 0 <= i < |requested| ==> requested[i] in available
  }

  /** checkValidationLayerSupport: for each requested name in order, a scan of
      the available names that stops at the first equal one; the first name
      without a match returns false at once. `examined` counts the requested
      names looked at. */
  method CheckValidationLayerSupport(validationLayers: seq<string>, availableLayers: seq<string>)
    returns (supported: bool, ghost examined: nat)
    ensures supported <==> AllAvailable(validationLayers, availableLayers)
    ensures supported ==> examined == |validationLayers|
    // a missing name ends the check: the names after it are not looked at
    ensures !supported ==>
              && 0 < examined <= |validationLayers|
              && validationLayers[examined - 1] !in availableLayers
              && forall i :: 0 <= i < examined - 1 ==> validationLayers[i] in availableLayers
  {
    var i := 0;
    while i < |validationLayers|
      invariant 0 <= i <= |validationLayers|
      invariant forall k :: 0 <= k < i ==> validationLayers[k] in availableLayers
    {
      var layerName := validationLayers[i];
      var layerFound := false;
      var j := 0;
      while j < |availableLayers|
        invariant 0 <= j <= |availableLayers|
        invariant !layerFound ==> layerName !in availableLayers[..j]
        invariant layerFound ==> layerName in availableLayers
      {
        if layerName == availableLayers[j] {
          layerFound := true;
          break;
        }
        j := j + 1;
      }
      if !layerFound {
        assert availableLayers[..j] == availableLayers;
        return false, i + 1;
      }
      i := i + 1;
    }
    supported, examined := true, |validationLayers|;
  }

  /** The extensions getRequiredExtensions returns for the windowing system's
      list `windowExtensions`: that list in order, then the debug-utils
      extension exactly when validation is enabled. */
  function RequiredExtensions(windowExtensions: seq<string>, enableValidationLayers: bool): (extensions: seq<string>)
    ensures |extensions| == |windowExtensions| + (if enableValidationLayers then 1 else 0)
    ensures extensions[..|windowExtensions|] == windowExtensions
    ensures enableValidationLayers ==> extensions[|windowExtensions|] == DEBUG_UTILS_EXTENSION_NAME
  {
    if enableValidationLayers then windowExtensions + [DEBUG_UTILS_EXTENSION_NAME] else windowExtensions
  }

  /** getRequiredExtensions: copies the windowing system's list and appends the
      debug-utils extension when validation is enabled. */
  method GetRequiredExtensions(windowExtensions: seq<string>, enableValidationLayers: bool)
    returns (extensions: seq<string>)
    ensures extensions == RequiredExtensions(windowExtensions, enableValidationLayers)
  {
    extensions := windowExtensions;
    if enableValidationLayers {
      extensions := extensions + [DEBUG_UTILS_EXTENSION_NAME];
    }
  }

  /** vkApplicationInfoStruct: the application and engine names and versions. */
  function ApplicationInfoStruct(): ApplicationInfo {
    ApplicationInfo("Hello Triangle", Version(1, 0, 0), "No Engine", Version(1, 0, 0), Version(1, 0, 0))
  }

  /** vkInstanceCreateInfoStruct: a value-initialised create info pointing at
      `applicationInfo`; no extension, no layer, nothing chained. */
  function InstanceCreateInfoStruct(applicationInfo: ApplicationInfo): InstanceCreateInfo {
    InstanceCreateInfo(Some(applicationInfo), 0, [], 0, [], None)
  }

  /** setupValidationLayers receives the create info by value: it fills in the
      layers and the chained debug-messenger info of its own copy (`copy`, its
      state when the function returns), which is then thrown away. */
  method SetupValidationLayers(enableValidationLayers: bool, createInfo: InstanceCreateInfo,
                               validationLayers: seq<string>)
    returns (ghost copy: InstanceCreateInfo)
    ensures enableValidationLayers ==>
              copy == createInfo.(enabledLayerCount := |validationLayers|, enabledLayerNames := validationLayers,
                                  pNext := Some(DebugMessengerCreateInfo(
                                    MESSAGE_SEVERITY_VERBOSE | MESSAGE_SEVERITY_WARNING | MESSAGE_SEVERITY_ERROR,
                                    MESSAGE_TYPE_GENERAL | MESSAGE_TYPE_VALIDATION | MESSAGE_TYPE_PERFORMANCE)))
    ensures !enableValidationLayers ==> copy == createInfo.(enabledLayerCount := 0, pNext := None)
  {
    var info := createInfo;
    if enableValidationLayers {
      info := info.(enabledLayerCount := |validationLayers|, enabledLayerNames := validationLayers);
      var debugCreateInfo := DebugMessengerCreateInfo(
        MESSAGE_SEVERITY_VERBOSE | MESSAGE_SEVERITY_WARNING | MESSAGE_SEVERITY_ERROR,
        MESSAGE_TYPE_GENERAL | MESSAGE_TYPE_VALIDATION | MESSAGE_TYPE_PERFORMANCE);
      info := info.(pNext := Some(debugCreateInfo));
    } else {
      info := info.(enabledLayerCount := 0);
      info := info.(pNext := None);
    }
    copy := info;
  }

  /** VulkanInstanceComponent::initialize. The instance layers the driver
      reports (`availableLayers`), the windowing system's extensions and the
      answer of vkCreateInstance are inputs. `passed` is the create info
      vkCreateInstance was called with, None when it was not called. */
  method Initialize(vkEngine: VulkanEngine.Engine, enableValidationLayers: bool, validationLayers: seq<string>,
                    availableLayers: seq<string>, windowExtensions: seq<string>,
                    createInstance: InstanceCreateInfo -> Option<LiveHandle>)
    returns (r: Result<InstanceComponent>, ghost passed: Option<InstanceCreateInfo>)
    // the guard: missing layers raise before any instance creation
    ensures enableValidationLayers && !AllAvailable(validationLayers, availableLayers) <==> passed.None?
    ensures passed.None? ==> r == Err(ValidationLayersUnavailable)
    ensures passed.Some? ==>
              var info := passed.value;
              && info.applicationInfo == Some(ApplicationInfoStruct())
              && info.enabledExtensionNames == RequiredExtensions(windowExtensions, enableValidationLayers)
              && info.enabledExtensionCount == |info.enabledExtensionNames|
              // setupValidationLayers changed only its own copy
              && info.enabledLayerCount == 0 && info.enabledLayerNames == [] && info.pNext == None
    ensures passed.Some? ==>
              r == if createInstance(passed.value).None? then Err(InstanceCreationFailed)
                   else Ok(InstanceComponent(createInstance(passed.value).value, vkEngine))
  {
    var supported := true;
    if enableValidationLayers {
      ghost var examined;
      supported, examined := CheckValidationLayerSupport(validationLayers, availableLayers);
    }
    if !supported {
      r, passed := Err(ValidationLayersUnavailable), None;
    } else {
      var appInfo := ApplicationInfoStruct();
      var createInfo := InstanceCreateInfoStruct(appInfo);
      var extensions := GetRequiredExtensions(windowExtensions, enableValidationLayers);
      createInfo := createInfo.(enabledExtensionCount := |extensions|, enabledExtensionNames := extensions);
      ghost var discarded := SetupValidationLayers(enableValidationLayers, createInfo, validationLayers);
      passed := Some(createInfo);
      var instance := createInstance(createInfo);
      if instance.None? {
        r := Err(InstanceCreationFailed);
      } else {
        r := Ok(InstanceComponent(instance.value, vkEngine));
      }
    }
  }
}
