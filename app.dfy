/** The application object and the initialisation steps that store what they
    negotiate in its fields: createInstance, pickPhysicalDevice,
    createLogicalDevice and createSwapChain, run in order by initVulkan.
    Every Vulkan call that creates something is replaced by a boolean input
    saying whether the driver accepted it; a created object is recorded as
    the create info it was made from. */
module Application {
  import opened VkTypes
  import opened QueueFamilies
  import opened SwapChainChoice
  import opened SupportChecks
  import opened DeviceSelection

  /** The runtime errors the initialisation can throw. */
  datatype InitError =
    | ValidationLayersUnavailable
    | InstanceCreationFailed
    | DebugCallbackSetupFailed
    | SurfaceCreationFailed
    | NoVulkanGpu
    | NoSuitableGpu
    | LogicalDeviceCreationFailed
    | SwapChainCreationFailed

  datatype Outcome = Success | Failure(error: InitError)

  /** The fields of VkInstanceCreateInfo the application decides. */
  datatype InstanceCreateInfo = InstanceCreateInfo(
    applicationName: string,
    enabledExtensionNames: seq<string>,
    enabledLayerNames: seq<string>)

  /** The fields of VkDeviceCreateInfo the application decides (no device
      feature is enabled). */
  datatype DeviceCreateInfo = DeviceCreateInfo(
    queueCreateInfos: seq<DeviceQueueCreateInfo>,
    enabledExtensionNames: seq<string>,
    enabledLayerNames: seq<string>)

  /** A queue retrieved with vkGetDeviceQueue: its family and its index in it. */
  datatype QueueHandle = QueueHandle(familyIndex: nat, queueIndex: nat)

  type Image = nat

  /** The answers of the driver and the window system during initialisation. */
  datatype Platform = Platform(
    availableLayers: seq<string>,
    glfwExtensions: seq<string>,
    instanceCreated: bool,
    debugCallbackCreated: bool,
    surfaceCreated: bool,
    physicalDevices: seq<PhysicalDevice>,
    deviceCreated: bool,
    swapchainCreated: bool,
    swapchainImages: seq<Image>)

  /** The layers enabled on the instance and on the device. */
  function EnabledLayers(enableValidationLayers: bool): seq<string>
  {
    if enableValidationLayers then ValidationLayers else []
  }

  /** The error initVulkan throws for these platform answers: the first
      step, in program order, that refuses; None when every step succeeds. */
  function FirstFailure(platform: Platform, enableValidationLayers: bool, deviceExtensions: seq<string>)
    : (r: Option<InitError>)
    ensures r.None? <==>
      (!enableValidationLayers || AllNamesIn(ValidationLayers, platform.availableLayers)) &&
      platform.instanceCreated &&
      (!enableValidationLayers || platform.debugCallbackCreated) &&
      platform.surfaceCreated &&
      FirstSuitable(platform.physicalDevices, deviceExtensions, 0).Some? &&
      platform.deviceCreated && platform.swapchainCreated
    ensures r == Some(NoVulkanGpu) ==> |platform.physicalDevices| == 0
    ensures r == Some(NoSuitableGpu) ==>
      |platform.physicalDevices| > 0 && FirstSuitable(platform.physicalDevices, deviceExtensions, 0).None?
  {
    if enableValidationLayers && !AllNamesIn(ValidationLayers, platform.availableLayers) then
      Some(ValidationLayersUnavailable)
    else if !platform.instanceCreated then Some(InstanceCreationFailed)
    else if enableValidationLayers && !platform.debugCallbackCreated then Some(DebugCallbackSetupFailed)
    else if !platform.surfaceCreated then Some(SurfaceCreationFailed)
    else if |platform.physicalDevices| == 0 then Some(NoVulkanGpu)
    else if FirstSuitable(platform.physicalDevices, deviceExtensions, 0).None? then Some(NoSuitableGpu)
    else if !platform.deviceCreated then Some(LogicalDeviceCreationFailed)
    else if !platform.swapchainCreated then Some(SwapChainCreationFailed)
    else None
  }

  class App {
    const enableValidationLayers: bool
    const deviceExtensions: seq<string>

    var instance: Option<InstanceCreateInfo>
    var physicalDevice: Option<PhysicalDevice>
    var device: Option<DeviceCreateInfo>
    var presentQueue: Option<QueueHandle>
    var swapChain: Option<SwapchainCreateInfo>
    var swapChainImages: seq<Image>
    var swapChainImageFormat: Format
    var swapChainExtent: Extent2D

    /** A selected physical device is always a suitable one. */
    ghost predicate Valid()
      reads this
    {
      physicalDevice.Some? ==> DeviceSuitable(physicalDevice.value, deviceExtensions)
    }

    constructor (enableValidationLayers: bool, deviceExtensions: seq<string>)
      ensures Valid()
      ensures this.enableValidationLayers == enableValidationLayers && this.deviceExtensions == deviceExtensions
      ensures instance.None? && physicalDevice.None? && device.None? && presentQueue.None? && swapChain.None?
      ensures swapChainImages == []
    {
      this.enableValidationLayers := enableValidationLayers;
      this.deviceExtensions := deviceExtensions;
      instance := None;
      physicalDevice := None;
      device := None;
      presentQueue := None;
      swapChain := None;
      swapChainImages := [];
      swapChainImageFormat := FormatUndefined;
      swapChainExtent := Extent2D(0, 0);
    }

    /** createInstance: refuses to start when validation is requested and a
        requested layer is missing; otherwise asks for the window-system
        extensions (plus debug report) and, with validation, the layers. */
    method CreateInstance(availableLayers: seq<string>, glfwExtensions: seq<string>, instanceCreated: bool)
      returns (outcome: Outcome)
      modifies this`instance
      ensures enableValidationLayers && !AllNamesIn(ValidationLayers, availableLayers) ==>
        outcome == Failure(ValidationLayersUnavailable) && instance == old(instance)
      ensures !(enableValidationLayers && !AllNamesIn(ValidationLayers, availableLayers)) ==>
        outcome == (if instanceCreated then Success else Failure(InstanceCreationFailed))
      ensures outcome == Success ==>
        instance == Some(InstanceCreateInfo(
          "Hello Triangle",
          glfwExtensions + (if enableValidationLayers then [DebugReportExtensionName] else []),
          EnabledLayers(enableValidationLayers)))
      ensures outcome != Success ==> instance == old(instance)
    {
      if enableValidationLayers {
        var layersSupported := CheckValidationLayerSupport(ValidationLayers, availableLayers);
        if !layersSupported {
          return Failure(ValidationLayersUnavailable);
        }
      }
      var extensions := GetRequiredExtensions(glfwExtensions, enableValidationLayers);
      var createInfo := InstanceCreateInfo("Hello Triangle", extensions, EnabledLayers(enableValidationLayers));
      if !instanceCreated {
        return Failure(InstanceCreationFailed);
      }
      instance := Some(createInfo);
      outcome := Success;
    }

    /** pickPhysicalDevice: fails without any device, otherwise keeps the
        first suitable device in enumeration order and fails if there is
        none. */
    method PickPhysicalDevice(devices: seq<PhysicalDevice>) returns (outcome: Outcome)
      modifies this`physicalDevice
      ensures Valid()
      ensures |devices| == 0 ==> outcome == Failure(NoVulkanGpu) && physicalDevice.None?
      ensures |devices| > 0 && FirstSuitable(devices, deviceExtensions, 0).None? ==>
        outcome == Failure(NoSuitableGpu) && physicalDevice.None?
      ensures FirstSuitable(devices, deviceExtensions, 0).Some? ==>
        outcome == Success && physicalDevice == Some(devices[FirstSuitable(devices, deviceExtensions, 0).value])
    {
      physicalDevice := None;
      if |devices| == 0 {
        return Failure(NoVulkanGpu);
      }
      var i := 0;
      while i < |devices|
        invariant 0 <= i <= |devices|
        invariant physicalDevice.None?
        invariant FirstSuitable(devices, deviceExtensions, 0) == FirstSuitable(devices, deviceExtensions, i)
      {
        var suitable := IsDeviceSuitable(devices[i], deviceExtensions);
        if suitable {
          physicalDevice := Some(devices[i]);
          break;
        }
        i := i + 1;
      }
      if physicalDevice.None? {
        return Failure(NoSuitableGpu);
      }
      outcome := Success;
    }

    /** createLogicalDevice: one request with one queue per distinct family
        of the selected device, the device extensions and, with validation,
        the layers. The queue it stores as the presentation queue is taken
        from the GRAPHICS family. */
    method CreateLogicalDevice(deviceCreated: bool) returns (outcome: Outcome)
      requires Valid() && physicalDevice.Some?
      modifies this`device, this`presentQueue
      ensures outcome == (if deviceCreated then Success else Failure(LogicalDeviceCreationFailed))
      ensures var indices := ScannedFamilies(physicalDevice.value.queueFamilies);
        indices.IsComplete() &&
        (deviceCreated ==>
          device.Some? &&
          |device.value.queueCreateInfos| == (if indices.graphicsFamily == indices.presentFamily then 1 else 2) &&
          RequestedFamilies(device.value.queueCreateInfos) == {indices.graphicsFamily.value, indices.presentFamily.value} &&
          (forall k :: 0 <= k < |device.value.queueCreateInfos| ==> device.value.queueCreateInfos[k].queueCount == 1) &&
          device.value.enabledExtensionNames == deviceExtensions &&
          device.value.enabledLayerNames == EnabledLayers(enableValidationLayers) &&
          presentQueue == Some(QueueHandle(indices.graphicsFamily.value, 0)))
      ensures !deviceCreated ==> device == old(device) && presentQueue == old(presentQueue)
    {
      var physical := physicalDevice.value;
      SuitableDeviceHasIndices(physical, deviceExtensions);
      var indices := FindQueueFamilies(physical.queueFamilies);
      var queueCreateInfos := BuildQueueCreateInfos(indices.graphicsFamily.value, indices.presentFamily.value);
      var createInfo := DeviceCreateInfo(queueCreateInfos, deviceExtensions, EnabledLayers(enableValidationLayers));
      if !deviceCreated {
        return Failure(LogicalDeviceCreationFailed);
      }
      device := Some(createInfo);
      presentQueue := Some(QueueHandle(indices.graphicsFamily.value, 0));
      outcome := Success;
    }

    /** createSwapChain: negotiates the create info from the selected
        device's surface support and queue families, and on success keeps the
        images the driver returns, the chosen format and the chosen extent. */
    method CreateSwapChain(swapchainCreated: bool, images: seq<Image>) returns (outcome: Outcome)
      requires Valid() && physicalDevice.Some?
      modifies this`swapChain, this`swapChainImages, this`swapChainImageFormat, this`swapChainExtent
      ensures outcome == (if swapchainCreated then Success else Failure(SwapChainCreationFailed))
      ensures var support := physicalDevice.value.swapChainSupport;
        var indices := ScannedFamilies(physicalDevice.value.queueFamilies);
        |support.formats| > 0 && indices.IsComplete() &&
        (swapchainCreated ==>
          swapChain.Some? &&
          NegotiatedCreateInfo(swapChain.value, support, indices.graphicsFamily.value, indices.presentFamily.value) &&
          swapChainImages == images &&
          swapChainImageFormat == ChooseSwapSurfaceFormat(support.formats).format &&
          swapChainExtent == ChooseSwapExtent(support.capabilities))
      ensures !swapchainCreated ==>
        swapChain == old(swapChain) && swapChainImages == old(swapChainImages) &&
        swapChainImageFormat == old(swapChainImageFormat) && swapChainExtent == old(swapChainExtent)
    {
      var physical := physicalDevice.value;
      var swapChainSupport := QuerySwapChainSupport(physical);
      SuitableDeviceHasIndices(physical, deviceExtensions);
      var indices := FindQueueFamilies(physical.queueFamilies);
      var createInfo := BuildSwapchainCreateInfo(swapChainSupport, indices.graphicsFamily.value, indices.presentFamily.value);
      if !swapchainCreated {
        return Failure(SwapChainCreationFailed);
      }
      swapChain := Some(createInfo);
      swapChainImages := images;
      swapChainImageFormat := createInfo.imageFormat;
      swapChainExtent := createInfo.imageExtent;
      outcome := Success;
    }

    /** initVulkan: the steps in order, stopping at the first that throws.
        The debug callback (only with validation) and the window surface are
        created between the instance and the device selection. */
    method InitVulkan(platform: Platform) returns (outcome: Outcome)
      requires Valid()
      modifies this`instance, this`physicalDevice, this`device, this`presentQueue,
               this`swapChain, this`swapChainImages, this`swapChainImageFormat, this`swapChainExtent
      ensures Valid()
      ensures var failure := FirstFailure(platform, enableValidationLayers, deviceExtensions);
        outcome == if failure.None? then Success else Failure(failure.value)
      ensures outcome == Success ==>
        var k := FirstSuitable(platform.physicalDevices, deviceExtensions, 0);
        k.Some? && physicalDevice == Some(platform.physicalDevices[k.value]) &&
        instance.Some? && device.Some? && swapChain.Some? &&
        presentQueue == Some(QueueHandle(ScannedFamilies(physicalDevice.value.queueFamilies).graphicsFamily.value, 0)) &&
        NegotiatedCreateInfo(swapChain.value, physicalDevice.value.swapChainSupport,
          ScannedFamilies(physicalDevice.value.queueFamilies).graphicsFamily.value,
          ScannedFamilies(physicalDevice.value.queueFamilies).presentFamily.value) &&
        swapChainImages == platform.swapchainImages &&
        swapChainExtent == ChooseSwapExtent(physicalDevice.value.swapChainSupport.capabilities)
    {
      outcome := CreateInstance(platform.availableLayers, platform.glfwExtensions, platform.instanceCreated);
      if outcome.Failure? {
        return;
      }
      if enableValidationLayers && !platform.debugCallbackCreated {
        return Failure(DebugCallbackSetupFailed);
      }
      if !platform.surfaceCreated {
        return Failure(SurfaceCreationFailed);
      }
      outcome := PickPhysicalDevice(platform.physicalDevices);
      if outcome.Failure? {
        return;
      }
      outcome := CreateLogicalDevice(platform.deviceCreated);
      if outcome.Failure? {
        return;
      }
      outcome := CreateSwapChain(platform.swapchainCreated, platform.swapchainImages);
    }
  }
}
