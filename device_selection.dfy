/** isDeviceSuitable and the first-suitable policy of pickPhysicalDevice. */
module DeviceSelection {
  import opened VkTypes
  import opened QueueFamilies
  import opened SupportChecks

  /** A device is usable when it is a discrete GPU with geometry shaders, has
      a family for graphics and one for presentation, offers every required
      device extension, and its surface offers at least one format and one
      present mode. */
  predicate DeviceSuitable(device: PhysicalDevice, deviceExtensions: seq<string>)
  {
    device.deviceType == DeviceTypeDiscreteGpu &&
    device.geometryShader &&
    HasFamilyFor(device.queueFamilies, Graphics) && HasFamilyFor(device.queueFamilies, Present) &&
    AllNamesIn(deviceExtensions, device.extensionNames) &&
    |device.swapChainSupport.formats| > 0 && |device.swapChainSupport.presentModes| > 0
  }

  /** querySwapChainSupport: the capabilities, formats and present modes the
      driver reports for the device and the window surface. */
  function QuerySwapChainSupport(device: PhysicalDevice): SwapChainSupportDetails
  {
    device.swapChainSupport
  }

  /** isDeviceSuitable: the conjunction of the device checks, where the
      swap-chain support is queried only once the extensions are known to be
      supported. */
  method IsDeviceSuitable(device: PhysicalDevice, deviceExtensions: seq<string>) returns (suitable: bool)
    ensures suitable == DeviceSuitable(device, deviceExtensions)
  {
    var indices := FindQueueFamilies(device.queueFamilies);
    ScanCompleteIff(device.queueFamilies);
    var extensionsSupported := CheckDeviceExtensionSupport(deviceExtensions, device.extensionNames);
    var swapChainAdequate := false;
    if extensionsSupported {
      var swapChainSupport := QuerySwapChainSupport(device);
      swapChainAdequate := |swapChainSupport.formats| > 0 && |swapChainSupport.presentModes| > 0;
    }
    suitable := device.deviceType == DeviceTypeDiscreteGpu &&
                device.geometryShader && indices.IsComplete() &&
                extensionsSupported && swapChainAdequate;
  }

  /** A suitable device's queue-family scan ends complete, so both family
      indices are available to the later steps. */
  lemma SuitableDeviceHasIndices(device: PhysicalDevice, deviceExtensions: seq<string>)
    requires DeviceSuitable(device, deviceExtensions)
    ensures ScannedFamilies(device.queueFamilies).IsComplete()
  {
    ScanCompleteIff(device.queueFamilies);
  }

  /** The index of the first suitable device at or after `from`, in
      enumeration order. */
  function FirstSuitable(devices: seq<PhysicalDevice>, deviceExtensions: seq<string>, from: nat): (r: Option<nat>)
    requires from <= |devices|
    ensures r.Some? ==> from <= r.value < |devices| && DeviceSuitable(devices[r.value], deviceExtensions)
    ensures r.Some? ==> forall j :: from <= j < r.value ==> !DeviceSuitable(devices[j], deviceExtensions)
    ensures r.None? ==> forall j :: from <= j < |devices| ==> !DeviceSuitable(devices[j], deviceExtensions)
    decreases |devices| - from
  {
    if from == |devices| then None
    else if DeviceSuitable(devices[from], deviceExtensions) then Some(from)
    else FirstSuitable(devices, deviceExtensions, from + 1)
  }

  /** The first suitable device wins whatever follows it: appending devices
      after it does not change the choice. */
  lemma {:induction false} FirstSuitableIgnoresLaterDevices(
    devices: seq<PhysicalDevice>, more: seq<PhysicalDevice>, deviceExtensions: seq<string>, from: nat)
    requires from <= |devices|
    requires FirstSuitable(devices, deviceExtensions, from).Some?
    ensures FirstSuitable(devices + more, deviceExtensions, from) == FirstSuitable(devices, deviceExtensions, from)
    decreases |devices| - from
  {
    assert (devices + more)[from] == devices[from];
    if !DeviceSuitable(devices[from], deviceExtensions) {
      FirstSuitableIgnoresLaterDevices(devices, more, deviceExtensions, from + 1);
    }
  }
}
