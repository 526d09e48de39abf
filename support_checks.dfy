/** Name checks made before anything is created: device-extension support,
    validation-layer support and the instance extension list. */
module SupportChecks {

  /** The layer the application enables when validation is on. */
  const ValidationLayers: seq<string> := ["VK_LAYER_LUNARG_standard_validation"]

  /** VK_EXT_DEBUG_REPORT_EXTENSION_NAME. */
  const DebugReportExtensionName: string := "VK_EXT_debug_report"

  /** Every required name occurs among the available ones. */
  predicate AllNamesIn(required: seq<string>, available: seq<string>)
  {
    forall name :: name in required ==> name in available
  }

  /** checkDeviceExtensionSupport: start from the set of required names,
      erase every available extension name, and report whether nothing is
      left. */
  method CheckDeviceExtensionSupport(deviceExtensions: seq<string>, availableExtensions: seq<string>)
    returns (supported: bool)
    ensures supported == AllNamesIn(deviceExtensions, availableExtensions)
  {
    var requiredExtensions := set name | name in deviceExtensions;
    for i := 0 to |availableExtensions|
      invariant requiredExtensions == (set name | name in deviceExtensions) - (set name | name in availableExtensions[..i])
    {
      requiredExtensions := requiredExtensions - {availableExtensions[i]};
      assert availableExtensions[..i + 1] == availableExtensions[..i] + [availableExtensions[i]];
    }
    assert availableExtensions[..|availableExtensions|] == availableExtensions;
    supported := requiredExtensions == {};
    if supported {
      forall name | name in deviceExtensions ensures name in availableExtensions {
        assert name !in requiredExtensions;
      }
    } else {
      var missing :| missing in requiredExtensions;
      assert missing in deviceExtensions && missing !in availableExtensions;
    }
  }

  /** checkValidationLayerSupport: for each requested layer, look for an
      available layer of the same name; give up at the first one missing. */
  method CheckValidationLayerSupport(validationLayers: seq<string>, availableLayers: seq<string>)
    returns (supported: bool)
    ensures supported == AllNamesIn(validationLayers, availableLayers)
  {
    for i := 0 to |validationLayers|
      invariant forall k :: 0 <= k < i ==> validationLayers[k] in availableLayers
    {
      var layerName := validationLayers[i];
      var layerFound := false;
      var j := 0;
      while j < |availableLayers|
        invariant 0 <= j <= |availableLayers|
        invariant layerFound ==> layerName in availableLayers
        invariant !layerFound ==> layerName !in availableLayers[..j]
      {
        if layerName == availableLayers[j] {
          layerFound := true;
          break;
        }
        j := j + 1;
      }
      if !layerFound {
        assert availableLayers[..j] == availableLayers;
        return false;
      }
    }
    return true;
  }

  /** getRequiredExtensions: the names the window system needs, in its order,
      followed by the debug-report extension when validation is enabled. */
  method GetRequiredExtensions(glfwExtensions: seq<string>, enableValidationLayers: bool)
    returns (extensions: seq<string>)
    ensures extensions == glfwExtensions + (if enableValidationLayers then [DebugReportExtensionName] else [])
  {
    extensions := [];
    for i := 0 to |glfwExtensions|
      invariant extensions == glfwExtensions[..i]
    {
      extensions := extensions + [glfwExtensions[i]];
    }
    assert glfwExtensions[..|glfwExtensions|] == glfwExtensions;
    if enableValidationLayers {
      extensions := extensions + [DebugReportExtensionName];
    }
  }

  /** The instance extension list carries every window-system name, and the
      debug-report extension whenever validation is on. */
  lemma RequiredExtensionsCoverWindowSystem(glfwExtensions: seq<string>, enableValidationLayers: bool)
    ensures var extensions := glfwExtensions + (if enableValidationLayers then [DebugReportExtensionName] else []);
      AllNamesIn(glfwExtensions, extensions) &&
      (enableValidationLayers ==> DebugReportExtensionName in extensions) &&
      |extensions| == |glfwExtensions| + (if enableValidationLayers then 1 else 0)
  {
  }
}
