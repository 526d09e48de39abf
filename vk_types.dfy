/** Plain-data stand-ins for the Vulkan query results the application reads.
    Every Vulkan enumeration is kept as its raw 32-bit code, so that values a
    driver may report beyond the few the application names are representable. */
module VkTypes {

  type uint32 = x: int | 0 <= x < 0x1_0000_0000

  /** std::numeric_limits<uint32_t>::max(), the "no definite extent" sentinel. */
  const Uint32Max: uint32 := 0xFFFF_FFFF

  datatype Option<+T> = None | Some(value: T)

  // Window size requested at creation (WIDTH and HEIGHT of app.h).
  const Width: uint32 := 800
  const Height: uint32 := 600

  // VkFormat and VkColorSpaceKHR codes.
  type Format = uint32
  type ColorSpace = uint32
  const FormatUndefined: Format := 0
  const FormatB8G8R8A8Unorm: Format := 44
  const ColorSpaceSrgbNonlinear: ColorSpace := 0

  // VkPresentModeKHR codes.
  type PresentMode = uint32
  const PresentModeImmediate: PresentMode := 0
  const PresentModeMailbox: PresentMode := 1
  const PresentModeFifo: PresentMode := 2

  // VkPhysicalDeviceType code of a discrete GPU.
  const DeviceTypeDiscreteGpu: uint32 := 2

  // VK_QUEUE_GRAPHICS_BIT.
  const QueueGraphicsBit: bv32 := 1

  /** VkSurfaceFormatKHR. */
  datatype SurfaceFormat = SurfaceFormat(format: Format, colorSpace: ColorSpace)

  /** VkExtent2D. */
  datatype Extent2D = Extent2D(width: uint32, height: uint32)

  /** The fields of VkSurfaceCapabilitiesKHR that the application reads. */
  datatype SurfaceCapabilities = SurfaceCapabilities(
    minImageCount: uint32,
    maxImageCount: uint32,  // 0 means "no limit"
    currentExtent: Extent2D,
    minImageExtent: Extent2D,
    maxImageExtent: Extent2D,
    currentTransform: uint32)

  /** What querySwapChainSupport gathers about a device and the window surface. */
  datatype SwapChainSupportDetails = SwapChainSupportDetails(
    capabilities: SurfaceCapabilities,
    formats: seq<SurfaceFormat>,
    presentModes: seq<PresentMode>)

  /** One entry of vkGetPhysicalDeviceQueueFamilyProperties, together with the
      answer of vkGetPhysicalDeviceSurfaceSupportKHR for that family index. */
  datatype QueueFamily = QueueFamily(queueCount: uint32, queueFlags: bv32, presentSupport: bool)

  /** Everything the application asks the driver about one physical device:
      its type and geometry-shader feature, its queue families (in index
      order), the names of its device extensions, and its swap-chain support
      for the window surface. */
  datatype PhysicalDevice = PhysicalDevice(
    deviceType: uint32,
    geometryShader: bool,
    queueFamilies: seq<QueueFamily>,
    extensionNames: seq<string>,
    swapChainSupport: SwapChainSupportDetails)
}
