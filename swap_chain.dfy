/** The swap-chain negotiation of createSwapChain: surface format, present
    mode, extent, image count and the create-info record handed to
    vkCreateSwapchainKHR. */
module SwapChainChoice {
  import opened VkTypes
  import opened QueueFamilies

  /** The pair the application prefers: 8-bit BGRA, sRGB non-linear. */
  const PreferredSurfaceFormat: SurfaceFormat := SurfaceFormat(FormatB8G8R8A8Unorm, ColorSpaceSrgbNonlinear)

  /** The surface leaves the choice open when it reports a single entry whose
      format is undefined. */
  predicate AnyFormatAllowed(available: seq<SurfaceFormat>)
  {
    |available| == 1 && available[0].format == FormatUndefined
  }

  /** The first entry at or after `from` that is the preferred pair. */
  function FindPreferredFormat(available: seq<SurfaceFormat>, from: nat): (r: Option<SurfaceFormat>)
    requires from <= |available|
    ensures r.Some? ==> r.value == PreferredSurfaceFormat
    ensures r.None? <==> PreferredSurfaceFormat !in available[from..]
    decreases |available| - from
  {
    if from == |available| then None
    else if available[from].format == FormatB8G8R8A8Unorm && available[from].colorSpace == ColorSpaceSrgbNonlinear
    then Some(available[from])
    else
      assert available[from..] == [available[from]] + available[from + 1..];
      FindPreferredFormat(available, from + 1)
  }

  /** chooseSwapSurfaceFormat: the preferred pair when the surface allows any
      format or lists that pair, and the first listed format otherwise. */
  function ChooseSwapSurfaceFormat(availableFormats: seq<SurfaceFormat>): (r: SurfaceFormat)
    requires |availableFormats| > 0
    ensures AnyFormatAllowed(availableFormats) || PreferredSurfaceFormat in availableFormats ==> r == PreferredSurfaceFormat
    ensures !AnyFormatAllowed(availableFormats) && PreferredSurfaceFormat !in availableFormats ==> r == availableFormats[0]
  {
    if AnyFormatAllowed(availableFormats) then PreferredSurfaceFormat
    else
      assert availableFormats[0..] == availableFormats;
      match FindPreferredFormat(availableFormats, 0)
      case Some(availableFormat) => availableFormat
      case None => availableFormats[0]
  }

  /** The result is always either the preferred pair or a listed format. */
  lemma ChosenFormatIsOffered(availableFormats: seq<SurfaceFormat>)
    requires |availableFormats| > 0
    ensures var r := ChooseSwapSurfaceFormat(availableFormats);
      r in availableFormats || (r == PreferredSurfaceFormat && AnyFormatAllowed(availableFormats))
  {
  }

  /** The fixed priority of present modes: mailbox if offered, else
      immediate if offered, else FIFO (which every surface supports). */
  function PresentModeByPriority(modes: seq<PresentMode>): PresentMode
  {
    if PresentModeMailbox in modes then PresentModeMailbox
    else if PresentModeImmediate in modes then PresentModeImmediate
    else PresentModeFifo
  }

  /** chooseSwapPresentMode: returns at the first mailbox entry and otherwise
      remembers any immediate entry. */
  method ChooseSwapPresentMode(availablePresentModes: seq<PresentMode>) returns (bestMode: PresentMode)
    ensures bestMode == PresentModeByPriority(availablePresentModes)
  {
    bestMode := PresentModeFifo;
    for i := 0 to |availablePresentModes|
      invariant PresentModeMailbox !in availablePresentModes[..i]
      invariant bestMode == if PresentModeImmediate in availablePresentModes[..i] then PresentModeImmediate else PresentModeFifo
    {
      var availablePresentMode := availablePresentModes[i];
      assert availablePresentModes[..i + 1] == availablePresentModes[..i] + [availablePresentMode];
      if availablePresentMode == PresentModeMailbox {
        return availablePresentMode;
      } else if availablePresentMode == PresentModeImmediate {
        bestMode := availablePresentMode;
      }
    }
    assert availablePresentModes[..|availablePresentModes|] == availablePresentModes;
  }

  /** The choice depends only on which modes are offered, not on their order
      or multiplicity. */
  lemma PresentModeOrderIndependent(a: seq<PresentMode>, b: seq<PresentMode>)
    requires forall m :: m in a <==> m in b
    ensures PresentModeByPriority(a) == PresentModeByPriority(b)
  {
  }

  /** The chosen present mode is offered, or is the always-available FIFO. */
  lemma PresentModeIsOffered(modes: seq<PresentMode>)
    ensures PresentModeByPriority(modes) in modes || PresentModeByPriority(modes) == PresentModeFifo
  {
  }

  /** What clamping `want` into [lo, hi] means, per axis; when the bounds are
      inverted the lower bound wins, as std::max(lo, std::min(hi, want)) does. */
  ghost predicate ClampedInto(lo: uint32, hi: uint32, want: uint32, r: uint32)
  {
    lo <= r &&
    (lo <= hi ==> r <= hi) &&
    (lo <= want <= hi ==> r == want) &&
    (want < lo ==> r == lo) &&
    (lo <= hi < want ==> r == hi) &&
    (hi < lo ==> r == lo)
  }

  /** The clamping description determines its value. */
  lemma ClampedIntoIsUnique(lo: uint32, hi: uint32, want: uint32, r1: uint32, r2: uint32)
    requires ClampedInto(lo, hi, want, r1) && ClampedInto(lo, hi, want, r2)
    ensures r1 == r2
  {
  }

  function Min(a: int, b: int): int { if a < b then a else b }
  function Max(a: int, b: int): int { if a < b then b else a }

  /** std::max(lo, std::min(hi, want)) on uint32_t. */
  function ClampAxis(lo: uint32, hi: uint32, want: uint32): (r: uint32)
    ensures ClampedInto(lo, hi, want, r)
  {
    Max(lo, Min(hi, want))
  }

  /** chooseSwapExtent: a definite current extent (width not the sentinel) is
      taken verbatim; otherwise the 800x600 window size is clamped into the
      surface's bounds, each axis on its own. Only the width is compared with
      the sentinel. */
  function ChooseSwapExtent(capabilities: SurfaceCapabilities): (r: Extent2D)
    ensures capabilities.currentExtent.width != Uint32Max ==> r == capabilities.currentExtent
    ensures capabilities.currentExtent.width == Uint32Max ==>
      ClampedInto(capabilities.minImageExtent.width, capabilities.maxImageExtent.width, Width, r.width) &&
      ClampedInto(capabilities.minImageExtent.height, capabilities.maxImageExtent.height, Height, r.height)
  {
    if capabilities.currentExtent.width != Uint32Max then capabilities.currentExtent
    else
      var actualExtent := Extent2D(Width, Height);
      Extent2D(ClampAxis(capabilities.minImageExtent.width, capabilities.maxImageExtent.width, actualExtent.width),
               ClampAxis(capabilities.minImageExtent.height, capabilities.maxImageExtent.height, actualExtent.height))
  }

  /** Without a definite extent the result lies inside the bounds on both
      axes whenever the bounds are ordered, and is never below the minimum. */
  lemma ExtentWithinBounds(capabilities: SurfaceCapabilities)
    requires capabilities.currentExtent.width == Uint32Max
    ensures var r := ChooseSwapExtent(capabilities);
      capabilities.minImageExtent.width <= r.width && capabilities.minImageExtent.height <= r.height &&
      (capabilities.minImageExtent.width <= capabilities.maxImageExtent.width ==> r.width <= capabilities.maxImageExtent.width) &&
      (capabilities.minImageExtent.height <= capabilities.maxImageExtent.height ==> r.height <= capabilities.maxImageExtent.height)
  {
  }

  /** The image count requested: one more than the minimum, lowered to the
      maximum when there is one (nonzero) and the minimum plus one exceeds it.
      The addition is on uint32_t and wraps to 0 for a minimum of 2^32 - 1. */
  function ImageCount(capabilities: SurfaceCapabilities): (n: uint32)
    ensures capabilities.maxImageCount > 0 ==> n <= capabilities.maxImageCount
    ensures capabilities.minImageCount < Uint32Max &&
            (capabilities.maxImageCount == 0 || capabilities.minImageCount < capabilities.maxImageCount)
            ==> n == capabilities.minImageCount + 1
    ensures capabilities.minImageCount < Uint32Max && 0 < capabilities.maxImageCount <= capabilities.minImageCount
            ==> n == capabilities.maxImageCount
    ensures capabilities.minImageCount == Uint32Max ==> n == 0
  {
    var imageCount: uint32 := (capabilities.minImageCount + 1) % 0x1_0000_0000;
    if capabilities.maxImageCount > 0 && imageCount > capabilities.maxImageCount
    then capabilities.maxImageCount
    else imageCount
  }

  /** On any surface whose counts are consistent (the minimum below 2^32 - 1
      and not above a nonzero maximum) the count lies between the minimum and
      the maximum. */
  lemma ImageCountWithinBounds(capabilities: SurfaceCapabilities)
    requires capabilities.minImageCount < Uint32Max
    requires capabilities.maxImageCount == 0 || capabilities.minImageCount <= capabilities.maxImageCount
    ensures capabilities.minImageCount <= ImageCount(capabilities)
    ensures capabilities.maxImageCount > 0 ==> ImageCount(capabilities) <= capabilities.maxImageCount
  {
  }

  // VK_IMAGE_USAGE_COLOR_ATTACHMENT_BIT and VK_COMPOSITE_ALPHA_OPAQUE_BIT_KHR.
  const ImageUsageColorAttachment: bv32 := 0x10
  const CompositeAlphaOpaque: bv32 := 0x1

  /** The fields of VkSwapchainCreateInfoKHR the application fills in (the
      surface handle and the null old swap chain are left out). */
  datatype SwapchainCreateInfo = SwapchainCreateInfo(
    minImageCount: uint32,
    imageFormat: Format,
    imageColorSpace: ColorSpace,
    imageExtent: Extent2D,
    imageArrayLayers: nat,
    imageUsage: bv32,
    sharing: ImageSharing,
    preTransform: uint32,
    compositeAlpha: bv32,
    presentMode: PresentMode,
    clipped: bool)

  /** Every field createSwapChain sets in the create info, as negotiated from
      the surface's support details and the two queue families. */
  predicate NegotiatedCreateInfo(createInfo: SwapchainCreateInfo, support: SwapChainSupportDetails,
                                 graphicsFamily: nat, presentFamily: nat)
  {
    |support.formats| > 0 &&
    createInfo.minImageCount == ImageCount(support.capabilities) &&
    SurfaceFormat(createInfo.imageFormat, createInfo.imageColorSpace) == ChooseSwapSurfaceFormat(support.formats) &&
    createInfo.imageExtent == ChooseSwapExtent(support.capabilities) &&
    createInfo.imageArrayLayers == 1 &&
    createInfo.imageUsage == ImageUsageColorAttachment &&
    createInfo.sharing == ImageSharingFor(graphicsFamily, presentFamily) &&
    createInfo.preTransform == support.capabilities.currentTransform &&
    createInfo.compositeAlpha == CompositeAlphaOpaque &&
    createInfo.presentMode == PresentModeByPriority(support.presentModes) &&
    createInfo.clipped
  }

  /** The part of createSwapChain that decides the create info from the
      surface's support details and the two queue families. */
  method BuildSwapchainCreateInfo(support: SwapChainSupportDetails, graphicsFamily: nat, presentFamily: nat)
    returns (createInfo: SwapchainCreateInfo)
    requires |support.formats| > 0
    ensures NegotiatedCreateInfo(createInfo, support, graphicsFamily, presentFamily)
  {
    var surfaceFormat := ChooseSwapSurfaceFormat(support.formats);
    var presentMode := ChooseSwapPresentMode(support.presentModes);
    var extent := ChooseSwapExtent(support.capabilities);
    var imageCount := ImageCount(support.capabilities);
    var sharing := ImageSharingFor(graphicsFamily, presentFamily);
    createInfo := SwapchainCreateInfo(
      imageCount, surfaceFormat.format, surfaceFormat.colorSpace, extent, 1, ImageUsageColorAttachment,
      sharing, support.capabilities.currentTransform, CompositeAlphaOpaque, presentMode, true);
  }

  /** A surface with a definite 1024x768 extent, only the preferred format,
      only FIFO, and two to unboundedly many images yields a 1024x768,
      B8G8R8A8/sRGB, FIFO swap chain of three images. */
  lemma DefiniteExtentScenario()
    ensures var caps := SurfaceCapabilities(2, 0, Extent2D(1024, 768), Extent2D(1, 1), Extent2D(4096, 4096), 1);
      ChooseSwapExtent(caps) == Extent2D(1024, 768) &&
      ChooseSwapSurfaceFormat([PreferredSurfaceFormat]) == PreferredSurfaceFormat &&
      PresentModeByPriority([PresentModeFifo]) == PresentModeFifo &&
      ImageCount(caps) == 3
  {
  }
}
