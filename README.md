# Vulkan triangle application: device and swap-chain negotiation

This project models the start-up decisions of a small Vulkan application.
The application opens a GLFW window, then negotiates these things in order:

- the instance extensions and validation layers;
- a physical device;
- the queue families for graphics and presentation;
- a logical device;
- a swap chain: its surface format, present mode, extent, image count and sharing mode.

Every Vulkan or GLFW query becomes plain input data. Queue families are
a sequence of records. Formats, present modes and extension names are
sequences. The surface capabilities are one record. A Vulkan call that
creates an object becomes a boolean input that says whether the driver
accepted it. A created object is recorded as the create info it was made
from.

Modules:

- `VkTypes`: the data records, the 32-bit unsigned type, the Vulkan enum
  codes the application uses, and the window size 800x600.
- `QueueFamilies`: `findQueueFamilies`, the distinct-family queue requests
  of `createLogicalDevice`, and the image sharing mode of `createSwapChain`.
- `SwapChainChoice`: `chooseSwapSurfaceFormat`, `chooseSwapPresentMode`,
  `chooseSwapExtent`, the image-count rule, and the swap-chain create info.
- `SupportChecks`: `checkDeviceExtensionSupport`,
  `checkValidationLayerSupport` and `getRequiredExtensions`.
- `DeviceSelection`: `isDeviceSuitable` and the first-suitable policy of
  `pickPhysicalDevice`.
- `Application`: class `App`. Its fields are the instance, the physical
  device, the logical device, the presentation queue, the swap chain, its
  images, its format and its extent. The window, debug-callback and surface
  handles are not fields: their creation is only a success-or-failure input
  of `initVulkan`. Its methods are `createInstance`, `pickPhysicalDevice`,
  `createLogicalDevice`, `createSwapChain` and `initVulkan`; `FirstFailure`
  names the error `initVulkan` stops at.
- `Teardown`: the objects' creation order and the destroy order of `cleanup`.

Two quirks of the code are kept on purpose:

- The only queue retrieved is taken from the graphics family, yet it is
  stored as the presentation queue (`App.CreateLogicalDevice`).
- Before the scan stops, each later graphics-capable family overwrites the
  graphics index. So the graphics index is the last graphics family up to the
  stopping index, not the first (`QueueFamilies.ScanStopsAtFirstComplete`).

Behaviour of the code worth knowing:

- Suitability also requires a discrete GPU with geometry shaders.
- A surface that reports a single `UNDEFINED` format yields the preferred pair.
- Only one queue is retrieved.
- Teardown is not the exact reverse of creation. The debug callback is
  destroyed before the surface. Without validation, cleanup still calls the
  destroy wrapper on a callback handle that was never set.
- The code has no frame loop, no resize handling and no swap-chain recreation.

Inputs and parameters:

- The definition of the required device-extension list (`deviceExtensions`)
  is not part of this model. The list is a constructor parameter of `App`.
- `enableValidationLayers` is another constructor parameter. In the source it
  is set at build time.

## Model

| member | source | states |
|---|---|---|
| `QueueFamilies.LastSupporting` | src/app.cpp:369-376 | the result is the greatest index below n whose family has queues and the capability; None exactly when no such family exists below n |
| `QueueFamilies.ScanLength` | src/app.cpp:366-382 | the scan examines families up to and including the first index at which both indices are set, or the whole list; no shorter prefix was complete |
| `QueueFamilies.FindQueueFamilies` | src/app.cpp:356-385 | the counted loop with its early break returns exactly the reference scan result `ScannedFamilies` |
| `QueueFamilies.ScannedFamiliesQualify` | src/app.cpp:369-376 | a returned graphics index names a family with queues and the graphics bit; a returned present index names a family with queues and surface support |
| `QueueFamilies.ScanCompleteIff` | src/app.cpp:366-384 | the indices are complete if and only if some family supports graphics and some family supports presentation |
| `QueueFamilies.ScanStopsAtFirstComplete` | src/app.cpp:366-382 | on success the stop index is the larger of the two indices, no earlier prefix was complete, and each index is the last qualifying family up to the stop |
| `QueueFamilies.UniqueQueueFamilies` | src/app.cpp:189 | the std::set of the two families in iteration order: strictly ascending and holding exactly the two indices |
| `QueueFamilies.BuildQueueCreateInfos` | src/app.cpp:188-200 | one request when the families coincide and two when they differ; the requests name exactly the two families, in ascending order, with one queue each |
| `QueueFamilies.ImageSharingFor` | src/app.cpp:256-270 | concurrent sharing with both indices if and only if the families differ; exclusive with no index list otherwise |
| `QueueFamilies.SharingMatchesQueueRequests` | src/app.cpp:259-270 | exclusive sharing exactly when a single queue family is requested; concurrent sharing names exactly the requested families |
| `SwapChainChoice.FindPreferredFormat` | src/app.cpp:439-441 | the search finds an entry equal to B8G8R8A8_UNORM with sRGB non-linear colour space, and finds none exactly when no such entry follows the start |
| `SwapChainChoice.ChooseSwapSurfaceFormat` | src/app.cpp:434-444 | the preferred pair when the list is a single UNDEFINED entry or contains the pair; otherwise the first listed format |
| `SwapChainChoice.ChosenFormatIsOffered` | src/app.cpp:434-444 | the chosen format is listed, unless the surface allowed any format and the preferred pair was substituted |
| `SwapChainChoice.ChooseSwapPresentMode` | src/app.cpp:446-463 | the loop returns mailbox if it occurs anywhere, else immediate if it occurs, else FIFO |
| `SwapChainChoice.PresentModeOrderIndependent` | src/app.cpp:446-463 | two lists offering the same modes give the same choice, whatever their order or repetitions |
| `SwapChainChoice.PresentModeIsOffered` | src/app.cpp:446-463 | the chosen mode is offered or is FIFO |
| `SwapChainChoice.ClampAxis` | src/app.cpp:475-476 | the result is never below the minimum; it lies in [min, max] when the bounds are ordered; it equals the request inside the bounds and the nearer bound outside them; the minimum wins for inverted bounds |
| `SwapChainChoice.ClampedIntoIsUnique` | src/app.cpp:475-476 | that description of clamping determines a single value |
| `SwapChainChoice.ChooseSwapExtent` | src/app.cpp:465-480 | a current width other than UINT32_MAX gives exactly the current extent; otherwise 800 and 600 are clamped into the bounds, each axis on its own |
| `SwapChainChoice.ExtentWithinBounds` | src/app.cpp:471-479 | without a definite extent each axis is at least its minimum, and at most its maximum when min <= max |
| `SwapChainChoice.ImageCount` | src/app.cpp:241-243 | never above a nonzero maximum; minImageCount + 1 when no maximum applies; the maximum when minImageCount + 1 exceeds it; 0 after the uint32 wrap |
| `SwapChainChoice.ImageCountWithinBounds` | src/app.cpp:241-243 | for consistent capabilities the count lies between minImageCount and a nonzero maxImageCount |
| `SwapChainChoice.BuildSwapchainCreateInfo` | src/app.cpp:235-276 | the create info satisfies `NegotiatedCreateInfo`: it carries the chosen image count, format and colour space, extent, present mode, sharing mode and current transform, with one layer, colour-attachment usage, opaque alpha and clipping |
| `SwapChainChoice.DefiniteExtentScenario` | src/app.cpp:237-243 | a 1024x768 surface with the preferred format, only FIFO, and min 2 / max 0 images gives 1024x768, that format, FIFO and 3 images |
| `SupportChecks.CheckDeviceExtensionSupport` | src/app.cpp:389-405 | erasing every available name from the required set leaves it empty if and only if every required extension is available |
| `SupportChecks.CheckValidationLayerSupport` | src/app.cpp:96-122 | the nested search returns true if and only if every requested layer name is among the available layers |
| `SupportChecks.GetRequiredExtensions` | src/app.cpp:124-139 | the window-system extensions in their order, followed by VK_EXT_debug_report exactly when validation is enabled |
| `SupportChecks.RequiredExtensionsCoverWindowSystem` | src/app.cpp:132-136 | the list contains every window-system name, and the debug-report name when validation is on; its length grows by one with validation |
| `DeviceSelection.IsDeviceSuitable` | src/app.cpp:332-354 | true if and only if the device is a discrete GPU with geometry shaders, has a graphics family and a present family, supports every required extension, and offers a format and a present mode |
| `DeviceSelection.SuitableDeviceHasIndices` | src/app.cpp:351-353 | the queue-family scan of a suitable device ends with both indices set |
| `DeviceSelection.FirstSuitable` | src/app.cpp:167-174 | the result is a suitable device's index with no suitable device before it; None exactly when no device qualifies |
| `DeviceSelection.FirstSuitableIgnoresLaterDevices` | src/app.cpp:167-174 | the devices enumerated after the first suitable one do not change the choice |
| `Application.App.CreateInstance` | src/app.cpp:58-94 | with validation on and a layer missing it fails before creating anything; otherwise the instance gets the required extensions and, with validation, the layer; a driver refusal fails |
| `Application.App.PickPhysicalDevice` | src/app.cpp:154-177 | it fails with no devices, selects the first suitable device in enumeration order, and fails when none qualifies; a selected device is suitable |
| `Application.App.CreateLogicalDevice` | src/app.cpp:184-222 | one request with one queue per distinct family, the device extensions, the layers when validation is on; the stored presentation queue is queue 0 of the graphics family |
| `Application.App.CreateSwapChain` | src/app.cpp:233-289 | the created swap chain carries every negotiated create-info field (`NegotiatedCreateInfo`); the images are those the driver returned, and the format and extent are the chosen ones; a refusal changes nothing |
| `Application.FirstFailure` | src/app.cpp:24-32 | no error exactly when the layers are available (with validation), the instance, callback (with validation) and surface are created, a suitable device exists, and the device and swap chain are created; no GPU only for an empty device list; no suitable GPU only when devices exist and none qualifies |
| `Application.App.InitVulkan` | src/app.cpp:24-32 | the outcome is exactly the first refusing step in program order (`FirstFailure`), or success; success implies the first suitable device, a device, a swap chain with the negotiated create info, the graphics-family present queue and the chosen extent |
| `Teardown.CreationAfterParents` | src/app.cpp:24-32 | every object is created after the objects it is made from |
| `Teardown.CleanupDestroysChildrenFirst` | src/app.cpp:42-53 | cleanup destroys every object before the objects it was made from |
| `Teardown.CleanupDestroysEachObjectOnce` | src/app.cpp:42-53 | cleanup destroys each object that run() can create exactly once |
| `Teardown.CleanupIsNotReverseOfCreation` | src/app.cpp:42-50 | the destroy order is not the exact reverse of the creation order |
| `Teardown.CleanupDestroysUncreatedCallback` | src/app.cpp:47 | without validation, cleanup still calls the destroy wrapper on a debug-callback handle that was never set |

## Left out

- Window creation, event polling and the main loop (src/app.cpp:11-40): windowing I/O. The loop only polls events.
- The Vulkan and GLFW create, get and destroy calls are foreign calls. Their outcomes are inputs: instance, debug callback, surface, device, swap chain and swap-chain images.
- The images that `vkGetSwapchainImagesKHR` returns are an input. Their number is the driver's choice, not the requested count.
- The debug callback function, the procedure-address lookups and the stderr output (src/app.cpp:141-152, 293-328). These are foreign function pointers and diagnostics. Setting up the callback appears only as a possible failure in `InitVulkan`.
- The float queue priority 1.0 (src/app.cpp:191). The device-name printing (src/app.cpp:179-181).
- Application info fields other than the application name: engine name, versions and API version.
- `querySwapChainSupport` (src/app.cpp:407-432): its three answers are fields of the device record. `QuerySwapChainSupport` only reads them.
- IsDeviceSuitable: its body queries swap-chain support only after the extensions are found supported, as the source does. No contract states this, because the model's queries have no effect.
- src/main.cpp: the entry point and the mapping of exceptions to exit codes.
- The uint32 conversions of the family indices (src/app.cpp:257) are identities for the indices the scan can return. The model keeps the indices as `nat`.
