/** Surface/swapchain negotiation (src/engine/swapchain.rs): the support
    snapshot, the image-count rule and the fixed `VkSwapchainCreateInfoKHR`
    the engine hands to the driver. */
module Swapchain {
  import opened Vk
  import opened Outcomes
  import opened Queues

  datatype Extent2D = Extent2D(width: uint32, height: uint32)

  /** VkSurfaceCapabilitiesKHR. */
  datatype SurfaceCapabilities = SurfaceCapabilities(
    minImageCount: uint32,
    maxImageCount: uint32,          // 0 means "no upper bound" in Vulkan
    currentExtent: Extent2D,
    minImageExtent: Extent2D,
    maxImageExtent: Extent2D,
    maxImageArrayLayers: uint32,
    supportedTransforms: SurfaceTransformFlags,
    currentTransform: SurfaceTransformFlags,
    supportedCompositeAlpha: CompositeAlphaFlags,
    supportedUsageFlags: ImageUsageFlags)

  /** VkSurfaceFormatKHR. */
  datatype SurfaceFormat = SurfaceFormat(format: Format, colorSpace: ColorSpace)

  datatype SwapchainSupportDetails = SwapchainSupportDetails(
    surfaceCapabilities: SurfaceCapabilities,
    surfaceFormats: seq<SurfaceFormat>,
    presentModes: seq<PresentMode>)

  datatype SwapchainSupportError = FailedToGetSupportDetails

  datatype SwapchainCreationError = SwapchainCreationError(errMessage: VkResult)

  /** `query_swapchain_support`: the three driver answers, in the order the
      record literal evaluates them, each unwrapped. A failed query panics, so
      the declared error `FailedToGetSupportDetails` is never returned. */
  function QuerySwapchainSupport(
    capabilities: Query<SurfaceCapabilities>,
    formats: Query<seq<SurfaceFormat>>,
    presentModes: Query<seq<PresentMode>>): (r: Run<Result<SwapchainSupportDetails, SwapchainSupportError>>)
    ensures r.Returned? <==> capabilities.Ok? && formats.Ok? && presentModes.Ok?
    ensures r.Returned? ==> r.value == Ok(SwapchainSupportDetails(capabilities.value, formats.value, presentModes.value))
    ensures r != Returned(Err(FailedToGetSupportDetails))
    ensures capabilities.Err? ==> r == Panicked(UnwrapFailed(capabilities.error))
    ensures capabilities.Ok? && formats.Err? ==> r == Panicked(UnwrapFailed(formats.error))
    ensures capabilities.Ok? && formats.Ok? && presentModes.Err? ==> r == Panicked(UnwrapFailed(presentModes.error))
  {
    match capabilities
    case Err(code) => Panicked(UnwrapFailed(code))
    case Ok(caps) =>
      match formats
      case Err(code) => Panicked(UnwrapFailed(code))
      case Ok(fs) =>
        match presentModes
        case Err(code) => Panicked(UnwrapFailed(code))
        case Ok(ms) => Returned(Ok(SwapchainSupportDetails(caps, fs, ms)))
  }

  /** `get_image_count`: `u32::min` of its arguments. */
  function GetImageCount(a: uint32, b: uint32): (r: uint32)
    ensures r <= a && r <= b
    ensures r == a || r == b
  {
    if a <= b then a else b
  }

  /** The count requested from the driver: `min(min_image_count + 1,
      max_image_count)`, with no special case for the "unbounded" value 0. The
      `+ 1` is checked `u32` arithmetic (a debug build), so it panics at
      `u32::MAX`. */
  function RequestedImageCount(caps: SurfaceCapabilities): (r: Run<uint32>)
    ensures r.Panicked? <==> caps.minImageCount == UINT32_MAX
    ensures r.Panicked? ==> r.panic == AddOverflow
    ensures r.Returned? ==> r.value <= caps.minImageCount + 1 && r.value <= caps.maxImageCount
    ensures r.Returned? && caps.maxImageCount >= caps.minImageCount + 1 ==> r.value == caps.minImageCount + 1
    ensures r.Returned? && caps.maxImageCount <= caps.minImageCount ==> r.value == caps.maxImageCount
    ensures r.Returned? && caps.maxImageCount >= caps.minImageCount ==>
              caps.minImageCount <= r.value <= caps.maxImageCount
    // the unbounded sentinel is not special-cased: it clamps the request to 0
    ensures r.Returned? && caps.maxImageCount == 0 ==> r.value == 0
  {
    if caps.minImageCount == UINT32_MAX then Panicked(AddOverflow)
    else Returned(GetImageCount(caps.minImageCount + 1, caps.maxImageCount))
  }

  /** VkSwapchainCreateInfoKHR (Vulkan 1.3, VK_KHR_swapchain chapter), without
      sType and pNext; `queueFamilyIndexCount` is `|queueFamilyIndices|`. */
  datatype SwapchainCreateInfo = SwapchainCreateInfo(
    flags: SwapchainCreateFlags,
    surface: Handle,
    minImageCount: uint32,
    imageFormat: Format,
    imageColorSpace: ColorSpace,
    imageExtent: Extent2D,
    imageArrayLayers: uint32,
    imageUsage: ImageUsageFlags,
    imageSharingMode: SharingMode,
    queueFamilyIndices: seq<uint32>,
    preTransform: SurfaceTransformFlags,
    compositeAlpha: CompositeAlphaFlags,
    presentMode: PresentMode,
    clipped: bool,
    oldSwapchain: Handle)

  /** The fixed policy of the create-info record `create_swapchain` builds. */
  predicate FixedPolicy(info: SwapchainCreateInfo) {
    && info.flags == 0
    && info.presentMode == PRESENT_MODE_FIFO
    && info.imageFormat == FORMAT_B8G8R8A8_UNORM
    && info.imageColorSpace == COLOR_SPACE_SRGB_NONLINEAR
    && info.imageSharingMode == SHARING_MODE_CONCURRENT
    && info.imageArrayLayers == 1
    && info.compositeAlpha == COMPOSITE_ALPHA_OPAQUE
    && info.clipped
    && info.imageUsage == IMAGE_USAGE_TRANSFER_DST | IMAGE_USAGE_COLOR_ATTACHMENT
    && info.oldSwapchain == NULL_HANDLE
  }

  /** The record `create_swapchain` builds, in the order its statements run:
      the image count (which can overflow), then the unwrap of the graphics
      index, then the builder chain. */
  function BuildCreateInfo(
    details: SwapchainSupportDetails,
    queueIndices: QueueIndices,
    surface: Handle,
    width: uint32,
    height: uint32): (r: Run<SwapchainCreateInfo>)
    ensures r.Panicked? <==> details.surfaceCapabilities.minImageCount == UINT32_MAX || queueIndices.graphicsQueueIndex.None?
    ensures details.surfaceCapabilities.minImageCount == UINT32_MAX ==> r == Panicked(AddOverflow)
    ensures details.surfaceCapabilities.minImageCount < UINT32_MAX && queueIndices.graphicsQueueIndex.None? ==> r == Panicked(UnwrapNone)
    ensures r.Returned? ==>
      var info := r.value;
      && FixedPolicy(info)
      && info.imageExtent == Extent2D(width, height)
      && info.preTransform == details.surfaceCapabilities.currentTransform
      && info.surface == surface
      && info.queueFamilyIndices == [queueIndices.graphicsQueueIndex.value]
      && RequestedImageCount(details.surfaceCapabilities) == Returned(info.minImageCount)
  {
    var extent := Extent2D(width, height);
    match RequestedImageCount(details.surfaceCapabilities)
    case Panicked(p) => Panicked(p)
    case Returned(count) =>
      match queueIndices.graphicsQueueIndex
      case None => Panicked(UnwrapNone)
      case Some(graphics) =>
        Returned(SwapchainCreateInfo(
          flags := 0,
          surface := surface,
          minImageCount := count,
          imageFormat := FORMAT_B8G8R8A8_UNORM,
          imageColorSpace := COLOR_SPACE_SRGB_NONLINEAR,
          imageExtent := extent,
          imageArrayLayers := 1,
          imageUsage := IMAGE_USAGE_TRANSFER_DST | IMAGE_USAGE_COLOR_ATTACHMENT,
          imageSharingMode := SHARING_MODE_CONCURRENT,
          queueFamilyIndices := [graphics],
          preTransform := details.surfaceCapabilities.currentTransform,
          compositeAlpha := COMPOSITE_ALPHA_OPAQUE,
          presentMode := PRESENT_MODE_FIFO,
          clipped := true,
          oldSwapchain := NULL_HANDLE))
  }

  /** A valid-usage rule of the Vulkan specification for
      VkSwapchainCreateInfoKHR (VUID-VkSwapchainCreateInfoKHR-imageSharingMode-01278):
      CONCURRENT sharing needs `queueFamilyIndexCount` greater than 1. */
  predicate SharingModeValid(info: SwapchainCreateInfo) {
    info.imageSharingMode == SHARING_MODE_CONCURRENT ==> |info.queueFamilyIndices| > 1
  }

  /** Every record `create_swapchain` builds asks for CONCURRENT sharing with
      the graphics family alone, so none satisfies that rule. */
  lemma ConcurrentSharingWithOneFamily(
    details: SwapchainSupportDetails,
    queueIndices: QueueIndices,
    surface: Handle,
    width: uint32,
    height: uint32)
    requires BuildCreateInfo(details, queueIndices, surface, width, height).Returned?
    ensures var info := BuildCreateInfo(details, queueIndices, surface, width, height).value;
      info.imageSharingMode == SHARING_MODE_CONCURRENT && |info.queueFamilyIndices| == 1 && !SharingModeValid(info)
  {
  }

  /** `create_swapchain`: the record goes to `vkCreateSwapchainKHR`, here the
      parameter `driver`; its error code is wrapped unchanged. */
  function CreateSwapchain(
    driver: SwapchainCreateInfo -> Query<Handle>,
    details: SwapchainSupportDetails,
    queueIndices: QueueIndices,
    surface: Handle,
    width: uint32,
    height: uint32): (r: Run<Result<Handle, SwapchainCreationError>>)
    ensures r.Panicked? <==> BuildCreateInfo(details, queueIndices, surface, width, height).Panicked?
    ensures r.Returned? ==>
      var info := BuildCreateInfo(details, queueIndices, surface, width, height).value;
      && (driver(info).Ok? ==> r.value == Ok(driver(info).value))
      && (driver(info).Err? ==> r.value == Err(SwapchainCreationError(driver(info).error)))
  {
    match BuildCreateInfo(details, queueIndices, surface, width, height)
    case Panicked(p) => Panicked(p)
    case Returned(info) =>
      match driver(info)
      case Ok(swapchain) => Returned(Ok(swapchain))
      case Err(code) => Returned(Err(SwapchainCreationError(code)))
  }

  datatype ImageRetrievalError = FailedToRetrieveImages

  /** `create_swapchain_images`: the driver's image list, or one fixed error. */
  function CreateSwapchainImages(images: Query<seq<Handle>>): (r: Result<seq<Handle>, ImageRetrievalError>)
    ensures r.Ok? <==> images.Ok?
    ensures r.Ok? ==> r.value == images.value
  {
    match images
    case Ok(handles) => Ok(handles)
    case Err(_) => Err(FailedToRetrieveImages)
  }

  /** A surface with `minImageCount = 2` and `maxImageCount = 4` gets a request
      for three images, with the fixed format, colour space and present mode. */
  lemma ThreeImagesForTwoToFour(caps: SurfaceCapabilities, queueIndices: QueueIndices, surface: Handle, width: uint32, height: uint32)
    requires caps.minImageCount == 2 && caps.maxImageCount == 4
    requires queueIndices.graphicsQueueIndex.Some?
    ensures var r := BuildCreateInfo(SwapchainSupportDetails(caps, [SurfaceFormat(FORMAT_B8G8R8A8_UNORM, COLOR_SPACE_SRGB_NONLINEAR)], [PRESENT_MODE_FIFO]), queueIndices, surface, width, height);
            && r.Returned?
            && r.value.minImageCount == 3
            && r.value.imageFormat == FORMAT_B8G8R8A8_UNORM
            && r.value.presentMode == PRESENT_MODE_FIFO
  {
    var details := SwapchainSupportDetails(caps, [SurfaceFormat(FORMAT_B8G8R8A8_UNORM, COLOR_SPACE_SRGB_NONLINEAR)], [PRESENT_MODE_FIFO]);
    assert RequestedImageCount(caps) == Returned(3);
    assert BuildCreateInfo(details, queueIndices, surface, width, height).Returned?;
  }
}
