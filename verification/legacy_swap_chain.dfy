/** The older SwapChainBuilder / SwapChain pair. The selection rules are
    those of the Swapchains module; the differences are build() and the
    message thrown when vkCreateSwapchainKHR fails. */
module LegacySwapChains {

  import opened Vk
  import opened Swapchains

  /** SwapChainBuilder. */
  class SwapChainBuilder {
    const device: nat
    const surface: nat
    const details: Details
    var surfaceFormat: SurfaceFormat
    var presentMode: nat
    var extent: Extent2D
    var imageCount: U32
    var usage: bv32
    var queueFamilies: seq<U32>

    /** SwapChainBuilder(device, surface); formats[0] and presentModes[0]
        are read unchecked. */
    constructor (device: nat, surface: nat, details: Details)
      requires |details.formats| > 0 && |details.presentModes| > 0
      ensures this.device == device && this.surface == surface && this.details == details
      ensures surfaceFormat == details.formats[0] && presentMode == details.presentModes[0]
      ensures imageCount == InitialImageCount(details.capabilities)
      ensures usage == VK_IMAGE_USAGE_COLOR_ATTACHMENT_BIT
      ensures extent == Extent2D(0, 0) && queueFamilies == []
    {
      this.device := device;
      this.surface := surface;
      this.details := details;
      surfaceFormat := details.formats[0];
      presentMode := details.presentModes[0];
      imageCount := InitialImageCount(details.capabilities);
      usage := VK_IMAGE_USAGE_COLOR_ATTACHMENT_BIT;
      extent := Extent2D(0, 0);
      queueFamilies := [];
    }

    /** selectSurfaceFormat(format, colorSpace) */
    method SelectSurfaceFormat(format: nat, colorSpace: nat)
      modifies this
      ensures SurfaceFormat(format, colorSpace) in details.formats ==> surfaceFormat == SurfaceFormat(format, colorSpace)
      ensures SurfaceFormat(format, colorSpace) !in details.formats ==> surfaceFormat == old(surfaceFormat)
      ensures presentMode == old(presentMode) && extent == old(extent) && imageCount == old(imageCount)
      ensures usage == old(usage) && queueFamilies == old(queueFamilies)
    {
      var found := FindSurfaceFormat(details.formats, format, colorSpace);
      if found.Some? {
        surfaceFormat := found.value;
      }
    }

    /** selectPresentMode(mode) */
    method SelectPresentMode(mode: nat)
      modifies this
      ensures mode in details.presentModes ==> presentMode == mode
      ensures mode !in details.presentModes ==> presentMode == old(presentMode)
      ensures surfaceFormat == old(surfaceFormat) && extent == old(extent) && imageCount == old(imageCount)
      ensures usage == old(usage) && queueFamilies == old(queueFamilies)
    {
      if mode in details.presentModes {
        presentMode := mode;
      }
    }

    /** extent(width, height) */
    method Extent(width: int, height: int)
      modifies this
      ensures extent == ChooseExtent(details.capabilities, width, height)
      ensures surfaceFormat == old(surfaceFormat) && presentMode == old(presentMode) && imageCount == old(imageCount)
      ensures usage == old(usage) && queueFamilies == old(queueFamilies)
    {
      extent := ChooseExtent(details.capabilities, width, height);
    }

    /** imageCount(count) */
    method ImageCount(count: U32)
      modifies this
      ensures imageCount == ClampImageCount(count, details.capabilities.maxImageCount)
      ensures surfaceFormat == old(surfaceFormat) && presentMode == old(presentMode) && extent == old(extent)
      ensures usage == old(usage) && queueFamilies == old(queueFamilies)
    {
      imageCount := ClampImageCount(count, details.capabilities.maxImageCount);
    }

    /** usage(flags) */
    method Usage(flags: bv32)
      modifies this
      ensures usage == flags
      ensures surfaceFormat == old(surfaceFormat) && presentMode == old(presentMode) && extent == old(extent)
      ensures imageCount == old(imageCount) && queueFamilies == old(queueFamilies)
    {
      usage := flags;
    }

    /** share(families): replaces the family list. */
    method Share(families: seq<U32>)
      modifies this
      ensures queueFamilies == families
      ensures surfaceFormat == old(surfaceFormat) && presentMode == old(presentMode) && extent == old(extent)
      ensures imageCount == old(imageCount) && usage == old(usage)
    {
      queueFamilies := families;
    }

    /** The create info this builder's selections give. */
    function Info(): (ci: SwapchainCreateInfo)
      reads this
      ensures ci.sharing.mode == Exclusive <==> queueFamilies == []
      ensures ci.sharing.mode == Concurrent ==> ci.sharing.queueFamilyIndexCount == |queueFamilies|
      ensures ci.minImageCount == imageCount && ci.imageExtent == extent
    {
      SwapchainInfo(surface, details, surfaceFormat, presentMode, extent, imageCount, usage, queueFamilies)
    }

    /** build(): constructs a SwapChain from this builder. */
    method Build(createResult: VkResult, handle: nat, images: seq<nat>, created: seq<nat>, results: seq<VkResult>)
      returns (r: Result<SwapChain>, trace: seq<ViewEvent>)
      requires |created| == |images| && |results| == |images|
      ensures createResult != VK_SUCCESS ==> r == Err(RuntimeError(SWAP_CHAIN_FAILED)) && trace == []
      ensures createResult == VK_SUCCESS && LastFailure(results).Some? ==>
                r == Err(RuntimeError(VIEWS_FAILED))
                && trace == Countdown(images, LastFailure(results).value)
                            + Teardown(created, LastFailure(results).value + 1) + [DestroySwapchain]
      ensures r.Ok? <==> createResult == VK_SUCCESS && LastFailure(results).None?
      ensures r.Ok? ==> fresh(r.value) && fresh(r.value.views) && r.value.views[..] == created
      ensures r.Ok? ==> trace == Countdown(images, 0) && r.value.handle == handle && r.value.createInfo == Info()
    {
      r, trace := CreateSwapChain(this, createResult, handle, images, created, results);
    }
  }

  const SWAP_CHAIN_FAILED: string := "Failed to create swap chain"

  /** SwapChain. */
  class SwapChain {
    const device: nat
    const handle: nat
    const createInfo: SwapchainCreateInfo
    const format: nat
    const extent: Extent2D
    const images: seq<nat>
    const views: array<nat>

    constructor Assemble(device: nat, handle: nat, createInfo: SwapchainCreateInfo, images: seq<nat>, views: array<nat>)
      ensures this.device == device && this.handle == handle && this.createInfo == createInfo
      ensures format == createInfo.imageFormat && extent == createInfo.imageExtent
      ensures this.images == images && this.views == views
    {
      this.device := device;
      this.handle := handle;
      this.createInfo := createInfo;
      format := createInfo.imageFormat;
      extent := createInfo.imageExtent;
      this.images := images;
      this.views := views;
    }
  }

  /** SwapChain(builder): a failing vkCreateSwapchainKHR throws "Failed to
      create swap chain"; view creation and its abort are those of the
      newer Swapchain. */
  method CreateSwapChain(builder: SwapChainBuilder, createResult: VkResult, handle: nat,
                         images: seq<nat>, created: seq<nat>, results: seq<VkResult>)
    returns (r: Result<SwapChain>, trace: seq<ViewEvent>)
    requires |created| == |images| && |results| == |images|
    ensures createResult != VK_SUCCESS ==> r == Err(RuntimeError(SWAP_CHAIN_FAILED)) && trace == []
    ensures createResult == VK_SUCCESS && LastFailure(results).Some? ==>
              r == Err(RuntimeError(VIEWS_FAILED))
              && trace == Countdown(images, LastFailure(results).value)
                          + Teardown(created, LastFailure(results).value + 1) + [DestroySwapchain]
    ensures r.Ok? <==> createResult == VK_SUCCESS && LastFailure(results).None?
    ensures r.Ok? ==> fresh(r.value) && fresh(r.value.views) && r.value.views[..] == created
    ensures r.Ok? ==> trace == Countdown(images, 0) && r.value.handle == handle && r.value.createInfo == builder.Info()
  {
    var info := builder.Info();
    if createResult != VK_SUCCESS {
      return Err(RuntimeError(SWAP_CHAIN_FAILED)), [];
    }
    var views, o;
    views, trace, o := CreateViews(images, created, results);
    if o.Fail? {
      return Err(o.error), trace;
    }
    var swapChain := new SwapChain.Assemble(builder.device, handle, info, images, views);
    r := Ok(swapChain);
  }
}
