/** The swapchain builder's selection rules and the swapchain constructor:
    image-count and extent clamps, first-match format and present-mode
    selection, sharing mode, and the count-down image-view creation with
    its abort path. */
module Swapchains {

  import opened Vk

  datatype SurfaceFormat = SurfaceFormat(format: nat, colorSpace: nat)

  /** The fields of VkSurfaceCapabilitiesKHR the rules read. */
  datatype Capabilities = Capabilities(
    minImageCount: U32,
    maxImageCount: U32,
    currentExtent: Extent2D,
    minImageExtent: Extent2D,
    maxImageExtent: Extent2D,
    currentTransform: nat)

  /** SwapchainDetails, as swap_chain::query returns them. */
  datatype Details = Details(capabilities: Capabilities, formats: seq<SurfaceFormat>, presentModes: seq<nat>)

  const VK_IMAGE_USAGE_COLOR_ATTACHMENT_BIT: bv32 := 0x10

  /** Lowers a requested image count to maxImageCount when that limit
      exists (is nonzero) and is exceeded; never raises it. */
  function ClampImageCount(count: U32, maxImageCount: U32): (r: U32)
    ensures r <= count
    ensures maxImageCount > 0 ==> r <= maxImageCount
    ensures maxImageCount == 0 || count <= maxImageCount ==> r == count
  {
    if maxImageCount > 0 && count > maxImageCount then maxImageCount else count
  }

  /** Clamping twice is clamping once. */
  lemma ClampImageCountIdempotent(count: U32, maxImageCount: U32)
    ensures ClampImageCount(ClampImageCount(count, maxImageCount), maxImageCount) == ClampImageCount(count, maxImageCount)
  {
  }

  /** The builder's initial image count: minImageCount + 1 in uint32_t
      arithmetic, then clamped. */
  function InitialImageCount(caps: Capabilities): (r: U32)
    ensures caps.maxImageCount > 0 ==> r <= caps.maxImageCount
    ensures caps.minImageCount < U32_MAX && (caps.maxImageCount == 0 || caps.minImageCount < caps.maxImageCount)
            ==> r == caps.minImageCount + 1
    ensures caps.minImageCount == U32_MAX ==> r == 0
  {
    ClampImageCount(ToU32(caps.minImageCount + 1), caps.maxImageCount)
  }

  /** std::clamp<uint32_t>(v, lo, hi). */
  function StdClamp(v: U32, lo: U32, hi: U32): (r: U32)
    ensures lo <= hi ==> lo <= r <= hi
    ensures lo <= v <= hi ==> r == v
    ensures r == v || r == lo || r == hi
  {
    if v < lo then lo else if hi < v then hi else v
  }

  /** The extent `extent(width, height)` selects: the surface's current
      extent unless its width is UINT32_MAX; otherwise each requested
      dimension, converted to uint32_t, clamped into the surface's range. */
  function ChooseExtent(caps: Capabilities, width: int, height: int): (e: Extent2D)
    ensures caps.currentExtent.width != U32_MAX ==> e == caps.currentExtent
    ensures caps.currentExtent.width == U32_MAX && caps.minImageExtent.width <= caps.maxImageExtent.width
            ==> caps.minImageExtent.width <= e.width <= caps.maxImageExtent.width
    ensures caps.currentExtent.width == U32_MAX && caps.minImageExtent.height <= caps.maxImageExtent.height
            ==> caps.minImageExtent.height <= e.height <= caps.maxImageExtent.height
    ensures caps.currentExtent.width == U32_MAX && caps.minImageExtent.width <= width <= caps.maxImageExtent.width
            ==> e.width == width
    ensures caps.currentExtent.width == U32_MAX && caps.minImageExtent.height <= height <= caps.maxImageExtent.height
            ==> e.height == height
  {
    if caps.currentExtent.width != U32_MAX then caps.currentExtent
    else Extent2D(StdClamp(ToU32(width), caps.minImageExtent.width, caps.maxImageExtent.width),
                  StdClamp(ToU32(height), caps.minImageExtent.height, caps.maxImageExtent.height))
  }

  /** The `int` parameters are converted to uint32_t before clamping, so a
      negative width wraps to a huge value and selects the MAXIMUM width. */
  lemma NegativeWidthSelectsMaximum(caps: Capabilities, width: int, height: int)
    requires caps.currentExtent.width == U32_MAX
    requires -0x8000_0000 <= width < 0
    requires caps.minImageExtent.width <= caps.maxImageExtent.width < 0x8000_0000
    ensures ChooseExtent(caps, width, height).width == caps.maxImageExtent.width
  {
    assert ToU32(width) == width + U32_LIMIT;
  }

  /** The first-match search of selectSurfaceFormat: an entry matching both
      the format and the colour space, if there is one. */
  method FindSurfaceFormat(formats: seq<SurfaceFormat>, format: nat, colorSpace: nat) returns (found: Option<SurfaceFormat>)
    ensures found.Some? <==> SurfaceFormat(format, colorSpace) in formats
    ensures found.Some? ==> found.value == SurfaceFormat(format, colorSpace)
  {
    for i := 0 to |formats|
      invariant SurfaceFormat(format, colorSpace) !in formats[..i]
    {
      assert formats[..i + 1] == formats[..i] + [formats[i]];
      if formats[i].format == format && formats[i].colorSpace == colorSpace {
        return Some(formats[i]);
      }
    }
    assert formats[..|formats|] == formats;
    return None;
  }

  /** VkSwapchainCreateInfoKHR, as the constructor fills it in. */
  datatype SwapchainCreateInfo = SwapchainCreateInfo(
    surface: nat,
    minImageCount: U32,
    imageFormat: nat,
    imageColorSpace: nat,
    imageExtent: Extent2D,
    imageArrayLayers: nat,
    imageUsage: bv32,
    sharing: Sharing,
    preTransform: nat,
    presentMode: nat,
    clipped: bool)

  /** The create info for a builder's selections: one array layer,
      clipped, the surface's current transform, and exclusive sharing
      unless some queue family was shared. */
  function SwapchainInfo(surface: nat, details: Details, surfaceFormat: SurfaceFormat, presentMode: nat,
                         extent: Extent2D, imageCount: U32, usage: bv32, queueFamilies: seq<U32>): (ci: SwapchainCreateInfo)
    ensures ci.sharing.mode == Exclusive <==> queueFamilies == []
    ensures ci.sharing.mode == Concurrent ==> ci.sharing.queueFamilyIndexCount == |queueFamilies| && ci.sharing.queueFamilyIndices == queueFamilies
    ensures ci.minImageCount == imageCount && ci.imageExtent == extent && ci.imageUsage == usage
    ensures ci.imageFormat == surfaceFormat.format && ci.imageColorSpace == surfaceFormat.colorSpace
    ensures ci.imageArrayLayers == 1 && ci.clipped && ci.presentMode == presentMode
    ensures ci.preTransform == details.capabilities.currentTransform
  {
    SwapchainCreateInfo(surface, imageCount, surfaceFormat.format, surfaceFormat.colorSpace, extent, 1, usage,
                        SharingFor(queueFamilies), details.capabilities.currentTransform, presentMode, true)
  }

  /** SwapchainBuilder. */
  class SwapchainBuilder {
    const device: nat
    const surface: nat
    const details: Details
    var surfaceFormat: SurfaceFormat
    var presentMode: nat
    var extent: Extent2D
    var imageCount: U32
    var usage: bv32
    var queueFamilies: seq<U32>

    /** SwapchainBuilder(device, surface): the first format and present
        mode, minImageCount + 1 images clamped to a nonzero maximum, colour
        attachment usage. The code reads formats[0] and presentModes[0]
        unchecked. */
    constructor (device: nat, surface: nat, details: Details)
      requires |details.formats| > 0 && |details.presentModes| > 0
      ensures this.device == device && this.surface == surface && this.details == details
      ensures surfaceFormat == details.formats[0] && presentMode == details.presentModes[0]
      ensures imageCount == InitialImageCount(details.capabilities)
      ensures usage == VK_IMAGE_USAGE_COLOR_ATTACHMENT_BIT
      ensures extent == Extent2D(0, 0) && queueFamilies == []
    {
      this.device := device;
      this.surface := surface;
      this.details := details;
      surfaceFormat := details.formats[0];
      presentMode := details.presentModes[0];
      var count := ToU32(details.capabilities.minImageCount + 1);
      if details.capabilities.maxImageCount > 0 && count > details.capabilities.maxImageCount {
        count := details.capabilities.maxImageCount;
      }
      imageCount := count;
      usage := VK_IMAGE_USAGE_COLOR_ATTACHMENT_BIT;
      extent := Extent2D(0, 0);
      queueFamilies := [];
    }

    /** selectSurfaceFormat(format, colorSpace) */
    method SelectSurfaceFormat(format: nat, colorSpace: nat)
      modifies this
      ensures SurfaceFormat(format, colorSpace) in details.formats ==> surfaceFormat == SurfaceFormat(format, colorSpace)
      ensures SurfaceFormat(format, colorSpace) !in details.formats ==> surfaceFormat == old(surfaceFormat)
      ensures presentMode == old(presentMode) && extent == old(extent) && imageCount == old(imageCount)
      ensures usage == old(usage) && queueFamilies == old(queueFamilies)
    {
      var found := FindSurfaceFormat(details.formats, format, colorSpace);
      if found.Some? {
        surfaceFormat := found.value;
      }
    }

    /** selectPresentMode(mode): only a supported mode is taken. */
    method SelectPresentMode(mode: nat)
      modifies this
      ensures mode in details.presentModes ==> presentMode == mode
      ensures mode !in details.presentModes ==> presentMode == old(presentMode)
      ensures surfaceFormat == old(surfaceFormat) && extent == old(extent) && imageCount == old(imageCount)
      ensures usage == old(usage) && queueFamilies == old(queueFamilies)
    {
      if mode in details.presentModes {
        presentMode := mode;
      }
    }

    /** extent(width, height) */
    method Extent(width: int, height: int)
      modifies this
      ensures extent == ChooseExtent(details.capabilities, width, height)
      ensures surfaceFormat == old(surfaceFormat) && presentMode == old(presentMode) && imageCount == old(imageCount)
      ensures usage == old(usage) && queueFamilies == old(queueFamilies)
    {
      extent := ChooseExtent(details.capabilities, width, height);
    }

    /** imageCount(count) */
    method ImageCount(count: U32)
      modifies this
      ensures imageCount == ClampImageCount(count, details.capabilities.maxImageCount)
      ensures surfaceFormat == old(surfaceFormat) && presentMode == old(presentMode) && extent == old(extent)
      ensures usage == old(usage) && queueFamilies == old(queueFamilies)
    {
      imageCount := ClampImageCount(count, details.capabilities.maxImageCount);
    }

    /** usage(flags) */
    method Usage(flags: bv32)
      modifies this
      ensures usage == flags
      ensures surfaceFormat == old(surfaceFormat) && presentMode == old(presentMode) && extent == old(extent)
      ensures imageCount == old(imageCount) && queueFamilies == old(queueFamilies)
    {
      usage := flags;
    }

    /** share(families): replaces the family list. */
    method Share(families: seq<U32>)
      modifies this
      ensures queueFamilies == families
      ensures surfaceFormat == old(surfaceFormat) && presentMode == old(presentMode) && extent == old(extent)
      ensures imageCount == old(imageCount) && usage == old(usage)
    {
      queueFamilies := families;
    }
  }

  /** The view-creation steps, in the order the constructor performs them. */
  datatype ViewEvent =
    | CreateView(index: nat, image: nat)
    | DestroyView(index: nat, view: nat)
    | DestroySwapchain

  /** Creation attempts from index n-1 down to k. */
  function Countdown(images: seq<nat>, k: nat): (s: seq<ViewEvent>)
    requires k <= |images|
    ensures |s| == |images| - k
    ensures forall j :: 0 <= j < |s| ==> s[j] == CreateView(|images| - 1 - j, images[|images| - 1 - j])
    decreases |images| - k
  {
    if k == |images| then []
    else Countdown(images, k + 1) + [CreateView(k, images[k])]
  }

  /** Destruction of the views at indices from..n-1, upward. */
  function Teardown(views: seq<nat>, from: nat): (s: seq<ViewEvent>)
    requires from <= |views|
    ensures |s| == |views| - from
    ensures forall j :: 0 <= j < |s| ==> s[j] == DestroyView(from + j, views[from + j])
    decreases |views| - from
  {
    if from == |views| then []
    else [DestroyView(from, views[from])] + Teardown(views, from + 1)
  }

  /** The highest index whose creation fails: the first failure the
      count-down loop meets. */
  function LastFailure(results: seq<VkResult>): (k: Option<nat>)
    ensures k.None? <==> forall i :: 0 <= i < |results| ==> results[i] == VK_SUCCESS
    ensures k.Some? ==> k.value < |results| && results[k.value] != VK_SUCCESS
    ensures k.Some? ==> forall i :: k.value < i < |results| ==> results[i] == VK_SUCCESS
  {
    if results == [] then None
    else if results[|results| - 1] != VK_SUCCESS then Some(|results| - 1)
    else LastFailure(results[..|results| - 1])
  }

  /** The loop `while (count--)`: views are created from the last image
      down, and the loop stops at the first failure it meets, which is the
      highest failing index. */
  method CreateDescending(images: seq<nat>, created: seq<nat>, results: seq<VkResult>)
    returns (views: array<nat>, trace: seq<ViewEvent>, failedAt: Option<nat>)
    requires |created| == |images| && |results| == |images|
    ensures fresh(views) && views.Length == |images|
    ensures failedAt == LastFailure(results)
    ensures failedAt.None? ==> views[..] == created && trace == Countdown(images, 0)
    ensures failedAt.Some? ==> trace == Countdown(images, failedAt.value)
    ensures failedAt.Some? ==> forall i :: failedAt.value < i < |images| ==> views[i] == created[i]
  {
    var n := |images|;
    views := new nat[n](_ => 0);
    trace := [];
    var count := n;
    while count > 0
      invariant 0 <= count <= n
      invariant trace == Countdown(images, count)
      invariant forall i :: count <= i < n ==> results[i] == VK_SUCCESS && views[i] == created[i]
    {
      count := count - 1;
      trace := trace + [CreateView(count, images[count])];
      if results[count] != VK_SUCCESS {
        LastFailureIs(results, count);
        return views, trace, Some(count);
      }
      views[count] := created[count];
    }
    assert views[..] == created;
    return views, trace, None;
  }

  /** The abort path's loop `while (++count < views_.size())`: destroys
      the views above the failing index, in increasing order. */
  method DestroyAbove(views: array<nat>, failed: nat) returns (trace: seq<ViewEvent>)
    requires failed < views.Length
    ensures trace == Teardown(views[..], failed + 1)
  {
    trace := [];
    var j := failed + 1;
    while j < views.Length
      invariant failed + 1 <= j <= views.Length
      invariant trace == Teardown(views[..], failed + 1)[..j - failed - 1]
    {
      trace := trace + [DestroyView(j, views[j])];
      j := j + 1;
    }
  }

  const VIEWS_FAILED: string := "Failed to create swap chain image views"

  /** The image views and the abort path: views are created from the last
      image down; on a failure at index k the views k+1..n-1, which are
      exactly the ones created so far, are destroyed, then the swapchain,
      and runtime_error is thrown. `created[i]` is the handle the driver
      returns for image i, `results[i]` its result. */
  method CreateViews(images: seq<nat>, created: seq<nat>, results: seq<VkResult>)
    returns (views: array<nat>, trace: seq<ViewEvent>, o: Outcome)
    requires |created| == |images| && |results| == |images|
    ensures fresh(views) && views.Length == |images|
    ensures o.Pass? <==> LastFailure(results).None?
    ensures o.Pass? ==> views[..] == created && trace == Countdown(images, 0)
    ensures o.Fail? ==> o.error == RuntimeError(VIEWS_FAILED)
    ensures o.Fail? ==> var k := LastFailure(results).value;
              trace == Countdown(images, k) + Teardown(created, k + 1) + [DestroySwapchain]
  {
    var failedAt;
    views, trace, failedAt := CreateDescending(images, created, results);
    if failedAt.None? {
      return views, trace, Pass;
    }
    var teardown := DestroyAbove(views, failedAt.value);
    assert teardown == Teardown(created, failedAt.value + 1);
    trace := trace + teardown + [DestroySwapchain];
    o := Fail(RuntimeError(VIEWS_FAILED));
  }

  /** A failing index with only successes above it is the last failure. */
  lemma {:induction false} LastFailureIs(results: seq<VkResult>, k: nat)
    requires k < |results| && results[k] != VK_SUCCESS
    requires forall i :: k < i < |results| ==> results[i] == VK_SUCCESS
    ensures LastFailure(results) == Some(k)
    decreases |results|
  {
    if k < |results| - 1 {
      LastFailureIs(results[..|results| - 1], k);
    }
  }

  /** Swapchain. */
  class Swapchain {
    const device: nat
    const handle: nat
    const createInfo: SwapchainCreateInfo
    const format: nat
    const extent: Extent2D
    const images: seq<nat>
    const views: array<nat>

    constructor Assemble(device: nat, handle: nat, createInfo: SwapchainCreateInfo, images: seq<nat>, views: array<nat>)
      ensures this.device == device && this.handle == handle && this.createInfo == createInfo
      ensures format == createInfo.imageFormat && extent == createInfo.imageExtent
      ensures this.images == images && this.views == views
    {
      this.device := device;
      this.handle := handle;
      this.createInfo := createInfo;
      format := createInfo.imageFormat;
      extent := createInfo.imageExtent;
      this.images := images;
      this.views := views;
    }
  }

  /** Swapchain(builder): a failing vkCreateSwapchainKHR throws before any
      image is queried; otherwise the views are created as CreateViews
      describes. */
  method CreateSwapchain(builder: SwapchainBuilder, createResult: VkResult, handle: nat,
                         images: seq<nat>, created: seq<nat>, results: seq<VkResult>)
    returns (r: Result<Swapchain>, trace: seq<ViewEvent>)
    requires |created| == |images| && |results| == |images|
    ensures createResult != VK_SUCCESS ==> r == Err(UnsuccessfulResult("vkCreateSwapchainKHR", createResult)) && trace == []
    ensures createResult == VK_SUCCESS && LastFailure(results).Some? ==>
              r == Err(RuntimeError(VIEWS_FAILED))
              && trace == Countdown(images, LastFailure(results).value)
                          + Teardown(created, LastFailure(results).value + 1) + [DestroySwapchain]
    ensures r.Ok? <==> createResult == VK_SUCCESS && LastFailure(results).None?
    ensures r.Ok? ==> fresh(r.value) && fresh(r.value.views) && r.value.views[..] == created
    ensures r.Ok? ==> trace == Countdown(images, 0) && r.value.handle == handle && r.value.images == images
    ensures r.Ok? ==> r.value.createInfo == SwapchainInfo(builder.surface, builder.details, builder.surfaceFormat, builder.presentMode,
                                                          builder.extent, builder.imageCount, builder.usage, builder.queueFamilies)
  {
    var info := SwapchainInfo(builder.surface, builder.details, builder.surfaceFormat, builder.presentMode,
                              builder.extent, builder.imageCount, builder.usage, builder.queueFamilies);
    if createResult != VK_SUCCESS {
      return Err(UnsuccessfulResult("vkCreateSwapchainKHR", createResult)), [];
    }
    var views, o;
    views, trace, o := CreateViews(images, created, results);
    if o.Fail? {
      return Err(o.error), trace;
    }
    var swapchain := new Swapchain.Assemble(builder.device, handle, info, images, views);
    r := Ok(swapchain);
  }
}
