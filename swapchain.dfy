/**
  Swapchain negotiation: the choices the renderer makes from what the surface reports
  (VulkanRenderer::ChooseBestSurfaceFormat, ChooseBestPresentationMode, ChooseSwapExtent,
  and the image count and sharing mode computed inside CreateSwapChain).
  The sentinels follow the "Surface Queries" section of the Vulkan specification's
  Window System Integration chapter: a current extent of width 0xFFFFFFFF means the
  swapchain decides the size, a maxImageCount of 0 means no limit, and FIFO is the one
  presentation mode every surface supports.
 */
module Swapchain {
  import opened Wrappers
  import opened VkTypes
  import opened Utilities

  // ----- Surface format -----

  /** 8-bit RGBA or BGRA in the sRGB non-linear colour space. */
  predicate IsPreferredFormat(f: SurfaceFormat) {
    (f.format == VK_FORMAT_R8G8B8A8_UNORM || f.format == VK_FORMAT_B8G8R8A8_UNORM)
    && f.colorSpace == VK_COLOR_SPACE_SRGB_NONLINEAR_KHR
  }

  /** What the renderer picks when the surface places no restriction. */
  const CanonicalFormat: SurfaceFormat :=
    SurfaceFormat(VK_FORMAT_R8G8B8A8_UNORM, VK_COLOR_SPACE_SRGB_NONLINEAR_KHR)

  /** A single UNDEFINED entry: the surface accepts every format. */
  predicate IsUnrestricted(formats: seq<SurfaceFormat>) {
    |formats| == 1 && formats[0].format == VK_FORMAT_UNDEFINED
  }

  /** The position of the first preferred format, scanning in reported order. */
  function FirstPreferredFormat(formats: seq<SurfaceFormat>): (r: Option<nat>)
    ensures r.Some? ==> r.value < |formats| && IsPreferredFormat(formats[r.value])
    ensures r.Some? ==> forall j :: 0 <= j < r.value ==> !IsPreferredFormat(formats[j])
    ensures r.None? ==> forall j :: 0 <= j < |formats| ==> !IsPreferredFormat(formats[j])
  {
    if |formats| == 0 then None
    else if IsPreferredFormat(formats[0]) then Some(0)
    else match FirstPreferredFormat(formats[1..])
      case None => None
      case Some(k) => Some(k + 1)
  }

  /** ChooseBestSurfaceFormat: the surface reports at least one format. */
  function ChooseBestSurfaceFormat(formats: seq<SurfaceFormat>): (r: SurfaceFormat)
    requires |formats| > 0
    ensures IsUnrestricted(formats) ==> r == CanonicalFormat
    ensures !IsUnrestricted(formats) && (exists i :: 0 <= i < |formats| && IsPreferredFormat(formats[i])) ==>
      exists i :: 0 <= i < |formats| && r == formats[i] && IsPreferredFormat(formats[i])
        && forall j :: 0 <= j < i ==> !IsPreferredFormat(formats[j])
    ensures !IsUnrestricted(formats) && (forall i :: 0 <= i < |formats| ==> !IsPreferredFormat(formats[i])) ==>
      r == formats[0]
    ensures r == CanonicalFormat || r in formats
  {
    if IsUnrestricted(formats) then CanonicalFormat
    else match FirstPreferredFormat(formats)
      case Some(i) => formats[i]
      case None => formats[0]
  }

  /** The single-UNDEFINED list gives the canonical pair; a preferred first entry is taken as
      is; a list with no preferred entry falls back to its first entry. */
  lemma SurfaceFormatExamples(other: SurfaceFormat)
    requires !IsPreferredFormat(other) && other.format != VK_FORMAT_UNDEFINED
    ensures ChooseBestSurfaceFormat([SurfaceFormat(VK_FORMAT_UNDEFINED, VK_COLOR_SPACE_SRGB_NONLINEAR_KHR)])
      == SurfaceFormat(VK_FORMAT_R8G8B8A8_UNORM, VK_COLOR_SPACE_SRGB_NONLINEAR_KHR)
    ensures ChooseBestSurfaceFormat([SurfaceFormat(VK_FORMAT_B8G8R8A8_UNORM, VK_COLOR_SPACE_SRGB_NONLINEAR_KHR), other])
      == SurfaceFormat(VK_FORMAT_B8G8R8A8_UNORM, VK_COLOR_SPACE_SRGB_NONLINEAR_KHR)
    ensures ChooseBestSurfaceFormat([other, SurfaceFormat(VK_FORMAT_R8G8B8A8_UNORM, VK_COLOR_SPACE_SRGB_NONLINEAR_KHR)])
      == SurfaceFormat(VK_FORMAT_R8G8B8A8_UNORM, VK_COLOR_SPACE_SRGB_NONLINEAR_KHR)
    ensures ChooseBestSurfaceFormat([other]) == other
  {
    var rgba := SurfaceFormat(VK_FORMAT_R8G8B8A8_UNORM, VK_COLOR_SPACE_SRGB_NONLINEAR_KHR);
    assert [other, rgba][1..] == [rgba];
    assert FirstPreferredFormat([other, rgba]) == Some(1);
  }

  // ----- Presentation mode -----

  /** ChooseBestPresentationMode: MAILBOX wherever it is listed, FIFO otherwise. */
  function ChooseBestPresentationMode(modes: seq<PresentMode>): (r: PresentMode)
    ensures r == VK_PRESENT_MODE_MAILBOX_KHR <==> VK_PRESENT_MODE_MAILBOX_KHR in modes
    ensures r != VK_PRESENT_MODE_MAILBOX_KHR ==> r == VK_PRESENT_MODE_FIFO_KHR
  {
    if |modes| == 0 then VK_PRESENT_MODE_FIFO_KHR
    else if modes[0] == VK_PRESENT_MODE_MAILBOX_KHR then modes[0]
    else ChooseBestPresentationMode(modes[1..])
  }

  // ----- Extent -----

  /** r is v brought into [lo, hi]; with lo > hi the lower bound wins. */
  ghost predicate ClampedInto(lo: int, hi: int, v: int, r: int) {
    && (lo <= hi ==> lo <= r <= hi)
    && (lo <= v <= hi ==> r == v)
    && (v < lo ==> r == lo)
    && (lo <= hi < v ==> r == hi)
    && (hi < lo ==> r == lo)
  }

  /** std::max(lo, std::min(hi, v)) */
  function Clamp(lo: uint32, hi: uint32, v: uint32): (r: uint32)
    ensures ClampedInto(lo, hi, v, r)
  {
    var m := if hi < v then hi else v;
    if lo < m then m else lo
  }

  /** ChooseSwapExtent; framebufferWidth/Height are what glfwGetFramebufferSize reports. */
  function ChooseSwapExtent(caps: SurfaceCapabilities, framebufferWidth: int, framebufferHeight: int): (r: Extent2D)
    ensures caps.currentExtent.width != UINT32_MAX ==> r == caps.currentExtent
    ensures caps.currentExtent.width == UINT32_MAX ==>
      && ClampedInto(caps.minImageExtent.width, caps.maxImageExtent.width, ToUint32(framebufferWidth), r.width)
      && ClampedInto(caps.minImageExtent.height, caps.maxImageExtent.height, ToUint32(framebufferHeight), r.height)
  {
    if caps.currentExtent.width != UINT32_MAX then caps.currentExtent
    else
      var width := ToUint32(framebufferWidth);
      var height := ToUint32(framebufferHeight);
      Extent2D(Clamp(caps.minImageExtent.width, caps.maxImageExtent.width, width),
               Clamp(caps.minImageExtent.height, caps.maxImageExtent.height, height))
  }

  lemma ExtentClampsEachAxis()
    ensures ChooseSwapExtent(
      SurfaceCapabilities(1, 3, Extent2D(UINT32_MAX, 0), Extent2D(100, 100), Extent2D(4096, 4096)),
      50, 3000) == Extent2D(100, 3000)
  {
  }

  // ----- Image count -----

  /** minImageCount + 1 in uint32 arithmetic, lowered to maxImageCount when that is a real limit. */
  function ChooseImageCount(caps: SurfaceCapabilities): (r: uint32)
    ensures caps.maxImageCount > 0 ==> r <= caps.maxImageCount
    ensures caps.minImageCount < UINT32_MAX && (caps.maxImageCount == 0 || caps.minImageCount < caps.maxImageCount) ==>
      r == caps.minImageCount + 1
    ensures caps.minImageCount < UINT32_MAX && 0 < caps.maxImageCount <= caps.minImageCount ==>
      r == caps.maxImageCount
    ensures caps.minImageCount < UINT32_MAX && (caps.maxImageCount == 0 || caps.minImageCount <= caps.maxImageCount) ==>
      caps.minImageCount <= r
    ensures caps.minImageCount == UINT32_MAX ==> r == 0
  {
    var imageCount := (caps.minImageCount + 1) % UINT32_LIMIT;
    if caps.maxImageCount > 0 && caps.maxImageCount < imageCount then caps.maxImageCount else imageCount
  }

  lemma ImageCountExamples(extent: Extent2D)
    ensures ChooseImageCount(SurfaceCapabilities(1, 3, extent, extent, extent)) == 2
    ensures ChooseImageCount(SurfaceCapabilities(2, 2, extent, extent, extent)) == 2
    ensures ChooseImageCount(SurfaceCapabilities(5, 0, extent, extent, extent)) == 6
  {
  }

  // ----- Sharing mode -----

  /** imageSharingMode with the queueFamilyIndexCount/pQueueFamilyIndices that go with it. */
  datatype ImageSharing = ImageSharing(mode: SharingMode, queueFamilyIndices: seq<uint32>)

  /** Images are shared between two different families, owned by one otherwise. */
  function ChooseImageSharing(indices: QueueFamilyIndices): (r: ImageSharing)
    ensures r.mode == Concurrent <==> indices.graphicsFamily != indices.presentationFamily
    ensures r.mode == Concurrent ==>
      r.queueFamilyIndices == [ToUint32(indices.graphicsFamily), ToUint32(indices.presentationFamily)]
    ensures r.mode == Exclusive ==> r.queueFamilyIndices == []
  {
    if indices.graphicsFamily != indices.presentationFamily then
      ImageSharing(Concurrent, [ToUint32(indices.graphicsFamily), ToUint32(indices.presentationFamily)])
    else
      ImageSharing(Exclusive, [])
  }

  // ----- The create info -----

  /** The negotiated fields of VkSwapchainCreateInfoKHR. */
  datatype SwapchainCreateInfo = SwapchainCreateInfo(
    surfaceFormat: SurfaceFormat,
    presentMode: PresentMode,
    imageExtent: Extent2D,
    minImageCount: uint32,
    sharing: ImageSharing)

  /**
    The create info CreateSwapChain fills in: a format the surface offers (or the canonical one
    when it accepts any), MAILBOX only when offered and FIFO otherwise, the surface's own extent
    unless it leaves the size to the swapchain, no more images than a real maximum, and images
    shared exactly when the two queue families differ.
   */
  function MakeSwapchainCreateInfo(details: SwapChainDetails, indices: QueueFamilyIndices,
                                   framebufferWidth: int, framebufferHeight: int): (r: SwapchainCreateInfo)
    requires |details.formats| > 0
    ensures r.surfaceFormat in details.formats || (IsUnrestricted(details.formats) && r.surfaceFormat == CanonicalFormat)
    ensures r.presentMode == VK_PRESENT_MODE_MAILBOX_KHR <==> VK_PRESENT_MODE_MAILBOX_KHR in details.presentationModes
    ensures r.presentMode != VK_PRESENT_MODE_MAILBOX_KHR ==> r.presentMode == VK_PRESENT_MODE_FIFO_KHR
    ensures details.surfaceCapabilities.currentExtent.width != UINT32_MAX ==>
      r.imageExtent == details.surfaceCapabilities.currentExtent
    ensures var caps := details.surfaceCapabilities;
      caps.currentExtent.width == UINT32_MAX
      && caps.minImageExtent.width <= caps.maxImageExtent.width
      && caps.minImageExtent.height <= caps.maxImageExtent.height ==>
        && caps.minImageExtent.width <= r.imageExtent.width <= caps.maxImageExtent.width
        && caps.minImageExtent.height <= r.imageExtent.height <= caps.maxImageExtent.height
    ensures details.surfaceCapabilities.maxImageCount > 0 ==> r.minImageCount <= details.surfaceCapabilities.maxImageCount
    ensures r.sharing.mode == Concurrent <==> indices.graphicsFamily != indices.presentationFamily
  {
    SwapchainCreateInfo(
      ChooseBestSurfaceFormat(details.formats),
      ChooseBestPresentationMode(details.presentationModes),
      ChooseSwapExtent(details.surfaceCapabilities, framebufferWidth, framebufferHeight),
      ChooseImageCount(details.surfaceCapabilities),
      ChooseImageSharing(indices))
  }
}
