/**
  The slice of the Vulkan API that the renderer's decisions depend on: the records the
  driver reports (surface capabilities, formats, queue families, memory types), the
  enumerant values the renderer compares against, and fixed-width integers.
  The numeric values are those of the Vulkan headers.
 */
module VkTypes {

  const UINT32_LIMIT: int := 0x1_0000_0000
  const UINT32_MAX: int := 0xFFFF_FFFF

  type uint32 = x: int | 0 <= x < UINT32_LIMIT

  /** `static_cast<uint32_t>` of a signed value: two's-complement wrap-around. */
  function ToUint32(x: int): (r: uint32)
    ensures 0 <= x < UINT32_LIMIT ==> r == x
    ensures x < 0 && -UINT32_LIMIT <= x ==> r == x + UINT32_LIMIT
  {
    x % UINT32_LIMIT
  }

  /** An opaque handle; 0 is VK_NULL_HANDLE. */
  type Handle = nat
  const NULL_HANDLE: Handle := 0

  // VkResult
  type VkResult = int
  const VK_SUCCESS: VkResult := 0
  const VK_ERROR_MEMORY_MAP_FAILED: VkResult := -5

  // VkFormat and VkColorSpaceKHR
  type Format = nat
  const VK_FORMAT_UNDEFINED: Format := 0
  const VK_FORMAT_R8G8B8A8_UNORM: Format := 37
  const VK_FORMAT_B8G8R8A8_UNORM: Format := 44

  type ColorSpace = nat
  const VK_COLOR_SPACE_SRGB_NONLINEAR_KHR: ColorSpace := 0

  datatype SurfaceFormat = SurfaceFormat(format: Format, colorSpace: ColorSpace)

  // VkPresentModeKHR
  type PresentMode = nat
  const VK_PRESENT_MODE_IMMEDIATE_KHR: PresentMode := 0
  const VK_PRESENT_MODE_MAILBOX_KHR: PresentMode := 1
  const VK_PRESENT_MODE_FIFO_KHR: PresentMode := 2

  datatype Extent2D = Extent2D(width: uint32, height: uint32)

  /** VkSurfaceCapabilitiesKHR, without the transform and usage fields nothing here decides on. */
  datatype SurfaceCapabilities = SurfaceCapabilities(
    minImageCount: uint32,
    maxImageCount: uint32,
    currentExtent: Extent2D,
    minImageExtent: Extent2D,
    maxImageExtent: Extent2D)

  // VkSharingMode
  datatype SharingMode = Exclusive | Concurrent

  // VkQueueFlagBits
  const VK_QUEUE_GRAPHICS_BIT: bv32 := 0x1

  /**
    One queue family as the device reports it (VkQueueFamilyProperties), together with the
    answer of vkGetPhysicalDeviceSurfaceSupportKHR for that family index and the surface.
   */
  datatype QueueFamily = QueueFamily(queueCount: uint32, queueFlags: bv32, presentationSupport: bool)

  // VkMemoryPropertyFlagBits
  const VK_MEMORY_PROPERTY_DEVICE_LOCAL_BIT: bv32 := 0x1
  const VK_MEMORY_PROPERTY_HOST_VISIBLE_BIT: bv32 := 0x2
  const VK_MEMORY_PROPERTY_HOST_COHERENT_BIT: bv32 := 0x4

  /** Size of the fixed memoryTypes array of VkPhysicalDeviceMemoryProperties. */
  const VK_MAX_MEMORY_TYPES: nat := 32

  // VkBufferUsageFlagBits
  const VK_BUFFER_USAGE_VERTEX_BUFFER_BIT: bv32 := 0x80

  /** VkMemoryRequirements of a buffer: its size and the bitmask of allowed memory types. */
  datatype MemoryRequirements = MemoryRequirements(size: nat, memoryTypeBits: bv32)
}
