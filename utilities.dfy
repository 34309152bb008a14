/** The shared declarations of the renderer: frame-ring size, required device extensions,
    queue-family indices, swapchain details and the vertex layout. */
module Utilities {
  import opened VkTypes

  /** Number of frames that may be in flight at once (the size of the frame ring). */
  const MAX_FRAME_DRAWS: nat := 2

  /** VK_KHR_SWAPCHAIN_EXTENSION_NAME */
  const SWAPCHAIN_EXTENSION_NAME: string := "VK_KHR_swapchain"

  /** Device extensions every chosen device must offer. */
  const DeviceExtensions: seq<string> := [SWAPCHAIN_EXTENSION_NAME]

  /** Where the graphics and presentation queue families are; -1 means not found. */
  datatype QueueFamilyIndices = QueueFamilyIndices(graphicsFamily: int, presentationFamily: int)
  {
    /** Both roles have been found: neither index holds the -1 "not found" marker. */
    predicate IsValid(): (r: bool)
      ensures r ==> graphicsFamily != -1 && presentationFamily != -1
      ensures graphicsFamily == -1 || presentationFamily == -1 ==> !r
    {
      graphicsFamily >= 0 && presentationFamily >= 0
    }
  }

  /** The value of a freshly constructed QueueFamilyIndices. */
  const NoQueueFamilies: QueueFamilyIndices := QueueFamilyIndices(-1, -1)

  lemma NoQueueFamiliesIsInvalid()
    ensures NoQueueFamilies.graphicsFamily == -1 && NoQueueFamilies.presentationFamily == -1
    ensures !NoQueueFamilies.IsValid()
  {
  }

  /** What a surface reports for a device: capabilities, formats and presentation modes. */
  datatype SwapChainDetails = SwapChainDetails(
    surfaceCapabilities: SurfaceCapabilities,
    formats: seq<SurfaceFormat>,
    presentationModes: seq<PresentMode>)

  /** A swapchain image and the view the renderer created for it. */
  datatype SwapChainImage = SwapChainImage(image: Handle, imageView: Handle)

  /** A vertex: position and colour, each three 32-bit floats kept as raw bit patterns. */
  datatype Vec3 = Vec3(x: bv32, y: bv32, z: bv32)
  datatype Vertex = Vertex(pos: Vec3, col: Vec3)

  /** sizeof(Vertex): two glm::vec3 of three 4-byte floats, no padding. */
  const VERTEX_SIZE: nat := 24
}
