/** Scalar types and constants of the Vulkan 1.3 API (as exposed by the `ash`
    bindings) that the bring-up core uses. Enumerants keep their numeric values
    from the Vulkan registry; flag types are bit-vectors of the width Vulkan
    gives them (VkFlags is 32 bits, VkFlags64 is 64 bits). */
module Vk {

  /** Rust's `u32` / Vulkan's `uint32_t`. */
  type uint32 = x: int | 0 <= x <= 0xFFFF_FFFF

  const UINT32_MAX: uint32 := 0xFFFF_FFFF

  /** Rust's `i32` / Vulkan's `int32_t`. */
  type int32 = x: int | -0x8000_0000 <= x <= 0x7FFF_FFFF

  /** A dispatchable or non-dispatchable handle; 0 is VK_NULL_HANDLE. */
  type Handle = nat

  const NULL_HANDLE: Handle := 0

  /** A VkResult code: 0 is VK_SUCCESS, positive values are non-error status
      codes, negative values are errors. */
  type VkResult = int

  const VK_SUCCESS: VkResult := 0
  const VK_TIMEOUT: VkResult := 2

  // VkQueueFlagBits
  type QueueFlags = bv32
  const QUEUE_GRAPHICS: QueueFlags := 0x1

  // VkFormat, VkColorSpaceKHR, VkPresentModeKHR, VkSharingMode
  type Format = int
  const FORMAT_B8G8R8A8_UNORM: Format := 44
  type ColorSpace = int
  const COLOR_SPACE_SRGB_NONLINEAR: ColorSpace := 0
  type PresentMode = int
  const PRESENT_MODE_FIFO: PresentMode := 2
  type SharingMode = int
  const SHARING_MODE_CONCURRENT: SharingMode := 1

  // VkImageUsageFlagBits, VkCompositeAlphaFlagBitsKHR, VkSurfaceTransformFlagBitsKHR
  type ImageUsageFlags = bv32
  const IMAGE_USAGE_TRANSFER_DST: ImageUsageFlags := 0x2
  const IMAGE_USAGE_COLOR_ATTACHMENT: ImageUsageFlags := 0x10
  type CompositeAlphaFlags = bv32
  const COMPOSITE_ALPHA_OPAQUE: CompositeAlphaFlags := 0x1
  type SurfaceTransformFlags = bv32
  type SwapchainCreateFlags = bv32

  // VkFenceCreateFlagBits
  type FenceCreateFlags = bv32
  const FENCE_CREATE_SIGNALED: FenceCreateFlags := 0x1

  // VkImageLayout, VkImageAspectFlagBits, VK_REMAINING_*
  type ImageLayout = int
  const IMAGE_LAYOUT_DEPTH_ATTACHMENT_OPTIMAL: ImageLayout := 1000241000
  type ImageAspectFlags = bv32
  const IMAGE_ASPECT_COLOR: ImageAspectFlags := 0x1
  const IMAGE_ASPECT_DEPTH: ImageAspectFlags := 0x2
  const REMAINING_MIP_LEVELS: uint32 := 0xFFFF_FFFF
  const REMAINING_ARRAY_LAYERS: uint32 := 0xFFFF_FFFF

  // VkPipelineStageFlagBits2, VkAccessFlagBits2 (64-bit flags)
  type PipelineStageFlags2 = bv64
  const PIPELINE_STAGE_2_ALL_COMMANDS: PipelineStageFlags2 := 0x0001_0000
  type AccessFlags2 = bv64
  const ACCESS_2_MEMORY_READ: AccessFlags2 := 0x0000_8000
  const ACCESS_2_MEMORY_WRITE: AccessFlags2 := 0x0001_0000

  // VkDebugUtilsMessageSeverityFlagBitsEXT, VkDebugUtilsMessageTypeFlagBitsEXT
  type DebugSeverityFlags = bv32
  const SEVERITY_VERBOSE: DebugSeverityFlags := 0x0001
  const SEVERITY_INFO: DebugSeverityFlags := 0x0010
  const SEVERITY_WARNING: DebugSeverityFlags := 0x0100
  const SEVERITY_ERROR: DebugSeverityFlags := 0x1000
  type DebugMessageTypeFlags = bv32
  const MESSAGE_TYPE_GENERAL: DebugMessageTypeFlags := 0x1
  const MESSAGE_TYPE_VALIDATION: DebugMessageTypeFlags := 0x2
  const MESSAGE_TYPE_PERFORMANCE: DebugMessageTypeFlags := 0x4
  const MESSAGE_TYPE_DEVICE_ADDRESS_BINDING: DebugMessageTypeFlags := 0x8

  /** `flags.contains(bits)` of the bindings: every bit of `bits` is set. */
  predicate Contains(flags: bv32, bits: bv32) {
    flags & bits == bits
  }
}
