/**
 * The Vulkan enumerants and flag bits the engine's decision code uses, with
 * the values of the Vulkan headers.  Enumerations are integers and flag
 * masks are 32-bit vectors.
 */
module VulkanTypes {
  type Flags = bv32

  /** Every bit of required is set in flags. */
  predicate HasAll(flags: Flags, required: Flags)
  {
    flags & required == required
  }

  const UInt32Max: int := 0xFFFF_FFFF

  // VkFormat
  const FormatUndefined: int := 0
  const FormatR8Srgb: int := 15
  const FormatR8G8Srgb: int := 22
  const FormatR8G8B8Srgb: int := 29
  const FormatR8G8B8A8Srgb: int := 43
  const FormatB8G8R8A8Srgb: int := 50
  const FormatR32G32Sfloat: int := 103
  const FormatR32G32B32Sfloat: int := 106
  const FormatR32G32B32A32Sfloat: int := 109
  const FormatD32Sfloat: int := 126
  const FormatD24UnormS8Uint: int := 129
  const FormatD32SfloatS8Uint: int := 130

  // VkColorSpaceKHR
  const ColorSpaceSrgbNonlinear: int := 0

  // VkPresentModeKHR
  const PresentModeImmediate: int := 0
  const PresentModeMailbox: int := 1
  const PresentModeFifo: int := 2

  // VkImageTiling
  const TilingOptimal: int := 0
  const TilingLinear: int := 1

  // VkFormatFeatureFlagBits
  const FormatFeatureDepthStencilAttachment: Flags := 0x200

  // VkImageAspectFlagBits
  const AspectColor: Flags := 0x1
  const AspectDepth: Flags := 0x2

  // VkImageLayout
  const LayoutUndefined: int := 0
  const LayoutShaderReadOnlyOptimal: int := 5
  const LayoutTransferDstOptimal: int := 7

  // VkAccessFlagBits
  const AccessNone: Flags := 0
  const AccessShaderRead: Flags := 0x20
  const AccessTransferWrite: Flags := 0x1000

  // VkPipelineStageFlagBits
  const StageTopOfPipe: Flags := 0x1
  const StageFragmentShader: Flags := 0x80
  const StageTransfer: Flags := 0x1000

  // VkQueueFlagBits
  const QueueGraphics: Flags := 0x1
  const QueueCompute: Flags := 0x2
  const QueueTransfer: Flags := 0x4
  const QueueSparseBinding: Flags := 0x8
  const QueueProtected: Flags := 0x10

  // VkSharingMode
  const SharingExclusive: int := 0
  const SharingConcurrent: int := 1

  // VkFilter
  const FilterNearest: int := 0
  const FilterLinear: int := 1

  // VkSamplerAddressMode
  const AddressRepeat: int := 0
  const AddressMirroredRepeat: int := 1
  const AddressClampToEdge: int := 2
  const AddressClampToBorder: int := 3

  // VkBufferUsageFlagBits
  const VkBufferTransferSrc: Flags := 0x1
  const VkBufferTransferDst: Flags := 0x2
  const VkBufferUniform: Flags := 0x10
  const VkBufferStorage: Flags := 0x20
  const VkBufferIndex: Flags := 0x40
  const VkBufferVertex: Flags := 0x80
  const VkBufferIndirect: Flags := 0x100

  // VmaAllocationCreateFlagBits
  const VmaDedicatedMemory: Flags := 0x1
  const VmaMapped: Flags := 0x4
  const VmaHostAccessSequentialWrite: Flags := 0x400
  const VmaHostAccessRandom: Flags := 0x800

  /** A 2D size in pixels (VkExtent2D). */
  datatype Extent = Extent(width: nat, height: nat)

  /** The surface capabilities the swapchain rules read. */
  datatype SurfaceCapabilities = SurfaceCapabilities(
    minImageCount: nat, maxImageCount: nat,
    currentExtent: Extent, minImageExtent: Extent, maxImageExtent: Extent)

  /** A surface format (VkSurfaceFormatKHR). */
  datatype SurfaceFormat = SurfaceFormat(format: int, colorSpace: int)

  /** What a physical device reports about a surface. */
  datatype SwapchainSupport = SwapchainSupport(capabilities: SurfaceCapabilities, formats: seq<SurfaceFormat>, presentModes: seq<int>)

  /** The tiling-dependent feature masks of one format. */
  datatype FormatProperties = FormatProperties(linearTilingFeatures: Flags, optimalTilingFeatures: Flags)

  /** One queue family as the device reports it, with whether it can present to the surface. */
  datatype QueueFamilyInfo = QueueFamilyInfo(queueFlags: Flags, queueCount: nat, presentSupport: bool)
}
