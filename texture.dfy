/**
 * The engine-to-Vulkan translations of the Vulkan texture: pixel format,
 * sampler filter and sampler address mode, and the sampler fields built
 * from them.  An enum class can hold a value that is none of its
 * enumerators; such values are the `Unlisted` cases, and they take the
 * fallback branch after the switch (the assertion there is compiled out).
 */
module VulkanTexture {
  import opened VulkanTypes

  datatype TextureFormat = NoFormat | R8 | RG8 | RGB8 | RGBA8 | RGBA32F | UnlistedFormat(value: int)
  datatype SamplerFilter = Linear | Nearest | UnlistedFilter(value: int)
  datatype SamplerAddressMode = ClampToBorder | ClampToEdges | Repeat | MirroredRepeat | UnlistedAddressMode(value: int)

  /** The number of 8-bit sRGB channels of the four byte formats. */
  function ByteChannels(format: TextureFormat): nat
  {
    match format
    case R8 => 1
    case RG8 => 2
    case RGB8 => 3
    case RGBA8 => 4
    case _ => 0
  }

  /** The number of channels of the 8-bit sRGB Vulkan formats. */
  function VulkanChannels(format: int): nat
  {
    if format == FormatR8Srgb then 1
    else if format == FormatR8G8Srgb then 2
    else if format == FormatR8G8B8Srgb then 3
    else if format == FormatR8G8B8A8Srgb then 4
    else 0
  }

  /**
   * GetVulkanFormat: each byte format maps to the 8-bit sRGB Vulkan format
   * with the same channels; RGBA32F and every other value map to R8_SRGB.
   */
  function GetVulkanFormat(format: TextureFormat): (r: int)
    ensures ByteChannels(format) > 0 ==> VulkanChannels(r) == ByteChannels(format)
    ensures ByteChannels(format) == 0 ==> r == FormatR8Srgb
  {
    match format
    case R8 => FormatR8Srgb
    case RG8 => FormatR8G8Srgb
    case RGB8 => FormatR8G8B8Srgb
    case RGBA8 => FormatR8G8B8A8Srgb
    case RGBA32F => FormatR8Srgb
    case _ => FormatR8Srgb
  }

  /**
   * Two byte formats never share a Vulkan format, but RGBA32F shares R8's:
   * the mapping cannot tell a four-channel float texture from a one-channel
   * byte texture.
   */
  lemma {:induction false} GetVulkanFormatCollisions(a: TextureFormat, b: TextureFormat)
    ensures ByteChannels(a) > 0 && ByteChannels(b) > 0 && GetVulkanFormat(a) == GetVulkanFormat(b) ==> a == b
    ensures GetVulkanFormat(RGBA32F) == GetVulkanFormat(R8)
  {
    if ByteChannels(a) > 0 && ByteChannels(b) > 0 && GetVulkanFormat(a) == GetVulkanFormat(b) {
      assert VulkanChannels(GetVulkanFormat(a)) == ByteChannels(a);
      assert VulkanChannels(GetVulkanFormat(b)) == ByteChannels(b);
    }
  }

  /** GetVulkanFilter: Linear and Nearest map to their Vulkan filters; any other value to LINEAR. */
  function GetVulkanFilter(filter: SamplerFilter): (r: int)
    ensures r == FilterNearest <==> filter.Nearest?
    ensures r == FilterLinear <==> !filter.Nearest?
  {
    match filter
    case Linear => FilterLinear
    case Nearest => FilterNearest
    case UnlistedFilter(_) => FilterLinear
  }

  /** GetVulkanSamplerAddressMode: the four listed modes one to one; any other value to MIRRORED_REPEAT. */
  function GetVulkanSamplerAddressMode(mode: SamplerAddressMode): (r: int)
    ensures AddressRepeat <= r <= AddressClampToBorder
    ensures mode.ClampToBorder? ==> r == AddressClampToBorder
    ensures mode.ClampToEdges? ==> r == AddressClampToEdge
    ensures mode.Repeat? ==> r == AddressRepeat
    ensures mode.MirroredRepeat? ==> r == AddressMirroredRepeat
    ensures mode.UnlistedAddressMode? ==> r == AddressMirroredRepeat
  {
    match mode
    case ClampToBorder => AddressClampToBorder
    case ClampToEdges => AddressClampToEdge
    case Repeat => AddressRepeat
    case MirroredRepeat => AddressMirroredRepeat
    case UnlistedAddressMode(_) => AddressMirroredRepeat
  }

  /** Distinct listed address modes give distinct Vulkan modes. */
  lemma AddressModesOneToOne(a: SamplerAddressMode, b: SamplerAddressMode)
    requires !a.UnlistedAddressMode? && !b.UnlistedAddressMode?
    ensures GetVulkanSamplerAddressMode(a) == GetVulkanSamplerAddressMode(b) ==> a == b
  {
  }

  /** The sampler fields the texture chooses. */
  datatype SamplerInfo = SamplerInfo(magFilter: int, minFilter: int, addressModeU: int, addressModeV: int, addressModeW: int, anisotropyEnable: bool, maxAnisotropy: real)

  /**
   * CreateTextureSampler: one filter for magnification and minification, one
   * address mode for all three axes, and anisotropy on at the device's limit.
   */
  function SamplerFor(filter: SamplerFilter, mode: SamplerAddressMode, maxSamplerAnisotropy: real): (info: SamplerInfo)
    ensures info.magFilter == info.minFilter == GetVulkanFilter(filter)
    ensures info.addressModeU == info.addressModeV == info.addressModeW == GetVulkanSamplerAddressMode(mode)
    ensures info.anisotropyEnable && info.maxAnisotropy == maxSamplerAnisotropy
  {
    var f := GetVulkanFilter(filter);
    var a := GetVulkanSamplerAddressMode(mode);
    SamplerInfo(f, f, a, a, a, true, maxSamplerAnisotropy)
  }
}
