/**
 * The image helpers of the older Vulkan back end.  Its memory-type search
 * reports failure with -1 converted to uint32 (0xFFFFFFFF) instead of an
 * error, and image creation passes that value on after logging.  Its
 * format search writes the format through an output pointer and returns
 * whether it found one.
 */
module LegacyImage {
  import opened Wrappers
  import opened VulkanTypes
  import VulkanUtils
  import opened SwapchainRules

  /** -1 as a uint32: no memory type fits. */
  const NoMemoryType: nat := UInt32Max

  /**
   * FindMemoryType: the smallest memory type allowed by the filter that has
   * every requested property, or 0xFFFFFFFF when there is none.  With at
   * most 32 memory types the marker can never be a real index.
   */
  method FindMemoryType(memoryTypes: seq<Flags>, typeFilter: Flags, properties: Flags) returns (index: nat)
    requires |memoryTypes| <= VulkanUtils.MaxMemoryTypes
    ensures index == NoMemoryType <==> forall j :: 0 <= j < |memoryTypes| ==> !VulkanUtils.MemoryTypeFits(memoryTypes, typeFilter, properties, j)
    ensures index != NoMemoryType ==> index < |memoryTypes| && VulkanUtils.MemoryTypeFits(memoryTypes, typeFilter, properties, index)
    ensures index != NoMemoryType ==> forall j :: 0 <= j < index ==> !VulkanUtils.MemoryTypeFits(memoryTypes, typeFilter, properties, j)
  {
    var r := VulkanUtils.FindMemoryType(memoryTypes, typeFilter, properties);
    index := if r.Ok? then r.value else NoMemoryType;
  }

  /** A view created by CreateImageView: the aspect is the member's, which may never have been set. */
  datatype ImageViewInfo = ImageViewInfo(format: int, aspect: Option<Flags>, levelCount: nat)

  class VulkanImage {
    var width: nat
    var height: nat
    var mipLevels: nat
    var format: int
    var tiling: int
    /** m_AspectFlags: the constructor never stores its aspectFlags argument, so this stays unset. */
    var aspectFlags: Option<Flags>
    var memoryTypeIndex: nat
    var memoryTypeErrorLogged: bool
    var view: ImageViewInfo

    /**
     * The constructor stores width, height, mip levels, format and tiling
     * (not the aspect flags), then creates the image and its view.
     */
    constructor(width: nat, height: nat, mipLevels: nat, format: int, tiling: int,
                memoryProperties: Flags, aspectFlags: Flags, memoryTypes: seq<Flags>, typeFilter: Flags)
      requires |memoryTypes| <= VulkanUtils.MaxMemoryTypes
      ensures this.width == width && this.height == height && this.mipLevels == mipLevels
      ensures this.format == format && this.tiling == tiling
      ensures this.aspectFlags.None?
      ensures memoryTypeIndex == NoMemoryType <==> forall j :: 0 <= j < |memoryTypes| ==> !VulkanUtils.MemoryTypeFits(memoryTypes, typeFilter, memoryProperties, j)
      ensures memoryTypeErrorLogged <==> memoryTypeIndex == NoMemoryType
      ensures view == ImageViewInfo(format, None, mipLevels)
    {
      this.width := width;
      this.height := height;
      this.mipLevels := mipLevels;
      this.format := format;
      this.tiling := tiling;
      this.aspectFlags := None;
      memoryTypeIndex := 0;
      memoryTypeErrorLogged := false;
      view := ImageViewInfo(format, None, mipLevels);
      new;
      CreateImage(memoryProperties, memoryTypes, typeFilter);
      CreateImageView();
    }

    /**
     * CreateImage's memory-type choice: when no type fits it logs an error
     * but goes on, and the marker becomes the allocation's memory type index.
     */
    method CreateImage(memoryProperties: Flags, memoryTypes: seq<Flags>, typeFilter: Flags)
      requires |memoryTypes| <= VulkanUtils.MaxMemoryTypes
      modifies this
      ensures width == old(width) && height == old(height) && mipLevels == old(mipLevels)
      ensures format == old(format) && tiling == old(tiling) && aspectFlags == old(aspectFlags) && view == old(view)
      ensures memoryTypeIndex == NoMemoryType <==> forall j :: 0 <= j < |memoryTypes| ==> !VulkanUtils.MemoryTypeFits(memoryTypes, typeFilter, memoryProperties, j)
      ensures memoryTypeIndex != NoMemoryType ==> memoryTypeIndex < |memoryTypes| && VulkanUtils.MemoryTypeFits(memoryTypes, typeFilter, memoryProperties, memoryTypeIndex)
      ensures memoryTypeErrorLogged <==> memoryTypeIndex == NoMemoryType
    {
      var memoryType := FindMemoryType(memoryTypes, typeFilter, memoryProperties);
      memoryTypeErrorLogged := memoryType == NoMemoryType;
      memoryTypeIndex := FindMemoryType(memoryTypes, typeFilter, memoryProperties);
    }

    /** CreateImageView: a view in the image's format over all its mip levels, with the aspect member. */
    method CreateImageView()
      modifies this
      ensures width == old(width) && height == old(height) && mipLevels == old(mipLevels)
      ensures format == old(format) && tiling == old(tiling) && aspectFlags == old(aspectFlags)
      ensures memoryTypeIndex == old(memoryTypeIndex) && memoryTypeErrorLogged == old(memoryTypeErrorLogged)
      ensures view == ImageViewInfo(format, aspectFlags, mipLevels)
    {
      view := ImageViewInfo(format, aspectFlags, mipLevels);
    }
  }

  /**
   * TryFindSupportedFormat: true, with the first candidate supporting the
   * features for the tiling written to the output, when there is one; false
   * with the output left as it was otherwise.
   */
  method TryFindSupportedFormat(candidates: seq<int>, properties: seq<FormatProperties>, tiling: int, features: Flags, output: int)
    returns (found: bool, newOutput: int)
    requires |properties| == |candidates|
    ensures found <==> FirstSupportedFrom(properties, tiling, features, 0).Some?
    ensures found ==> newOutput == candidates[FirstSupportedFrom(properties, tiling, features, 0).value]
    ensures !found ==> newOutput == output
  {
    var r := FindSupportedFormat(candidates, properties, tiling, features);
    if r.Ok? {
      return true, r.value;
    }
    return false, output;
  }

  /**
   * TryFindDepthFormat: the search over D32_SFLOAT, D32_SFLOAT_S8_UINT and
   * D24_UNORM_S8_UINT with optimal tiling; it succeeds exactly when the
   * current back end's FindDepthFormat does, with the same format.
   */
  method TryFindDepthFormat(depthProperties: seq<FormatProperties>, output: int) returns (found: bool, newOutput: int)
    requires |depthProperties| == |DepthCandidates|
    ensures found <==> exists i :: 0 <= i < 3 && HasAll(depthProperties[i].optimalTilingFeatures, FormatFeatureDepthStencilAttachment)
    ensures found ==> exists i :: 0 <= i < 3 && newOutput == DepthCandidates[i]
                        && HasAll(depthProperties[i].optimalTilingFeatures, FormatFeatureDepthStencilAttachment)
                        && forall j :: 0 <= j < i ==> !HasAll(depthProperties[j].optimalTilingFeatures, FormatFeatureDepthStencilAttachment)
    ensures !found ==> newOutput == output
  {
    found, newOutput := TryFindSupportedFormat(DepthCandidates, depthProperties, TilingOptimal, FormatFeatureDepthStencilAttachment, output);
    if found {
      var i := FirstSupportedFrom(depthProperties, TilingOptimal, FormatFeatureDepthStencilAttachment, 0).value;
      assert newOutput == DepthCandidates[i];
    }
  }
}
