/**
 * The swapchain rules of the current Vulkan back end: the choice of surface
 * format, present mode, extent and image count, the image sharing mode, the
 * supported-format search behind the depth buffer, and the swapchain's
 * images, image views and per-render-pass framebuffers.
 *
 * What the device reports (surface capabilities, formats, present modes,
 * the format properties of each candidate, the images the driver hands
 * back) is given as input.  The Choose* decisions are also used by the older
 * back end in LegacySwapchain.
 */
module SwapchainRules {
  import opened Wrappers
  import opened VulkanTypes
  import opened QueueFamilies

  /** The surface format the engine prefers: 8-bit BGRA sRGB in the non-linear sRGB colour space. */
  const PreferredSurfaceFormat := SurfaceFormat(FormatB8G8R8A8Srgb, ColorSpaceSrgbNonlinear)

  /**
   * The surface format chosen from a non-empty list: the preferred one when
   * it is listed, otherwise the first listed.
   */
  function SurfaceFormatChoice(formats: seq<SurfaceFormat>): (r: SurfaceFormat)
    requires |formats| > 0
    ensures r in formats
    ensures r == PreferredSurfaceFormat <==> PreferredSurfaceFormat in formats
    ensures PreferredSurfaceFormat !in formats ==> r == formats[0]
  {
    if PreferredSurfaceFormat in formats then PreferredSurfaceFormat else formats[0]
  }

  /** ChooseSwapSurfaceFormat: returns the first listed format equal to the preferred one, else the first format. */
  method ChooseSwapSurfaceFormat(formats: seq<SurfaceFormat>) returns (r: SurfaceFormat)
    requires |formats| > 0
    ensures r == SurfaceFormatChoice(formats)
  {
    for i := 0 to |formats|
      invariant PreferredSurfaceFormat !in formats[..i]
    {
      if formats[i].format == FormatB8G8R8A8Srgb && formats[i].colorSpace == ColorSpaceSrgbNonlinear {
        return formats[i];
      }
    }
    assert formats[..|formats|] == formats;
    return formats[0];
  }

  /** The present mode chosen: MAILBOX when it is listed, FIFO (always available) otherwise. */
  function PresentModeChoice(modes: seq<int>): (r: int)
    ensures r == PresentModeMailbox <==> PresentModeMailbox in modes
    ensures r != PresentModeMailbox ==> r == PresentModeFifo
  {
    if PresentModeMailbox in modes then PresentModeMailbox else PresentModeFifo
  }

  /** ChooseSwapPresentMode: scans for MAILBOX and falls back to FIFO. */
  method ChooseSwapPresentMode(modes: seq<int>) returns (r: int)
    ensures r == PresentModeChoice(modes)
  {
    for i := 0 to |modes|
      invariant PresentModeMailbox !in modes[..i]
    {
      if modes[i] == PresentModeMailbox {
        return modes[i];
      }
    }
    assert modes[..|modes|] == modes;
    return PresentModeFifo;
  }

  /** std::clamp: lo below the range, hi above it, the value itself inside it. */
  function Clamp(v: nat, lo: nat, hi: nat): (r: nat)
    ensures lo <= hi ==> lo <= r <= hi
    ensures lo <= v <= hi ==> r == v
    ensures r == v || r == lo || r == hi
    ensures v < lo ==> r == lo
    ensures lo <= v && hi < v ==> r == hi
  {
    if v < lo then lo else if hi < v then hi else v
  }

  /**
   * ChooseSwapExtent: the surface's current extent when the surface fixes
   * it (its width is not the UINT32_MAX marker); otherwise the window size
   * clamped, dimension by dimension, into the allowed range.
   */
  function ChooseSwapExtent(caps: SurfaceCapabilities, window: Extent): (r: Extent)
    ensures caps.currentExtent.width != UInt32Max ==> r == caps.currentExtent
    ensures caps.currentExtent.width == UInt32Max && caps.minImageExtent.width <= caps.maxImageExtent.width ==>
              caps.minImageExtent.width <= r.width <= caps.maxImageExtent.width
    ensures caps.currentExtent.width == UInt32Max && caps.minImageExtent.height <= caps.maxImageExtent.height ==>
              caps.minImageExtent.height <= r.height <= caps.maxImageExtent.height
    ensures (&& caps.currentExtent.width == UInt32Max
             && caps.minImageExtent.width <= window.width <= caps.maxImageExtent.width
             && caps.minImageExtent.height <= window.height <= caps.maxImageExtent.height) ==> r == window
    ensures caps.currentExtent.width == UInt32Max ==>
              r == Extent(Clamp(window.width, caps.minImageExtent.width, caps.maxImageExtent.width),
                          Clamp(window.height, caps.minImageExtent.height, caps.maxImageExtent.height))
  {
    if caps.currentExtent.width != UInt32Max then caps.currentExtent
    else Extent(Clamp(window.width, caps.minImageExtent.width, caps.maxImageExtent.width),
                Clamp(window.height, caps.minImageExtent.height, caps.maxImageExtent.height))
  }

  /**
   * The number of images requested: one more than the minimum (in uint32
   * arithmetic), capped at the maximum when the surface has one (a maximum
   * of 0 means no limit).
   */
  function ImageCount(caps: SurfaceCapabilities): (n: nat)
    ensures caps.maxImageCount > 0 ==> n <= caps.maxImageCount
    ensures caps.minImageCount < UInt32Max && (caps.maxImageCount == 0 || caps.minImageCount < caps.maxImageCount) ==>
              n == caps.minImageCount + 1
    ensures caps.minImageCount < UInt32Max && caps.minImageCount <= caps.maxImageCount ==> n >= caps.minImageCount
    ensures caps.minImageCount == UInt32Max ==> n == 0
  {
    var wanted := (caps.minImageCount + 1) % (UInt32Max + 1);
    if caps.maxImageCount > 0 && wanted > caps.maxImageCount then caps.maxImageCount else wanted
  }

  /** The sharing mode of the swapchain images and the queue families that share them. */
  datatype SharingInfo = SharingInfo(mode: int, queueFamilyIndices: seq<nat>)

  /**
   * Images are shared CONCURRENTly between the graphics and the present
   * family when those differ, and owned EXCLUSIVEly by the one family
   * otherwise, with no index list.  The list never names a family twice.
   */
  function SharingFor(graphics: nat, present: nat): (s: SharingInfo)
    ensures s.mode == SharingConcurrent <==> graphics != present
    ensures s.mode == SharingExclusive <==> graphics == present
    ensures s.mode == SharingExclusive ==> |s.queueFamilyIndices| == 0
    ensures s.mode == SharingConcurrent ==> s.queueFamilyIndices == [graphics, present]
    ensures forall i, j :: 0 <= i < j < |s.queueFamilyIndices| ==> s.queueFamilyIndices[i] != s.queueFamilyIndices[j]
  {
    if graphics != present then SharingInfo(SharingConcurrent, [graphics, present])
    else SharingInfo(SharingExclusive, [])
  }

  /** The format has every requested feature for the requested tiling; a tiling other than LINEAR or OPTIMAL matches nothing. */
  predicate SupportsFeatures(properties: FormatProperties, tiling: int, features: Flags)
  {
    || (tiling == TilingLinear && HasAll(properties.linearTilingFeatures, features))
    || (tiling == TilingOptimal && HasAll(properties.optimalTilingFeatures, features))
  }

  /** The first candidate at or after index n whose properties support the features, if any. */
  function FirstSupportedFrom(properties: seq<FormatProperties>, tiling: int, features: Flags, n: nat): (r: Option<nat>)
    requires n <= |properties|
    ensures r.Some? ==> n <= r.value < |properties| && SupportsFeatures(properties[r.value], tiling, features)
    ensures r.Some? ==> forall j :: n <= j < r.value ==> !SupportsFeatures(properties[j], tiling, features)
    ensures r.None? <==> forall j :: n <= j < |properties| ==> !SupportsFeatures(properties[j], tiling, features)
    decreases |properties| - n
  {
    if n == |properties| then None
    else if SupportsFeatures(properties[n], tiling, features) then Some(n)
    else FirstSupportedFrom(properties, tiling, features, n + 1)
  }

  /**
   * FindSupportedFormat: the first candidate whose properties (properties[i]
   * belongs to candidates[i]) have every requested feature for the tiling;
   * an error when no candidate does.
   */
  method FindSupportedFormat(candidates: seq<int>, properties: seq<FormatProperties>, tiling: int, features: Flags)
    returns (r: Result<int, string>)
    requires |properties| == |candidates|
    ensures r.Err? <==> FirstSupportedFrom(properties, tiling, features, 0).None?
    ensures r.Ok? ==> r.value == candidates[FirstSupportedFrom(properties, tiling, features, 0).value]
  {
    for i := 0 to |candidates|
      invariant FirstSupportedFrom(properties, tiling, features, 0) == FirstSupportedFrom(properties, tiling, features, i)
    {
      if tiling == TilingLinear && HasAll(properties[i].linearTilingFeatures, features) {
        return Ok(candidates[i]);
      } else if tiling == TilingOptimal && HasAll(properties[i].optimalTilingFeatures, features) {
        return Ok(candidates[i]);
      }
    }
    return Err("failed to find supported format!");
  }

  /** The depth formats tried, in order of preference. */
  const DepthCandidates: seq<int> := [FormatD32Sfloat, FormatD32SfloatS8Uint, FormatD24UnormS8Uint]

  /** The index of the first depth candidate usable as an optimally tiled depth/stencil attachment. */
  function FirstDepthFormat(depthProperties: seq<FormatProperties>): (r: Option<nat>)
    requires |depthProperties| == |DepthCandidates|
    ensures r.Some? ==> r.value < |DepthCandidates|
  {
    FirstSupportedFrom(depthProperties, TilingOptimal, FormatFeatureDepthStencilAttachment, 0)
  }

  /**
   * FindDepthFormat: the first of D32_SFLOAT, D32_SFLOAT_S8_UINT and
   * D24_UNORM_S8_UINT that can be an optimally tiled depth/stencil
   * attachment; an error when none can.
   */
  method FindDepthFormat(depthProperties: seq<FormatProperties>) returns (r: Result<int, string>)
    requires |depthProperties| == |DepthCandidates|
    ensures r.Ok? ==> exists i :: 0 <= i < 3 && r.value == DepthCandidates[i]
                        && HasAll(depthProperties[i].optimalTilingFeatures, FormatFeatureDepthStencilAttachment)
                        && forall j :: 0 <= j < i ==> !HasAll(depthProperties[j].optimalTilingFeatures, FormatFeatureDepthStencilAttachment)
    ensures r.Err? <==> forall i :: 0 <= i < 3 ==> !HasAll(depthProperties[i].optimalTilingFeatures, FormatFeatureDepthStencilAttachment)
    ensures r.Err? <==> FirstDepthFormat(depthProperties).None?
    ensures r.Ok? ==> r.value == DepthCandidates[FirstDepthFormat(depthProperties).value]
  {
    r := FindSupportedFormat(DepthCandidates, depthProperties, TilingOptimal, FormatFeatureDepthStencilAttachment);
    if r.Ok? {
      var i := FirstSupportedFrom(depthProperties, TilingOptimal, FormatFeatureDepthStencilAttachment, 0).value;
      assert r.value == DepthCandidates[i];
    }
  }

  /** The fields of the swapchain create info that the rules decide. */
  datatype SwapchainCreateInfo = SwapchainCreateInfo(
    minImageCount: nat, surfaceFormat: SurfaceFormat, extent: Extent, sharing: SharingInfo, presentMode: int)

  /** A 2D image view: the image, its format and its aspect. */
  datatype ImageView = ImageView(image: nat, format: int, aspect: Flags)

  /** A framebuffer: its render pass, its attachments and its size in one layer. */
  datatype Framebuffer = Framebuffer(renderPass: nat, attachments: seq<ImageView>, width: nat, height: nat, layers: nat)

  /** The framebuffer of one colour view: that view and the depth view, at the swapchain extent. */
  function FramebufferFor(renderPass: nat, view: ImageView, depthView: ImageView, extent: Extent): Framebuffer
  {
    Framebuffer(renderPass, [view, depthView], extent.width, extent.height, 1)
  }

  /** The swapchain's state: chosen format and extent, images, views and the framebuffers of each render pass. */
  class Swapchain {
    var imageFormat: int
    var extent: Extent
    var createInfo: SwapchainCreateInfo
    var images: seq<nat>
    var imageViews: seq<ImageView>
    var depthView: ImageView
    var framebuffers: map<nat, seq<Framebuffer>>

    /**
     * The constructor runs CreateSwapchain, CreateImageViews and
     * CreateDepthResources in that order: the swapchain holds the driver's
     * images, one colour view per image and the depth view; no framebuffers
     * exist yet.  When no depth candidate is supported the depth view stays
     * the unset placeholder.
     */
    constructor(support: SwapchainSupport, window: Extent, families: seq<QueueFamilyInfo>, driverImages: seq<nat>,
                depthProperties: seq<FormatProperties>, depthImage: nat)
      requires |support.formats| > 0
      requires GraphicsFamilyOf(families).IsComplete()
      requires |depthProperties| == |DepthCandidates|
      ensures imageFormat == SurfaceFormatChoice(support.formats).format
      ensures extent == ChooseSwapExtent(support.capabilities, window)
      ensures createInfo == SwapchainCreateInfo(
                ImageCount(support.capabilities),
                SurfaceFormatChoice(support.formats),
                ChooseSwapExtent(support.capabilities, window),
                SharingFor(GraphicsFamilyOf(families).graphicsIndex.value, GraphicsFamilyOf(families).presentIndex.value),
                PresentModeChoice(support.presentModes))
      ensures images == driverImages
      ensures |imageViews| == |driverImages|
      ensures forall i :: 0 <= i < |driverImages| ==> imageViews[i] == ImageView(driverImages[i], imageFormat, AspectColor)
      ensures FirstDepthFormat(depthProperties).Some? ==>
                depthView == ImageView(depthImage, DepthCandidates[FirstDepthFormat(depthProperties).value], AspectDepth)
      ensures FirstDepthFormat(depthProperties).None? ==> depthView == ImageView(0, FormatUndefined, AspectDepth)
      ensures framebuffers == map[]
    {
      imageFormat := FormatUndefined;
      extent := Extent(0, 0);
      createInfo := SwapchainCreateInfo(0, SurfaceFormat(FormatUndefined, ColorSpaceSrgbNonlinear), Extent(0, 0), SharingInfo(SharingExclusive, []), PresentModeFifo);
      images := [];
      imageViews := [];
      depthView := ImageView(0, FormatUndefined, AspectDepth);
      framebuffers := map[];
      new;
      CreateSwapchain(support, window, families, driverImages);
      CreateImageViews();
      var _ := CreateDepthResources(depthProperties, depthImage);
    }

    /**
     * CreateSwapchain: records the chosen format and extent, fills the create
     * info by the rules above, and takes the images the driver returns.  The
     * device was picked as suitable, so the formats are non-empty and the
     * graphics/present scan is complete.
     */
    method CreateSwapchain(support: SwapchainSupport, window: Extent, families: seq<QueueFamilyInfo>, driverImages: seq<nat>)
      requires |support.formats| > 0
      requires GraphicsFamilyOf(families).IsComplete()
      modifies this
      ensures imageViews == old(imageViews) && depthView == old(depthView) && framebuffers == old(framebuffers)
      ensures imageFormat == SurfaceFormatChoice(support.formats).format
      ensures extent == ChooseSwapExtent(support.capabilities, window)
      ensures createInfo == SwapchainCreateInfo(
                ImageCount(support.capabilities),
                SurfaceFormatChoice(support.formats),
                ChooseSwapExtent(support.capabilities, window),
                SharingFor(GraphicsFamilyOf(families).graphicsIndex.value, GraphicsFamilyOf(families).presentIndex.value),
                PresentModeChoice(support.presentModes))
      ensures images == driverImages
    {
      var surfaceFormat := ChooseSwapSurfaceFormat(support.formats);
      var presentMode := ChooseSwapPresentMode(support.presentModes);
      var chosenExtent := ChooseSwapExtent(support.capabilities, window);
      imageFormat := surfaceFormat.format;
      extent := chosenExtent;
      var imageCount := ImageCount(support.capabilities);
      var family := GetGraphicsFamily(families);
      var sharing := SharingFor(family.graphicsIndex.value, family.presentIndex.value);
      createInfo := SwapchainCreateInfo(imageCount, surfaceFormat, chosenExtent, sharing, presentMode);
      images := driverImages;
    }

    /** CreateImageViews: one colour view per image, of that image, in the swapchain format. */
    method CreateImageViews()
      modifies this
      ensures imageFormat == old(imageFormat) && extent == old(extent) && createInfo == old(createInfo)
      ensures images == old(images) && depthView == old(depthView) && framebuffers == old(framebuffers)
      ensures |imageViews| == |images|
      ensures forall i :: 0 <= i < |images| ==> imageViews[i] == ImageView(images[i], imageFormat, AspectColor)
    {
      var views: seq<ImageView> := [];
      for i := 0 to |images|
        invariant |views| == i
        invariant forall k :: 0 <= k < i ==> views[k] == ImageView(images[k], imageFormat, AspectColor)
      {
        views := views + [ImageView(images[i], imageFormat, AspectColor)];
      }
      imageViews := views;
    }

    /**
     * CreateDepthResources: the depth view of the depth image, in the depth
     * format found; on the error path nothing changes.
     */
    method CreateDepthResources(depthProperties: seq<FormatProperties>, depthImage: nat) returns (r: Result<int, string>)
      requires |depthProperties| == |DepthCandidates|
      modifies this
      ensures imageFormat == old(imageFormat) && extent == old(extent) && createInfo == old(createInfo)
      ensures images == old(images) && imageViews == old(imageViews) && framebuffers == old(framebuffers)
      ensures r.Err? <==> forall i :: 0 <= i < 3 ==> !HasAll(depthProperties[i].optimalTilingFeatures, FormatFeatureDepthStencilAttachment)
      ensures r.Ok? ==> r.value in DepthCandidates && depthView == ImageView(depthImage, r.value, AspectDepth)
      ensures r.Ok? <==> FirstDepthFormat(depthProperties).Some?
      ensures r.Ok? ==> r.value == DepthCandidates[FirstDepthFormat(depthProperties).value]
      ensures r.Err? ==> depthView == old(depthView)
    {
      r := FindDepthFormat(depthProperties);
      if r.Ok? {
        depthView := ImageView(depthImage, r.value, AspectDepth);
      }
    }

    /**
     * CreateFramebuffers: one framebuffer per image view, each attaching that
     * view and the depth view at the swapchain extent, stored under the
     * render pass and replacing whatever that render pass had before; the
     * other render passes keep theirs.
     */
    method CreateFramebuffers(renderPass: nat)
      modifies this
      ensures imageFormat == old(imageFormat) && extent == old(extent) && createInfo == old(createInfo)
      ensures images == old(images) && imageViews == old(imageViews) && depthView == old(depthView)
      ensures renderPass in framebuffers && |framebuffers[renderPass]| == |imageViews|
      ensures forall i :: 0 <= i < |imageViews| ==> framebuffers[renderPass][i] == FramebufferFor(renderPass, imageViews[i], depthView, extent)
      ensures forall p :: p != renderPass ==> (p in framebuffers <==> p in old(framebuffers))
      ensures forall p :: p != renderPass && p in framebuffers ==> framebuffers[p] == old(framebuffers)[p]
    {
      var created: seq<Framebuffer> := [];
      for i := 0 to |imageViews|
        invariant |created| == i
        invariant forall k :: 0 <= k < i ==> created[k] == FramebufferFor(renderPass, imageViews[k], depthView, extent)
      {
        created := created + [FramebufferFor(renderPass, imageViews[i], depthView, extent)];
      }
      framebuffers := framebuffers[renderPass := created];
    }
  }
}
