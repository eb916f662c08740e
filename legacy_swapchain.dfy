/**
 * The swapchain of the older Vulkan back end.  Its Choose* functions make
 * the same decisions as the current ones (SwapchainRules).  It differs in
 * what it keeps: the extent is chosen from the members m_Width and m_Height,
 * which nothing assigns (RecreateSwapchain ignores its width and height),
 * the EXCLUSIVE branch sets the index count to 0 explicitly, and the images
 * it fetches go into a local vector that is dropped.
 */
module LegacySwapchain {
  import opened Wrappers
  import opened VulkanTypes
  import opened QueueFamilies
  import opened SwapchainRules
  import LegacyQueue

  /**
   * QuerySwapchainSupport: the capabilities as reported, and the format and
   * present-mode lists sized to the reported counts and filled with what the
   * driver reports; a count of zero leaves its list empty.
   */
  method QuerySwapchainSupport(capabilities: SurfaceCapabilities, reportedFormats: seq<SurfaceFormat>, reportedModes: seq<int>)
    returns (details: SwapchainSupport)
    ensures details.capabilities == capabilities
    ensures |details.formats| == |reportedFormats| && |details.presentModes| == |reportedModes|
    ensures forall i :: 0 <= i < |reportedFormats| ==> details.formats[i] == reportedFormats[i]
    ensures forall i :: 0 <= i < |reportedModes| ==> details.presentModes[i] == reportedModes[i]
  {
    var formats: seq<SurfaceFormat> := [];
    var formatCount := |reportedFormats|;
    if formatCount > 0 {
      formats := reportedFormats;
    }
    var presentModes: seq<int> := [];
    var presentModeCount := |reportedModes|;
    if presentModeCount > 0 {
      presentModes := reportedModes;
    }
    details := SwapchainSupport(capabilities, formats, presentModes);
  }

  /** The steps RecreateSwapchain performs, in the order it performs them. */
  datatype RecreateStep = WaitIdle | Cleanup | CreateSwapchainStep | CreateImageViewsStep

  class LegacyVulkanSwapchain {
    /** m_Width and m_Height: never assigned after construction. */
    var width: nat
    var height: nat
    var imageFormat: int
    var extent: Extent
    var createInfo: SwapchainCreateInfo
    var steps: seq<RecreateStep>

    /**
     * The constructor does nothing; the width and height members hold
     * whatever they were given (they are not initialised in the source).
     */
    constructor(width: nat, height: nat)
      ensures this.width == width && this.height == height && steps == []
    {
      this.width := width;
      this.height := height;
      imageFormat := FormatUndefined;
      extent := Extent(0, 0);
      createInfo := SwapchainCreateInfo(0, SurfaceFormat(FormatUndefined, ColorSpaceSrgbNonlinear), Extent(0, 0), SharingInfo(SharingExclusive, []), PresentModeFifo);
      steps := [];
    }

    /**
     * CreateSwapchain: the create info follows the same rules as the current
     * back end, with the extent chosen from the width and height members;
     * the chosen format and extent are recorded.
     */
    method CreateSwapchain(support: SwapchainSupport, families: seq<QueueFamilyInfo>)
      requires |support.formats| > 0
      requires GraphicsFamilyOf(families).IsComplete()
      modifies this
      ensures width == old(width) && height == old(height) && steps == old(steps)
      ensures imageFormat == SurfaceFormatChoice(support.formats).format
      ensures extent == ChooseSwapExtent(support.capabilities, Extent(width, height))
      ensures createInfo == SwapchainCreateInfo(
                ImageCount(support.capabilities),
                SurfaceFormatChoice(support.formats),
                ChooseSwapExtent(support.capabilities, Extent(width, height)),
                SharingFor(GraphicsFamilyOf(families).graphicsIndex.value, GraphicsFamilyOf(families).presentIndex.value),
                PresentModeChoice(support.presentModes))
    {
      var surfaceFormat := ChooseSwapSurfaceFormat(support.formats);
      var presentMode := ChooseSwapPresentMode(support.presentModes);
      var chosenExtent := ChooseSwapExtent(support.capabilities, Extent(width, height));
      var imageCount := ImageCount(support.capabilities);
      var indices := LegacyQueue.FindQueueFamilies(families);
      var sharing;
      if indices.graphicsFamily != indices.presentFamily {
        sharing := SharingInfo(SharingConcurrent, [indices.graphicsFamily.value, indices.presentFamily.value]);
      } else {
        sharing := SharingInfo(SharingExclusive, []);
      }
      createInfo := SwapchainCreateInfo(imageCount, surfaceFormat, chosenExtent, sharing, presentMode);
      imageFormat := surfaceFormat.format;
      extent := chosenExtent;
    }

    /**
     * RecreateSwapchain: waits for the device, cleans up (a no-op), creates
     * the swapchain and its image views, in that order.  The new width and
     * height are not used: the extent comes from the unchanged members.
     */
    method RecreateSwapchain(newWidth: nat, newHeight: nat, support: SwapchainSupport, families: seq<QueueFamilyInfo>)
      requires |support.formats| > 0
      requires GraphicsFamilyOf(families).IsComplete()
      modifies this
      ensures steps == old(steps) + [WaitIdle, Cleanup, CreateSwapchainStep, CreateImageViewsStep]
      ensures width == old(width) && height == old(height)
      ensures extent == ChooseSwapExtent(support.capabilities, Extent(old(width), old(height)))
      ensures imageFormat == SurfaceFormatChoice(support.formats).format
    {
      steps := steps + [WaitIdle];
      steps := steps + [Cleanup];
      steps := steps + [CreateSwapchainStep];
      CreateSwapchain(support, families);
      steps := steps + [CreateImageViewsStep];
    }
  }
}
