/**
 * FindQueueFamilies of the older Vulkan back end.  Its loop is the same
 * graphics/present scan as the current GetGraphicsFamily: walk the families
 * in order, record the graphics and the present index, stop once both are
 * set.
 */
module LegacyQueue {
  import opened Wrappers
  import opened VulkanTypes
  import opened QueueFamilies

  /** QueueFamilyIndices: the graphics and the present family, each possibly unset. */
  datatype QueueFamilyIndices = QueueFamilyIndices(graphicsFamily: Option<nat>, presentFamily: Option<nat>)
  {
    /** Both families are set. */
    predicate IsComplete()
    {
      graphicsFamily.Some? && presentFamily.Some?
    }
  }

  /**
   * FindQueueFamilies: the graphics family always has the GRAPHICS bit, the
   * present family always reports surface support, both are set exactly when
   * the device has some of each, and with no families neither is set.
   */
  method FindQueueFamilies(families: seq<QueueFamilyInfo>) returns (indices: QueueFamilyIndices)
    ensures indices.graphicsFamily == GraphicsFamilyOf(families).graphicsIndex
    ensures indices.presentFamily == GraphicsFamilyOf(families).presentIndex
    ensures indices.graphicsFamily.Some? ==> indices.graphicsFamily.value < |families| && Offers(families[indices.graphicsFamily.value], Graphics)
    ensures indices.presentFamily.Some? ==> indices.presentFamily.value < |families| && Offers(families[indices.presentFamily.value], Present)
    ensures indices.IsComplete() <==>
              (exists j :: 0 <= j < |families| && Offers(families[j], Graphics))
              && (exists j :: 0 <= j < |families| && Offers(families[j], Present))
    ensures |families| == 0 ==> indices == QueueFamilyIndices(None, None)
  {
    var family := GetGraphicsFamily(families);
    indices := QueueFamilyIndices(family.graphicsIndex, family.presentIndex);
  }
}
